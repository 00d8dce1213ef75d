/** The worker's end of the link, its variables updated by calls, timers and replies. */
module ClusterWorker {
  import opened Common
  import opened WorkerTypes
  import opened WorkerLink

  class Worker {
    var phase: Phase
    var tasks: seq<Task>
    var joinCall: Option<nat>
    var retry: bool
    /** Whether the keep-alive interval runs, and which round of `keepAlive` it belongs to. */
    var ticking: bool
    var round: nat
    var keepCalls: map<nat, nat>
    var losses: map<nat, nat>
    var nextCall: nat
    /** Everything sent so far. */
    var sent: seq<Request>

    ghost function State(): Side
      reads this
    {
      Side(phase, tasks, joinCall, retry, ticking, round, keepCalls, losses, nextCall)
    }

    twostate predicate Did(a: Act)
      reads this
    {
      State() == a.side && sent == old(sent) + a.sent
    }

    constructor ()
      ensures State() == CREATED.side && sent == CREATED.sent
    {
      phase, tasks, joinCall, retry := Unregistered, [], None, false;
      ticking, round, keepCalls, losses, nextCall := false, 0, map[], map[], 0;
      sent := [];
      new;
      CallJoin();
    }

    method CallJoin()
      modifies this
      ensures Did(Join(old(State())))
    {
      sent := sent + [JoinCall(nextCall)];
      joinCall := Some(nextCall);
      retry := false;
      nextCall := nextCall + 1;
    }

    method Add(t: Task)
      modifies this
      ensures Did(AddTask(old(State()), t))
    {
      if IndexOf(tasks, t) == -1 {
        tasks := tasks + [t];
        if phase == Registered {
          sent := sent + [PickUpCast([t])];
        }
      }
    }

    method Remove(t: Task)
      modifies this
      ensures Did(RemoveTask(old(State()), t))
    {
      var i := IndexOf(tasks, t);
      if i != -1 {
        tasks := tasks[..i] + tasks[i + 1..];
        if phase == Registered {
          sent := sent + [LayDownCast(t)];
        }
      }
    }

    method Reject(t: Task)
      modifies this
      ensures Did(RejectTask(old(State()), t))
    {
      sent := sent + [UnscheduleCast(t)];
    }

    method CallQuit()
      modifies this
      ensures Did(Quit(old(State())))
    {
      if phase == Registered {
        ticking := false;
        sent := sent + [QuitCast];
      } else if phase == Recovering {
        ticking := false;
      }
    }

    method StartKeepAlive()
      modifies this
      ensures State() == KeepAlive(old(State())) && sent == old(sent)
    {
      ticking := true;
      round := round + 1;
      losses := losses[round := 0];
    }

    /** The agent's `onLoss` callback, as the calls it makes. */
    method LoseTasks(dropped: seq<Task>)
      modifies this
      ensures Did(GiveUp(old(State()), dropped))
    {
      ghost var side, before := State(), sent;
      ghost var done := Still(side);
      assert dropped[..0] == [];
      for i := 0 to |dropped|
        invariant done == GiveUp(side, dropped[..i])
        invariant State() == done.side && sent == before + done.sent
      {
        GiveUpOneMore(side, dropped, i);
        ghost var next := RemoveTask(done.side, dropped[i]);
        Remove(dropped[i]);
        assert (before + done.sent) + next.sent == before + (done.sent + next.sent);
        done := Act(next.side, done.sent + next.sent);
      }
      assert dropped[..|dropped|] == dropped;
    }

    method OnJoinReply(inService: bool, dropped: seq<Task>)
      modifies this
      ensures Did(OnJoined(old(State()), inService, dropped))
    {
      var recovering := phase == Recovering;
      joinCall := None;
      phase := Registered;
      if recovering {
        if !inService {
          if |tasks| > 0 {
            sent := sent + [PickUpCast(tasks)];
          }
        } else {
          LoseTasks(dropped);
          tasks := [];
        }
      }
      StartKeepAlive();
    }

    method OnJoinError(again: bool)
      modifies this
      ensures Did(Still(OnJoinFailed(old(State()), again)))
    {
      joinCall := None;
      retry := again || phase == Recovering;
    }

    method Recover()
      modifies this
      ensures Did(TryRecovery(old(State())))
    {
      ticking := false;
      phase := Recovering;
      CallJoin();
    }

    method OnKeepAliveReply(call: nat, known: bool)
      requires call in keepCalls
      modifies this
      ensures Did(OnKept(old(State()), call, known))
    {
      losses := losses[keepCalls[call] := 0];
      keepCalls := keepCalls - {call};
      if !known {
        if phase != Recovering {
          Recover();
        }
      }
    }

    method OnKeepAliveError(call: nat)
      requires call in keepCalls
      modifies this
      ensures Did(OnKeepFailed(old(State()), call))
    {
      var k := keepCalls[call];
      var count := (if k in losses then losses[k] else 0) + 1;
      losses := losses[k := count];
      keepCalls := keepCalls - {call};
      if count > 3 {
        if phase != Recovering {
          Recover();
        }
      }
    }

    method OnInterval()
      modifies this
      ensures Did(SendKeepAlive(old(State())))
    {
      keepCalls := keepCalls[nextCall := round];
      sent := sent + [KeepAliveCall(nextCall)];
      nextCall := nextCall + 1;
    }

    /** Every event of a run that reaches the worker has the effect the link model gives it. */
    method OnEvent(ev: Event)
      requires !ev.ManagerServes? && !ev.ManagerDrops?
      requires ev.JoinReplies? ==> ev.reply.Joined?
      requires ev.KeepAliveReplies? ==> ev.reply.Kept? && ev.reply.call in keepCalls
      requires ev.KeepAliveFails? ==> ev.call in keepCalls
      modifies this
      ensures Did(OnWorker(old(State()), ev))
    {
      match ev
      case TaskAdded(t) => Add(t);
      case TaskRemoved(t) => Remove(t);
      case TaskRejected(t) => Reject(t);
      case QuitCalled => CallQuit();
      case JoinReplies(r, dropped) => OnJoinReply(r.inService, dropped);
      case JoinFails(again) => OnJoinError(again);
      case RetryFires => CallJoin();
      case IntervalFires => OnInterval();
      case KeepAliveReplies(r) => OnKeepAliveReply(r.call, r.known);
      case KeepAliveFails(call) => OnKeepAliveError(call);
    }
  }
}
