/** When a worker leaves its cluster and how it comes back: no worker is forgotten for good. */
module LinkRecovery {
  import opened Common
  import opened WorkerTypes
  import opened WorkerLink

  // Exact conditions of one event

  function LossesOf(s: Side, round: nat): nat {
    if round in s.losses then s.losses[round] else 0
  }

  /** The outcome of a keep-alive call sends the worker to rejoin: it is unknown, or this is the fourth loss of the round. */
  predicate Alarms(s: Side, ev: Event) {
    match ev
    case KeepAliveReplies(r) => r.Kept? && !r.known
    case KeepAliveFails(call) => call in s.keepCalls && LossesOf(s, s.keepCalls[call]) >= 3
    case _ => false
  }

  /**
   A worker starts to recover exactly when it is not recovering yet and a keep-alive call tells it that it is unknown or
   is the fourth in its round to fail; then it stops its keep-alive and sends a join.
   */
  lemma RecoversIff(l: Link, ev: Event)
    requires Enabled(l, ev) && l.worker.phase != Recovering
    ensures var s, r := l.worker, Next(l, ev);
            && (r.worker.phase == Recovering <==> Alarms(s, ev))
            && (r.worker.phase == Recovering ==>
                  && r.worker.joinCall == Some(s.nextCall) && !r.worker.retry && !r.worker.ticking
                  && r.channel == l.channel + [JoinCall(s.nextCall)] && r.worker.tasks == s.tasks)
  {}

  /** A worker is registered exactly by the answer to the join it waits for, and then keeps itself alive. */
  lemma RegistersIff(l: Link, ev: Event)
    requires Enabled(l, ev) && l.worker.phase != Registered
    ensures var r := Next(l, ev).worker;
            && (r.phase == Registered <==> ev.JoinReplies?)
            && (r.phase == Registered ==> r.ticking && r.joinCall == None && r.round == l.worker.round + 1)
  {
    if ev.JoinReplies? {
      JoinedSide(l.worker, ev.reply.inService, ev.dropped);
    }
  }

  /** A failed join is tried again: always while recovering, and the first join if there are tries left. */
  lemma FailedJoinRetriesIff(l: Link, again: bool)
    requires Enabled(l, JoinFails(again))
    ensures var r := Next(l, JoinFails(again)).worker;
            r == l.worker.(joinCall := None, retry := r.retry) && (r.retry <==> l.worker.phase == Recovering || again)
  {}

  /** Tasks come and go by their own events, and by the answer to a rejoin; a change while registered is announced. */
  lemma TasksAre(l: Link, ev: Event)
    requires Enabled(l, ev) && !ev.JoinReplies?
    ensures var s, r := l.worker, Next(l, ev);
            && r.worker.tasks == (match ev
                                  case TaskAdded(t) => Pushed(s.tasks, t)
                                  case TaskRemoved(t) => Without(s.tasks, t)
                                  case _ => s.tasks)
            && (r.worker.tasks != s.tasks ==>
                  r.channel == l.channel +
                    if s.phase != Registered then []
                    else if ev.TaskAdded? then [PickUpCast([ev.task])] else [LayDownCast(ev.task)])
            && (ev.TaskRejected? ==> r.channel == l.channel + [UnscheduleCast(ev.task)])
  {}

  /** A registered worker that quits stops its keep-alive, and once all is served the manager has no entry for it. */
  lemma QuitLeaves(l: Link)
    requires l.worker.phase == Registered
    ensures var r := Next(l, QuitCalled); !r.worker.ticking && Settled(r.entry, r.channel) == None
  {
    SettledOne(l.entry, l.channel, QuitCast);
  }

  // What losses count

  /** The failures of keep-alive calls of one round since the last answer to one. */
  function Failures(evs: seq<Event>, round: nat): nat
    decreases |evs|
  {
    if evs == [] then 0
    else
      var l, ev := Run(evs[..|evs| - 1]), evs[|evs| - 1];
      var before := Failures(evs[..|evs| - 1], round);
      if !Enabled(l, ev) then before
      else if ev.KeepAliveFails? && l.worker.keepCalls[ev.call] == round then before + 1
      else if ev.KeepAliveReplies? && l.worker.keepCalls[ev.reply.call] == round then 0
      else before
  }

  /** Rounds are counted up. */
  ghost predicate Rounds(s: Side) {
    && (forall call :: call in s.keepCalls ==> s.keepCalls[call] <= s.round)
    && (forall k :: k in s.losses ==> k <= s.round)
  }

  /** What the answer to a join leaves: a registered worker with a new round, its tasks given up if it was in service. */
  lemma JoinedSide(s: Side, inService: bool, dropped: seq<Task>)
    ensures var kept := if s.phase == Recovering && inService then [] else s.tasks;
            OnJoined(s, inService, dropped).side == KeepAlive(s.(phase := Registered, joinCall := None, tasks := kept))
  {
    var r := s.(phase := Registered, joinCall := None);
    if s.phase == Recovering && inService {
      var a := GiveUp(r, dropped);
      GiveUpSettles(r, dropped, None);
      assert a.side.(tasks := []) == r.(tasks := []);
    } else {
      assert r == s.(phase := Registered, joinCall := None, tasks := s.tasks);
    }
  }

  lemma AnswerCounts(l: Link, ev: Event)
    requires Enabled(l, ev) && ev.KeepAliveReplies?
    ensures var s, r := l.worker, Next(l, ev).worker;
            && r.round == s.round && r.losses == s.losses[s.keepCalls[ev.reply.call] := 0]
            && r.keepCalls == s.keepCalls - {ev.reply.call}
  {}

  lemma FailureCounts(l: Link, ev: Event)
    requires Enabled(l, ev) && ev.KeepAliveFails?
    ensures var s, r := l.worker, Next(l, ev).worker;
            var k := s.keepCalls[ev.call];
            r.round == s.round && r.losses == s.losses[k := LossesOf(s, k) + 1] && r.keepCalls == s.keepCalls - {ev.call}
  {}

  lemma NothingCounts(l: Link, ev: Event)
    requires Enabled(l, ev) && !ev.JoinReplies? && !ev.KeepAliveReplies? && !ev.KeepAliveFails?
    ensures var s, r := l.worker, Next(l, ev).worker;
            && r.round == s.round && r.losses == s.losses
            && r.keepCalls == if ev.IntervalFires? then s.keepCalls[s.nextCall := s.round] else s.keepCalls
  {}

  /** Keep-alive calls are opened by the interval and closed by their first outcome, which counts for their own round. */
  lemma OutcomesCountOnce(l: Link, ev: Event)
    requires Enabled(l, ev) && !ev.JoinReplies?
    ensures var s, r := l.worker, Next(l, ev).worker;
            && r.round == s.round
            && (r.losses == match ev
                            case KeepAliveReplies(q) => s.losses[s.keepCalls[q.call] := 0]
                            case KeepAliveFails(call) => s.losses[s.keepCalls[call] := LossesOf(s, s.keepCalls[call]) + 1]
                            case _ => s.losses)
            && (r.keepCalls == match ev
                               case KeepAliveReplies(q) => s.keepCalls - {q.call}
                               case KeepAliveFails(call) => s.keepCalls - {call}
                               case IntervalFires => s.keepCalls[s.nextCall := s.round]
                               case _ => s.keepCalls)
  {
    if ev.KeepAliveReplies? {
      AnswerCounts(l, ev);
    } else if ev.KeepAliveFails? {
      FailureCounts(l, ev);
    } else {
      NothingCounts(l, ev);
    }
  }

  lemma NextRounds(l: Link, ev: Event)
    requires Rounds(l.worker)
    ensures Rounds(Next(l, ev).worker) && Next(l, ev).worker.round >= l.worker.round
  {
    if Enabled(l, ev) {
      if ev.JoinReplies? {
        JoinedSide(l.worker, ev.reply.inService, ev.dropped);
      } else {
        OutcomesCountOnce(l, ev);
      }
    }
  }

  /** What one event makes of the losses of a round. */
  lemma LossesNext(l: Link, ev: Event, round: nat)
    requires Enabled(l, ev) && Rounds(l.worker)
    ensures LossesOf(Next(l, ev).worker, round) ==
              if ev.KeepAliveFails? && l.worker.keepCalls[ev.call] == round then LossesOf(l.worker, round) + 1
              else if ev.KeepAliveReplies? && l.worker.keepCalls[ev.reply.call] == round then 0
              else LossesOf(l.worker, round)
  {
    if ev.JoinReplies? {
      JoinedSide(l.worker, ev.reply.inService, ev.dropped);
    } else {
      OutcomesCountOnce(l, ev);
    }
  }

  lemma {:induction false} LossesAreFailures(evs: seq<Event>, round: nat)
    ensures Rounds(Run(evs).worker)
    ensures LossesOf(Run(evs).worker, round) == Failures(evs, round)
    decreases |evs|
  {
    if evs != [] {
      var l, ev := Run(evs[..|evs| - 1]), evs[|evs| - 1];
      LossesAreFailures(evs[..|evs| - 1], round);
      NextRounds(l, ev);
      if Enabled(l, ev) {
        LossesNext(l, ev, round);
      }
    }
  }

  /** In a run: an answer that the worker is unknown, or the fourth failure since the last answer of the round. */
  lemma RecoversAfterFailuresIff(evs: seq<Event>, ev: Event)
    requires Enabled(Run(evs), ev) && Run(evs).worker.phase != Recovering
    ensures Next(Run(evs), ev).worker.phase == Recovering <==>
              (ev.KeepAliveReplies? && !ev.reply.known) ||
              (ev.KeepAliveFails? && Failures(evs, Run(evs).worker.keepCalls[ev.call]) >= 3)
  {
    RecoversIff(Run(evs), ev);
    if ev.KeepAliveFails? {
      LossesAreFailures(evs, Run(evs).worker.keepCalls[ev.call]);
    }
  }

  // Nobody is stranded

  /** The join that is waited for is in flight or answered. */
  ghost predicate AnswerComing(l: Link) {
    l.worker.joinCall.Some? ==>
      JoinCall(l.worker.joinCall.value) in l.channel || exists b :: Joined(l.worker.joinCall.value, b) in l.replies
  }

  /** A recovering worker waits for the answer to a join or for its next try. */
  ghost predicate Hopeful(l: Link) {
    Tidy(l.worker) && AnswerComing(l) && (l.worker.phase == Recovering ==> l.worker.joinCall.Some? || l.worker.retry)
  }

  lemma {:induction false} GiveUpTidy(s: Side, dropped: seq<Task>)
    requires NoDup(s.tasks)
    ensures NoDup(GiveUp(s, dropped).side.tasks)
    decreases |dropped|
  {
    if dropped != [] {
      GiveUpTidy(s, dropped[..|dropped| - 1]);
    }
  }

  lemma NextTidy(l: Link, ev: Event)
    requires Tidy(l.worker)
    ensures Tidy(Next(l, ev).worker)
  {
    if Enabled(l, ev) && ev.JoinReplies? {
      var s := l.worker.(phase := Registered, joinCall := None);
      JoinedSide(l.worker, ev.reply.inService, ev.dropped);
      GiveUpTidy(s, ev.dropped);
    }
  }

  lemma NextAnswerComing(l: Link, ev: Event)
    requires Tidy(l.worker) && AnswerComing(l)
    ensures AnswerComing(Next(l, ev))
  {
    if Enabled(l, ev) {
      var r := Next(l, ev);
      match ev
      case ManagerServes(inService) =>
        assert l.channel == [l.channel[0]] + r.channel;
        if l.channel[0].JoinCall? {
          assert Joined(l.channel[0].call, inService) in r.replies;
        }
      case JoinReplies(_, dropped) =>
        JoinedSide(l.worker, ev.reply.inService, dropped);
      case _ =>
    }
  }

  /** In every run a worker that has lost its cluster waits for an answer that comes, or for its next try. */
  lemma {:induction false} NobodyIsStranded(evs: seq<Event>)
    ensures Hopeful(Run(evs))
    decreases |evs|
  {
    if evs == [] {
      assert JoinCall(0) in START.channel;
    } else {
      var l, ev := Run(evs[..|evs| - 1]), evs[|evs| - 1];
      NobodyIsStranded(evs[..|evs| - 1]);
      NextTidy(l, ev);
      NextAnswerComing(l, ev);
      if Enabled(l, ev) && ev.JoinReplies? {
        JoinedSide(l.worker, ev.reply.inService, ev.dropped);
      }
    }
  }

  /** The number under which a request is answered, if it is a call. */
  function CallOf(r: Request): Option<nat> {
    match r
    case JoinCall(call) => Some(call)
    case KeepAliveCall(call) => Some(call)
    case _ => None
  }

  /** Every number in use was given out: those of calls in flight, of replies, and of calls that are waited for. */
  ghost predicate GivenOut(l: Link) {
    && (forall r :: r in l.channel && CallOf(r).Some? ==> CallOf(r).value < l.worker.nextCall)
    && (forall r :: r in l.replies ==> r.call < l.worker.nextCall)
    && (l.worker.joinCall.Some? ==> l.worker.joinCall.value < l.worker.nextCall)
    && (forall call :: call in l.worker.keepCalls ==> call < l.worker.nextCall)
  }

  lemma {:induction false} GiveUpCalls(s: Side, dropped: seq<Task>)
    ensures forall r :: r in GiveUp(s, dropped).sent ==> CallOf(r) == None
    decreases |dropped|
  {
    if dropped != [] {
      GiveUpCalls(s, dropped[..|dropped| - 1]);
    }
  }

  lemma ServedGivenOut(l: Link, inService: bool)
    requires GivenOut(l) && l.channel != []
    ensures GivenOut(Next(l, ManagerServes(inService)))
  {
    var head := l.channel[0];
    assert head in l.channel;
    assert l.channel == [head] + l.channel[1..];
  }

  lemma JoinedGivenOut(l: Link, ev: Event)
    requires GivenOut(l) && Enabled(l, ev) && ev.JoinReplies?
    ensures GivenOut(Next(l, ev))
  {
    var s := l.worker.(phase := Registered, joinCall := None);
    JoinedSide(l.worker, ev.reply.inService, ev.dropped);
    GiveUpCalls(s, ev.dropped);
  }

  /** The interval sends a keep-alive call of the round it belongs to. */
  lemma IntervalCalls(l: Link)
    requires Enabled(l, IntervalFires)
    ensures var s, r := l.worker, Next(l, IntervalFires);
            r.channel == l.channel + [KeepAliveCall(s.nextCall)] && r.worker.nextCall == s.nextCall + 1
  {}

  lemma SentGivenOut(l: Link, ev: Event)
    requires GivenOut(l) && Enabled(l, ev) && !ev.ManagerServes? && !ev.ManagerDrops? && !ev.JoinReplies?
    ensures GivenOut(Next(l, ev))
  {
    var a := OnWorker(l.worker, ev);
    assert a.side.nextCall >= l.worker.nextCall;
    assert forall r :: r in a.sent && CallOf(r).Some? ==> CallOf(r).value < a.side.nextCall;
  }

  lemma NextGivenOut(l: Link, ev: Event)
    requires GivenOut(l)
    ensures GivenOut(Next(l, ev))
  {
    if Enabled(l, ev) {
      match ev
      case ManagerServes(b) => ServedGivenOut(l, b);
      case ManagerDrops =>
      case JoinReplies(_, _) => JoinedGivenOut(l, ev);
      case _ => SentGivenOut(l, ev);
    }
  }

  /** So a new call never shares its number with anything before it, and no stale reply can be taken for its answer. */
  lemma {:induction false} CallsAreNew(evs: seq<Event>)
    ensures GivenOut(Run(evs))
    decreases |evs|
  {
    if evs != [] {
      CallsAreNew(evs[..|evs| - 1]);
      NextGivenOut(Run(evs[..|evs| - 1]), evs[|evs| - 1]);
    }
  }

  // A whole recovery

  /** One more event of a run. */
  lemma Do(evs: seq<Event>, l: Link, ev: Event) returns (evs': seq<Event>, l': Link)
    requires l == Run(evs)
    ensures evs' == evs + [ev] && l' == Next(l, ev) && l' == Run(evs')
  {
    evs', l' := evs + [ev], Next(l, ev);
    assert evs'[..|evs|] == evs;
  }

  /** The manager serves everything in flight; joins and keep-alive calls among it are answered. */
  lemma {:induction false} ServesAll(evs: seq<Event>, l: Link, inService: bool) returns (evs': seq<Event>, l': Link)
    requires l == Run(evs)
    ensures evs <= evs' && l' == Run(evs') && |evs'| == |evs| + |l.channel|
    ensures l'.worker == l.worker && l'.channel == [] && l'.entry == Settled(l.entry, l.channel) && l.replies <= l'.replies
    ensures forall call :: JoinCall(call) in l.channel ==> Joined(call, inService) in l'.replies
    decreases |l.channel|
  {
    if l.channel == [] {
      evs', l' := evs, l;
    } else {
      var head := l.channel[0];
      var evs1, l1 := Do(evs, l, ManagerServes(inService));
      SettledHead(l.entry, l.channel);
      assert l.channel == [head] + l1.channel;
      evs', l' := ServesAll(evs1, l1, inService);
    }
  }

  /** What is left of a worker's tasks when its rejoin is answered. */
  function TasksKept(tasks: seq<Task>, inService: bool): seq<Task> {
    if inService then [] else tasks
  }

  /** What a worker sends when its rejoin is answered leaves the manager with the tasks it keeps. */
  lemma RejoinSettles(s: Side, inService: bool, dropped: seq<Task>)
    requires Tidy(s) && s.phase == Recovering
    ensures var a := OnJoined(s, inService, dropped);
            && a.side.phase == Registered && a.side.ticking && a.side.tasks == TasksKept(s.tasks, inService)
            && Settled(Some([]), a.sent) == Some(a.side.tasks)
  {
    var r := s.(phase := Registered, joinCall := None);
    JoinedSide(s, inService, dropped);
    if inService {
      GiveUpSettles(r, dropped, Some([]));
    } else if s.tasks != [] {
      PickUpAll(s.tasks);
      SettledOne(Some([]), [], PickUpCast(s.tasks));
      assert [] + [PickUpCast(s.tasks)] == [PickUpCast(s.tasks)];
    }
  }

  lemma AnswerJoins(l: Link, call: nat, inService: bool, dropped: seq<Task>)
    requires l.channel == [] && Joined(call, inService) in l.replies && l.worker.joinCall == Some(call)
    ensures var a := OnJoined(l.worker, inService, dropped);
            Next(l, JoinReplies(Joined(call, inService), dropped)) == l.(worker := a.side, channel := a.sent)
  {
    var a := OnJoined(l.worker, inService, dropped);
    assert l.channel + a.sent == a.sent;
  }

  /** A rejoin that has been served is answered: everything sent in return is served as well. */
  lemma Rejoins(evs: seq<Event>, l: Link, inService: bool, dropped: seq<Task>) returns (evs': seq<Event>, l': Link)
    requires l == Run(evs) && Tidy(l.worker) && l.worker.phase == Recovering && l.channel == [] && l.entry == Some([])
    requires l.worker.joinCall.Some? && Joined(l.worker.joinCall.value, inService) in l.replies
    ensures evs <= evs' && l' == Run(evs') && l'.channel == []
    ensures l'.worker.phase == Registered && l'.worker.ticking
    ensures l'.worker.tasks == TasksKept(l.worker.tasks, inService) && l'.entry == Some(l'.worker.tasks)
  {
    var call := l.worker.joinCall.value;
    AnswerJoins(l, call, inService, dropped);
    RejoinSettles(l.worker, inService, dropped);
    var evs1, l1 := Do(evs, l, JoinReplies(Joined(call, inService), dropped));
    evs', l' := ServesAll(evs1, l1, inService);
  }

  /**
   A forgotten worker comes back. Whatever has happened before, when a worker that is not recovering is told that it is
   unknown, the manager serves what is in flight and the rejoin is answered: then it is registered again and both ends
   hold the same list, which is all of its tasks if the manager was still initializing, and empty otherwise.
   */
  lemma UnknownComesBack(evs: seq<Event>, call: nat, inService: bool, dropped: seq<Task>)
    returns (evs': seq<Event>, l': Link)
    requires Enabled(Run(evs), KeepAliveReplies(Kept(call, false))) && Run(evs).worker.phase != Recovering
    ensures evs + [KeepAliveReplies(Kept(call, false))] <= evs' && l' == Run(evs') && l'.channel == []
    ensures l'.worker.phase == Registered && l'.worker.ticking
    ensures l'.worker.tasks == TasksKept(Run(evs).worker.tasks, inService) && l'.entry == Some(l'.worker.tasks)
  {
    var l := Run(evs);
    NobodyIsStranded(evs);
    RecoversIff(l, KeepAliveReplies(Kept(call, false)));
    var evs1, l1 := Do(evs, l, KeepAliveReplies(Kept(call, false)));
    NextTidy(l, KeepAliveReplies(Kept(call, false)));
    SettledOne(l.entry, l.channel, JoinCall(l.worker.nextCall));
    assert l1.channel[|l.channel|] == JoinCall(l.worker.nextCall);
    var evs2, l2 := ServesAll(evs1, l1, inService);
    evs', l' := Rejoins(evs2, l2, inService, dropped);
  }

  /**
   No worker is forgotten for good. Take any run in which the worker is registered and keeps itself alive. When the manager
   then drops its entry, one keep-alive call is enough for it to come back.
   */
  lemma ForgottenComesBack(evs: seq<Event>, inService: bool, dropped: seq<Task>) returns (evs': seq<Event>, l': Link)
    requires Run(evs).worker.phase == Registered && Run(evs).worker.ticking && Run(evs).channel == []
    ensures evs + [ManagerDrops, IntervalFires] <= evs' && l' == Run(evs') && l'.channel == []
    ensures l'.worker.phase == Registered && l'.worker.ticking
    ensures l'.worker.tasks == TasksKept(Run(evs).worker.tasks, inService) && l'.entry == Some(l'.worker.tasks)
  {
    var l := Run(evs);
    var call := l.worker.nextCall;
    var evs1, l1 := Do(evs, l, ManagerDrops);
    var evs2, l2 := Do(evs1, l1, IntervalFires);
    assert l2.channel == [KeepAliveCall(call)];
    var evs3, l3 := Do(evs2, l2, ManagerServes(inService));
    assert Kept(call, false) in l3.replies;
    evs', l' := UnknownComesBack(evs3, call, inService, dropped);
    assert evs2 == evs + [ManagerDrops, IntervalFires];
  }

  /** A keep-alive call is answered by whether the manager has an entry for the worker. */
  lemma KnownIff(l: Link, inService: bool)
    requires l.channel != [] && l.channel[0].KeepAliveCall?
    ensures var r := Next(l, ManagerServes(inService));
            r.replies == l.replies + {Kept(l.channel[0].call, l.entry.Some?)} && r.entry == l.entry && r.worker == l.worker
  {}

  /** A new worker joins by itself: its first join served and answered, it is registered without tasks at both ends. */
  lemma NewWorkerJoins(inService: bool, dropped: seq<Task>) returns (evs: seq<Event>, l: Link)
    ensures evs == [ManagerServes(inService), JoinReplies(Joined(0, inService), dropped)] && l == Run(evs)
    ensures l.worker.phase == Registered && l.worker.ticking && l.channel == []
    ensures l.worker.tasks == [] && l.entry == Some([])
  {
    evs, l := Do([], START, ManagerServes(inService));
    assert Joined(0, inService) in l.replies;
    evs, l := Do(evs, l, JoinReplies(Joined(0, inService), dropped));
  }
}
