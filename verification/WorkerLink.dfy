/**
 A worker and the cluster manager, joined by a channel that keeps the order of requests: the worker's own
 task list against the one the manager keeps for it.
 */
module WorkerLink {
  import opened Common
  import opened WorkerTypes

  datatype Phase = Unregistered | Registered | Recovering

  /** What the worker sends to the manager. A call carries the number by which its reply is recognised. */
  datatype Request =
    | JoinCall(call: nat)
    | KeepAliveCall(call: nat)
    | PickUpCast(tasks: seq<Task>)
    | LayDownCast(task: Task)
    | UnscheduleCast(task: Task)
    | QuitCast

  /**
   The worker's variables. `joinCall` is the join that is waited for, `retry` the pending timer of the next one;
   `keepCalls` maps open keep-alive calls to the round of `keepAlive` they belong to, and `losses` counts the
   failures of each round.
   */
  datatype Side = Side(
    phase: Phase, tasks: seq<Task>, joinCall: Option<nat>, retry: bool,
    ticking: bool, round: nat, keepCalls: map<nat, nat>, losses: map<nat, nat>, nextCall: nat)

  /** The new variables, and the requests sent, in order. */
  datatype Act = Act(side: Side, sent: seq<Request>)

  function Still(s: Side): Act {
    Act(s, [])
  }

  // The worker

  function Join(s: Side): Act {
    Act(s.(joinCall := Some(s.nextCall), retry := false, nextCall := s.nextCall + 1), [JoinCall(s.nextCall)])
  }

  const NEW_SIDE := Side(Unregistered, [], None, false, false, 0, map[], map[], 0)

  /** The worker joins when it is created. */
  const CREATED := Join(NEW_SIDE)

  function AddTask(s: Side, t: Task): Act {
    if t in s.tasks then Still(s)
    else Act(s.(tasks := s.tasks + [t]), if s.phase == Registered then [PickUpCast([t])] else [])
  }

  function RemoveTask(s: Side, t: Task): Act {
    if t !in s.tasks then Still(s)
    else Act(s.(tasks := Without(s.tasks, t)), if s.phase == Registered then [LayDownCast(t)] else [])
  }

  function RejectTask(s: Side, t: Task): Act {
    Act(s, [UnscheduleCast(t)])
  }

  function Quit(s: Side): Act {
    match s.phase
    case Registered => Act(s.(ticking := false), [QuitCast])
    case Recovering => Still(s.(ticking := false))
    case Unregistered => Still(s)
  }

  function KeepAlive(s: Side): Side {
    s.(ticking := true, round := s.round + 1, losses := s.losses[s.round + 1 := 0])
  }

  /** The `onLoss` callback gives up the listed tasks, each by `removeTask`. */
  function GiveUp(s: Side, dropped: seq<Task>): Act
    decreases |dropped|
  {
    if dropped == [] then Still(s)
    else
      var a := GiveUp(s, dropped[..|dropped| - 1]);
      var b := RemoveTask(a.side, dropped[|dropped| - 1]);
      Act(b.side, a.sent + b.sent)
  }

  lemma GiveUpOneMore(s: Side, dropped: seq<Task>, i: nat)
    requires i < |dropped|
    ensures var a := GiveUp(s, dropped[..i]);
            var b := RemoveTask(a.side, dropped[i]);
            GiveUp(s, dropped[..i + 1]) == Act(b.side, a.sent + b.sent)
  {
    assert dropped[..i + 1][..i] == dropped[..i];
  }

  /** The reply of the manager's `join`: `inService`, or else still initializing. */
  function OnJoined(s: Side, inService: bool, dropped: seq<Task>): Act {
    var r := s.(phase := Registered, joinCall := None);
    if s.phase != Recovering then Still(KeepAlive(r))
    else if !inService then Act(KeepAlive(r), if |r.tasks| > 0 then [PickUpCast(r.tasks)] else [])
    else
      var a := GiveUp(r, dropped);
      Act(KeepAlive(a.side.(tasks := [])), a.sent)
  }

  /** A join that failed or timed out; `again` is false when the first join has no retry left. */
  function OnJoinFailed(s: Side, again: bool): Side {
    s.(joinCall := None, retry := again || s.phase == Recovering)
  }

  function TryRecovery(s: Side): Act {
    Join(s.(ticking := false, phase := Recovering))
  }

  function OnKept(s: Side, call: nat, known: bool): Act
    requires call in s.keepCalls
  {
    var r := s.(keepCalls := s.keepCalls - {call}, losses := s.losses[s.keepCalls[call] := 0]);
    if !known && s.phase != Recovering then TryRecovery(r) else Still(r)
  }

  function OnKeepFailed(s: Side, call: nat): Act
    requires call in s.keepCalls
  {
    var k := s.keepCalls[call];
    var n := (if k in s.losses then s.losses[k] else 0) + 1;
    var r := s.(keepCalls := s.keepCalls - {call}, losses := s.losses[k := n]);
    if n > 3 && s.phase != Recovering then TryRecovery(r) else Still(r)
  }

  function SendKeepAlive(s: Side): Act {
    Act(s.(keepCalls := s.keepCalls[s.nextCall := s.round], nextCall := s.nextCall + 1), [KeepAliveCall(s.nextCall)])
  }

  // The manager's entry for this worker

  /** The manager's task list for the worker after one request; `None` when the worker is not registered. */
  function Served(entry: Option<seq<Task>>, r: Request): Option<seq<Task>> {
    match r
    case JoinCall(_) => Some([])
    case PickUpCast(ts) => if entry.Some? then Some(AfterPickUp(entry.value, ts)) else None
    case LayDownCast(t) => if entry.Some? then Some(Without(entry.value, t)) else None
    case QuitCast => None
    case _ => entry
  }

  /** The entry once everything in flight has been served. */
  function Settled(entry: Option<seq<Task>>, channel: seq<Request>): Option<seq<Task>>
    decreases |channel|
  {
    if channel == [] then entry else Served(Settled(entry, channel[..|channel| - 1]), channel[|channel| - 1])
  }

  datatype Reply = Joined(call: nat, inService: bool) | Kept(call: nat, known: bool)

  datatype Link = Link(worker: Side, channel: seq<Request>, entry: Option<seq<Task>>, replies: set<Reply>)

  const START := Link(CREATED.side, CREATED.sent, None, {})

  datatype Event =
    | TaskAdded(task: Task)
    | TaskRemoved(task: Task)
    | TaskRejected(task: Task)
    | QuitCalled
    | JoinReplies(reply: Reply, dropped: seq<Task>)
    | JoinFails(again: bool)
    | RetryFires
    | IntervalFires
    | KeepAliveReplies(reply: Reply)
    | KeepAliveFails(call: nat)
    | ManagerServes(inService: bool)
    | ManagerDrops

  /** A reply to a call that timed out is ignored. */
  predicate Enabled(l: Link, ev: Event) {
    match ev
    case JoinReplies(r, _) => r in l.replies && r.Joined? && l.worker.joinCall == Some(r.call)
    case JoinFails(_) => l.worker.joinCall.Some?
    case RetryFires => l.worker.retry
    case IntervalFires => l.worker.ticking
    case KeepAliveReplies(r) => r in l.replies && r.Kept? && r.call in l.worker.keepCalls
    case KeepAliveFails(c) => c in l.worker.keepCalls
    case ManagerServes(_) => l.channel != []
    case _ => true
  }

  function OnWorker(s: Side, ev: Event): Act
    requires !ev.ManagerServes? && !ev.ManagerDrops?
    requires ev.JoinReplies? ==> ev.reply.Joined?
    requires ev.KeepAliveReplies? ==> ev.reply.Kept? && ev.reply.call in s.keepCalls
    requires ev.KeepAliveFails? ==> ev.call in s.keepCalls
  {
    match ev
    case TaskAdded(t) => AddTask(s, t)
    case TaskRemoved(t) => RemoveTask(s, t)
    case TaskRejected(t) => RejectTask(s, t)
    case QuitCalled => Quit(s)
    case JoinReplies(r, dropped) => OnJoined(s, r.inService, dropped)
    case JoinFails(again) => Still(OnJoinFailed(s, again))
    case RetryFires => Join(s)
    case IntervalFires => SendKeepAlive(s)
    case KeepAliveReplies(r) => OnKept(s, r.call, r.known)
    case KeepAliveFails(c) => OnKeepFailed(s, c)
  }

  function RepliesTo(entry: Option<seq<Task>>, r: Request, inService: bool): set<Reply> {
    match r
    case JoinCall(c) => {Joined(c, inService)}
    case KeepAliveCall(c) => {Kept(c, entry.Some?)}
    case _ => {}
  }

  /** The manager may drop the entry at any time; `inService` is its own state when it serves a join. */
  function Next(l: Link, ev: Event): Link {
    if !Enabled(l, ev) then l
    else
      match ev
      case ManagerServes(inService) =>
        var r := l.channel[0];
        l.(channel := l.channel[1..], entry := Served(l.entry, r), replies := l.replies + RepliesTo(l.entry, r, inService))
      case ManagerDrops => l.(entry := None)
      case _ =>
        var a := OnWorker(l.worker, ev);
        l.(worker := a.side, channel := l.channel + a.sent)
  }

  function Run(evs: seq<Event>): Link
    decreases |evs|
  {
    if evs == [] then START else Next(Run(evs[..|evs| - 1]), evs[|evs| - 1])
  }

  // Agreement

  /** While registered: nothing at the manager, or exactly the worker's own task list. */
  ghost predicate Agree(l: Link) {
    l.worker.phase == Registered ==>
      Settled(l.entry, l.channel) == None || Settled(l.entry, l.channel) == Some(l.worker.tasks)
  }

  /** The task list has no duplicates; a registered worker waits for no join; and one join is waited for at a time. */
  ghost predicate Tidy(s: Side) {
    && NoDup(s.tasks)
    && (s.joinCall.Some? || s.retry ==> s.phase != Registered)
    && !(s.joinCall.Some? && s.retry)
  }

  ghost predicate Inv(l: Link) {
    && Tidy(l.worker)
    && Agree(l)
    && (l.worker.phase != Registered ==> Settled(l.entry, l.channel) == None || Settled(l.entry, l.channel) == Some([]))
  }

  lemma {:induction false} SettledAppend(entry: Option<seq<Task>>, channel: seq<Request>, more: seq<Request>)
    ensures Settled(entry, channel + more) == Settled(Settled(entry, channel), more)
    decreases |more|
  {
    if more == [] {
      assert channel + more == channel;
    } else {
      var n := |more| - 1;
      assert (channel + more)[..|channel + more| - 1] == channel + more[..n];
      SettledAppend(entry, channel, more[..n]);
    }
  }

  lemma {:induction false} SettledHead(entry: Option<seq<Task>>, channel: seq<Request>)
    requires channel != []
    ensures Settled(entry, channel) == Settled(Served(entry, channel[0]), channel[1..])
    decreases |channel|
  {
    var n := |channel| - 1;
    if n > 0 {
      assert channel[1..][..n - 1] == channel[..n][1..];
      SettledHead(entry, channel[..n]);
    }
  }

  /** Forgetting the entry loses it for good, unless a join is still in flight. */
  lemma {:induction false} SettledDropped(entry: Option<seq<Task>>, channel: seq<Request>)
    ensures Settled(None, channel) == None || Settled(None, channel) == Settled(entry, channel)
    ensures Settled(None, channel) != None ==> exists r :: r in channel && r.JoinCall?
    decreases |channel|
  {
    if channel != [] {
      var last := channel[|channel| - 1];
      SettledDropped(entry, channel[..|channel| - 1]);
      if Settled(None, channel) != None && !last.JoinCall? {
        var r :| r in channel[..|channel| - 1] && r.JoinCall?;
        assert r in channel;
      } else {
        assert last in channel;
      }
    }
  }

  lemma {:induction false} PickUpAll(tasks: seq<Task>)
    requires NoDup(tasks)
    ensures AfterPickUp([], tasks) == tasks
    decreases |tasks|
  {
    if tasks != [] {
      var n := |tasks| - 1;
      PickUpAll(tasks[..n]);
      TakeStep(tasks, n);
      assert tasks[..n + 1] == tasks;
    }
  }

  /** One request appended. */
  lemma SettledOne(entry: Option<seq<Task>>, channel: seq<Request>, r: Request)
    ensures Settled(entry, channel + [r]) == Served(Settled(entry, channel), r)
    ensures channel + [] == channel
  {
    assert (channel + [r])[..|channel|] == channel;
  }

  lemma RemoveTaskShape(s: Side, t: Task)
    ensures var a := RemoveTask(s, t);
            a.side == s.(tasks := a.side.tasks) && (a.sent == [] || a.sent == [LayDownCast(t)])
  {}

  /** Laying tasks down leaves an empty list empty. */
  lemma {:induction false} GiveUpSettles(s: Side, dropped: seq<Task>, entry: Option<seq<Task>>)
    requires entry == None || entry == Some([])
    ensures Settled(entry, GiveUp(s, dropped).sent) == entry
    ensures GiveUp(s, dropped).side == s.(tasks := GiveUp(s, dropped).side.tasks)
    decreases |dropped|
  {
    if dropped != [] {
      var n := |dropped| - 1;
      var a := GiveUp(s, dropped[..n]);
      var b := RemoveTask(a.side, dropped[n]);
      GiveUpSettles(s, dropped[..n], entry);
      RemoveTaskShape(a.side, dropped[n]);
      SettledOne(entry, a.sent, LayDownCast(dropped[n]));
      assert GiveUp(s, dropped) == Act(b.side, a.sent + b.sent);
    }
  }

  /** A reply that registers the worker for the first time finds it without tasks, or its entry gone again. */
  ghost predicate JoinsSettled(l: Link, ev: Event) {
    Enabled(l, ev) && ev.JoinReplies? && l.worker.phase == Unregistered ==>
      l.worker.tasks == [] || Settled(l.entry, l.channel) == None
  }

  lemma JoinedKeeps(l: Link, ev: Event)
    requires Inv(l) && Enabled(l, ev) && ev.JoinReplies? && JoinsSettled(l, ev)
    ensures Inv(Next(l, ev))
  {
    var s := l.worker;
    if s.phase == Recovering && !ev.reply.inService {
      PickUpAll(s.tasks);
      SettledOne(l.entry, l.channel, PickUpCast(s.tasks));
    } else if s.phase == Recovering {
      var r := s.(phase := Registered, joinCall := None);
      GiveUpSettles(r, ev.dropped, Settled(l.entry, l.channel));
      SettledAppend(l.entry, l.channel, GiveUp(r, ev.dropped).sent);
    } else {
      SettledOne(l.entry, l.channel, QuitCast);
    }
  }

  /** Phase and tasks after an event other than a join reply, with the one request it may send. */
  ghost predicate Shape(s: Side, s': Side, sent: seq<Request>) {
    if sent == [] then s'.phase == s.phase && (s.phase == Registered ==> s'.tasks == s.tasks)
    else
      |sent| == 1 &&
      match sent[0]
      case JoinCall(_) => s'.phase != Registered && s'.tasks == s.tasks
      case PickUpCast(ts) => s.phase == s'.phase == Registered && |ts| == 1 && ts[0] !in s.tasks && s'.tasks == s.tasks + ts
      case LayDownCast(t) => s.phase == s'.phase == Registered && s'.tasks == Without(s.tasks, t)
      case _ => s'.phase == s.phase && s'.tasks == s.tasks
  }

  lemma EventShape(l: Link, ev: Event)
    requires Enabled(l, ev) && !ev.ManagerServes? && !ev.ManagerDrops? && !ev.JoinReplies?
    requires l.worker.retry ==> l.worker.phase != Registered
    ensures Shape(l.worker, OnWorker(l.worker, ev).side, OnWorker(l.worker, ev).sent)
    ensures NoDup(l.worker.tasks) ==> NoDup(OnWorker(l.worker, ev).side.tasks)
  {}

  lemma EventJoins(l: Link, ev: Event)
    requires Enabled(l, ev) && !ev.ManagerServes? && !ev.ManagerDrops? && !ev.JoinReplies?
    requires (l.worker.joinCall.Some? || l.worker.retry) ==> l.worker.phase != Registered
    requires !(l.worker.joinCall.Some? && l.worker.retry)
    ensures var s := OnWorker(l.worker, ev).side;
            ((s.joinCall.Some? || s.retry) ==> s.phase != Registered) && !(s.joinCall.Some? && s.retry)
  {}

  lemma ShapeSettles(s: Side, s': Side, sent: seq<Request>, entry: Option<seq<Task>>, channel: seq<Request>)
    requires Shape(s, s', sent)
    requires Settled(entry, channel) == None ||
             Settled(entry, channel) == Some(if s.phase == Registered then s.tasks else [])
    ensures Settled(entry, channel + sent) == None ||
            Settled(entry, channel + sent) == Some(if s'.phase == Registered then s'.tasks else [])
  {
    if sent == [] {
      assert channel + sent == channel;
    } else {
      assert sent == [sent[0]];
      SettledOne(entry, channel, sent[0]);
      if sent[0].PickUpCast? {
        assert sent[0].tasks == [sent[0].tasks[0]];
        PickUpOne(s.tasks, sent[0].tasks[0]);
      }
    }
  }

  lemma WorkerKeeps(l: Link, ev: Event)
    requires Inv(l) && Enabled(l, ev) && !ev.ManagerServes? && !ev.ManagerDrops? && !ev.JoinReplies?
    ensures Inv(Next(l, ev))
  {
    var a := OnWorker(l.worker, ev);
    EventShape(l, ev);
    EventJoins(l, ev);
    ShapeSettles(l.worker, a.side, a.sent, l.entry, l.channel);
  }

  lemma PickUpOne(tasks: seq<Task>, t: Task)
    ensures AfterPickUp(tasks, [t]) == Pushed(tasks, t)
  {
    assert [t][..0] == [];
    assert AfterPickUp(tasks, []) == tasks;
  }

  lemma NextKeeps(l: Link, ev: Event)
    requires Inv(l) && JoinsSettled(l, ev)
    ensures Inv(Next(l, ev))
  {
    if Enabled(l, ev) {
      match ev
      case ManagerServes(_) => SettledHead(l.entry, l.channel);
      case ManagerDrops => SettledDropped(l.entry, l.channel);
      case JoinReplies(_, _) => JoinedKeeps(l, ev);
      case _ => WorkerKeeps(l, ev);
    }
  }

  lemma StartInv()
    ensures Inv(START)
  {
    assert Settled(None, START.channel[..0]) == None;
  }

  // Whole runs

  ghost predicate AgreesThroughout(evs: seq<Event>)
    decreases |evs|
  {
    Agree(Run(evs)) && (evs != [] ==> AgreesThroughout(evs[..|evs| - 1]))
  }

  ghost predicate FirstJoinSettled(evs: seq<Event>)
    decreases |evs|
  {
    evs != [] ==> FirstJoinSettled(evs[..|evs| - 1]) && JoinsSettled(Run(evs[..|evs| - 1]), evs[|evs| - 1])
  }

  lemma {:induction false} RunInv(evs: seq<Event>)
    requires FirstJoinSettled(evs)
    ensures Inv(Run(evs))
    decreases |evs|
  {
    if evs == [] {
      StartInv();
    } else {
      RunInv(evs[..|evs| - 1]);
      NextKeeps(Run(evs[..|evs| - 1]), evs[|evs| - 1]);
    }
  }

  /** For the one step: the first join leaves both ends agreeing exactly if it finds no tasks or no entry. */
  lemma FirstJoinAgreesIff(l: Link, ev: Event)
    requires Inv(l) && Enabled(l, ev) && ev.JoinReplies? && l.worker.phase == Unregistered
    ensures Agree(Next(l, ev)) <==> Settled(l.entry, l.channel) == None || l.worker.tasks == []
  {
    assert l.channel + [] == l.channel;
  }

  /**
   Both ends agree at every moment of a run if and only if the reply that first registers the worker finds it without
   tasks or its entry gone again: whenever the worker is registered, serving everything in flight leaves the manager
   with no entry or with exactly the worker's own task list, in the same order; across lost and late replies, dropped
   entries, rejoins and both answers to a join.
   */
  lemma {:induction false} BothEndsAgreeIff(evs: seq<Event>)
    ensures AgreesThroughout(evs) <==> FirstJoinSettled(evs)
    decreases |evs|
  {
    if evs == [] {
      StartInv();
    } else {
      var l, ev := Run(evs[..|evs| - 1]), evs[|evs| - 1];
      BothEndsAgreeIff(evs[..|evs| - 1]);
      if FirstJoinSettled(evs[..|evs| - 1]) {
        RunInv(evs[..|evs| - 1]);
        if JoinsSettled(l, ev) {
          NextKeeps(l, ev);
        } else {
          FirstJoinAgreesIff(l, ev);
        }
      }
    }
  }

  /** Whatever is added has been removed again when the worker is registered for the first time. */
  ghost predicate IdleAtFirstJoin(evs: seq<Event>)
    decreases |evs|
  {
    evs != [] ==>
      var l := Run(evs[..|evs| - 1]);
      && IdleAtFirstJoin(evs[..|evs| - 1])
      && (Enabled(l, evs[|evs| - 1]) && evs[|evs| - 1].JoinReplies? && l.worker.phase == Unregistered ==>
            l.worker.tasks == [])
  }

  lemma {:induction false} IdleSettles(evs: seq<Event>)
    requires IdleAtFirstJoin(evs)
    ensures FirstJoinSettled(evs)
    decreases |evs|
  {
    if evs != [] {
      IdleSettles(evs[..|evs| - 1]);
    }
  }

  /** A worker that has no tasks when it is first registered agrees with the manager whenever it is registered. */
  lemma BothEndsAgree(evs: seq<Event>)
    requires IdleAtFirstJoin(evs) && Run(evs).worker.phase == Registered
    ensures var l := Run(evs);
            Settled(l.entry, l.channel) == None || Settled(l.entry, l.channel) == Some(l.worker.tasks)
  {
    IdleSettles(evs);
    BothEndsAgreeIff(evs);
  }

  /** A task added before the first join is answered is never announced: the manager's list is empty, the worker's not. */
  lemma EarlyTaskIsLost() returns (evs: seq<Event>)
    ensures evs == [TaskAdded(1), ManagerServes(true), JoinReplies(Joined(0, true), [])]
    ensures var l := Run(evs);
            && l.worker.phase == Registered && l.worker.tasks == [1]
            && Settled(l.entry, l.channel) == Some([]) && !Agree(l)
  {
    evs := [TaskAdded(1), ManagerServes(true), JoinReplies(Joined(0, true), [])];
    var added := Next(START, TaskAdded(1));
    var served := Next(added, ManagerServes(true));
    var joined := Next(served, JoinReplies(Joined(0, true), []));
    assert evs[..2][..1][..0] == [] && evs[..2][..1] == evs[..1] && evs[..3] == evs;
    assert Run(evs[..1]) == added && Run(evs[..2]) == served;
    assert joined.channel == [];
  }
}
