/** What becomes of a call for a node: how its wait is decided, and that a ready node is answered and gets the task. */
module NodeAnswers {
  import opened Common
  import opened NodePool

  /** The node a call settles on: the one that has the room, or else the first idle one; `UNDEFINED` if there is none. */
  function NodeFor(spec: Spec, p: Pool, room: Room): int {
    if KnownNode(spec, p, room) != UNDEFINED then KnownNode(spec, p, room)
    else if p.idle != [] then p.idle[0]
    else UNDEFINED
  }

  /** What a look at the node's process says: a process that has failed to start decides nothing, however long it takes. */
  function Judged(p: Pool, id: int, expired: bool): Stage {
    if id !in p.processes then Rejected
    else
      match p.processes[id]
      case Some(true) => Resolved
      case Some(false) => Polling
      case None => if expired then Rejected else Polling
  }

  // How a wait is decided

  lemma {:induction false} LaunchManyRest(p: Pool, n: int)
    ensures var r := LaunchMany(p, n);
            && r.waits == p.waits && r.nextWait == p.nextWait
            && (forall id :: id in p.processes ==>
                  id in r.processes && (id < p.nodeIndex ==> r.processes[id] == p.processes[id]))
    decreases n
  {
    if n > 0 {
      LaunchManyRest(p, n - 1);
      LaunchManyIndex(p, n - 1);
    }
  }

  lemma {:induction false} LaunchManyIndex(p: Pool, n: int)
    ensures LaunchMany(p, n).nodeIndex >= p.nodeIndex
    decreases n
  {
    if n > 0 {
      LaunchManyIndex(p, n - 1);
    }
  }

  lemma {:induction false} DropEachRest(p: Pool, ids: seq<int>)
    ensures DropEach(p, ids).waits == p.waits && DropEach(p, ids).nextWait == p.nextWait
    decreases |ids|
  {
    if ids != [] {
      DropEachRest(p, ids[..|ids| - 1]);
    }
  }

  /** A call waits exactly if it settles on a node; the first look is taken at once. */
  lemma AskedWaitsIff(spec: Spec, p: Pool, room: Room, task: Task)
    ensures var r, id := Next(spec, p, NodeAsked(room, task)), NodeFor(spec, p, room);
            if id == UNDEFINED then r.waits == p.waits && r.nextWait == p.nextWait
            else
              && r.waits == p.waits[p.nextWait := Wait(id, room, task, Judged(p, id, false))]
              && r.nextWait == p.nextWait + 1
    ensures Next(spec, p, NodeAsked(room, task)).processes == p.processes
  {}

  /** The waits after an event that is no call. */
  function WaitsAfter(p: Pool, ev: Event): map<nat, Wait> {
    match ev
    case Polled(k, expired) =>
      if k in p.waits && p.waits[k].stage == Polling
      then p.waits[k := p.waits[k].(stage := Judged(p, p.waits[k].node, expired))] else p.waits
    case WaitEnds(k) => if k in p.waits && p.waits[k].stage != Polling then p.waits - {k} else p.waits
    case _ => p.waits
  }

  /** Waits are touched by their own polls and ends, and new ones come with calls. */
  lemma WaitsAre(spec: Spec, p: Pool, ev: Event)
    requires !ev.NodeAsked?
    ensures Next(spec, p, ev).nextWait == p.nextWait && Next(spec, p, ev).waits == WaitsAfter(p, ev)
  {
    match ev
    case FollowUpRuns => LaunchManyRest(p, NodesToStart(spec, p));
    case Closed(id) => ClosedWaits(spec, p, id);
    case RecoverCalled => LaunchManyRest(p.(spawnFailed := false), NodesToStart(spec, p.(spawnFailed := false)));
    case AllDropped(ids) => DropEachRest(p.(spawnFailed := true), ids);
    case Polled(k, expired) => if k in p.waits && p.waits[k].stage == Polling { PolledWaits(p, k, expired); }
    case WaitEnds(_) => EndedWaits(spec, p, ev);
    case Recycled(_, _, _) => OtherWaits(spec, p, ev);
    case Misbehaves(_) => OtherWaits(spec, p, ev);
    case Unresponsive(_) => OtherWaits(spec, p, ev);
    case _ =>
  }

  lemma ClosedWaits(spec: Spec, p: Pool, id: int)
    ensures Next(spec, p, Closed(id)).waits == p.waits && Next(spec, p, Closed(id)).nextWait == p.nextWait
  {
    LaunchManyRest(Drop(p, id), NodesToStart(spec, Drop(p, id)));
  }

  lemma EndedWaits(spec: Spec, p: Pool, ev: Event)
    requires ev.WaitEnds?
    ensures Next(spec, p, ev).nextWait == p.nextWait && Next(spec, p, ev).waits == WaitsAfter(p, ev)
  {}

  lemma OtherWaits(spec: Spec, p: Pool, ev: Event)
    requires ev.Recycled? || ev.Misbehaves? || ev.Unresponsive?
    ensures Next(spec, p, ev).nextWait == p.nextWait && Next(spec, p, ev).waits == p.waits
  {}

  lemma PolledWaits(p: Pool, k: nat, expired: bool)
    requires k in p.waits && p.waits[k].stage == Polling
    ensures var r := Poll(p, k, expired);
            r.nextWait == p.nextWait && r.waits == p.waits[k := p.waits[k].(stage := Judged(p, p.waits[k].node, expired))]
  {
    var w := p.waits[k];
    assert w.(stage := Polling) == w && p.waits[k := w] == p.waits;
  }

  /** The first look at the process of ticket `k` that decides, in a run; `Polling` while none has. */
  function Decided(spec: Spec, evs: seq<Event>, k: nat): Stage
    decreases |evs|
  {
    if evs == [] then Polling
    else
      var p, before := Run(spec, evs[..|evs| - 1]), Decided(spec, evs[..|evs| - 1], k);
      match evs[|evs| - 1]
      case NodeAsked(room, _) =>
        if k == p.nextWait && NodeFor(spec, p, room) != UNDEFINED then Judged(p, NodeFor(spec, p, room), false) else before
      case Polled(ticket, expired) =>
        if ticket == k && k in p.waits && before == Polling then Judged(p, p.waits[k].node, expired) else before
      case _ => before
  }

  /** Tickets are counted up. */
  lemma {:induction false} TicketsCount(spec: Spec, evs: seq<Event>)
    ensures forall k :: k in Run(spec, evs).waits ==> k < Run(spec, evs).nextWait
    decreases |evs|
  {
    if evs == [] {
      LaunchManyRest(EMPTY_POOL, NodesToStart(spec, EMPTY_POOL));
    } else {
      var p, ev := Run(spec, evs[..|evs| - 1]), evs[|evs| - 1];
      TicketsCount(spec, evs[..|evs| - 1]);
      if ev.NodeAsked? {
        AskedWaitsIff(spec, p, ev.room, ev.task);
      } else {
        WaitsAre(spec, p, ev);
      }
    }
  }

  /**
   In every run a waiting call is resolved if and only if the first look that decides finds its node ready: at the start,
   or at a poll before one that finds it gone or unready too long. Nothing else decides it, in either direction.
   */
  lemma {:induction false} WaitDecidedIff(spec: Spec, evs: seq<Event>, k: nat)
    requires k in Run(spec, evs).waits
    ensures Run(spec, evs).waits[k].stage == Decided(spec, evs, k)
    decreases |evs|
  {
    if evs == [] {
      LaunchManyRest(EMPTY_POOL, NodesToStart(spec, EMPTY_POOL));
    } else {
      var p, ev := Run(spec, evs[..|evs| - 1]), evs[|evs| - 1];
      TicketsCount(spec, evs[..|evs| - 1]);
      if ev.NodeAsked? {
        AskedWaitsIff(spec, p, ev.room, ev.task);
      } else {
        WaitsAre(spec, p, ev);
      }
      if k in p.waits {
        WaitDecidedIff(spec, evs[..|evs| - 1], k);
      }
    }
  }

  // A call is answered

  /** The tasks of a room on a node; none if the room is not there. */
  function TasksOf(tasks: Records, id: int, room: Room): seq<Task> {
    if On(tasks, id, room) then tasks[id][room] else []
  }

  lemma Do(spec: Spec, evs: seq<Event>, p: Pool, ev: Event) returns (evs': seq<Event>, p': Pool)
    requires p == Run(spec, evs)
    ensures evs' == evs + [ev] && p' == Next(spec, p, ev) && p' == Run(spec, evs')
  {
    evs', p' := evs + [ev], Next(spec, p, ev);
    assert evs'[..|evs|] == evs;
  }

  /** The records after the task was put at the end of its room's list on the node. */
  ghost predicate TaskAdded(before: Records, after: Records, id: int, room: Room, task: Task) {
    && On(after, id, room) && after[id][room] == TasksOf(before, id, room) + [task]
    && forall other, r :: other != id || r != room ==>
         (On(after, other, r) <==> On(before, other, r)) && TasksOf(after, other, r) == TasksOf(before, other, r)
  }

  /** After a call that settles on a node, the room is recorded there, with the tasks it had. */
  lemma AskedRecords(spec: Spec, p: Pool, room: Room, task: Task)
    requires NodeFor(spec, p, room) != UNDEFINED
    ensures var r, id := Next(spec, p, NodeAsked(room, task)).tasks, NodeFor(spec, p, room);
            && On(r, id, room)
            && forall other, x :: TasksOf(r, other, x) == TasksOf(p.tasks, other, x) &&
                                  (On(r, other, x) <==> On(p.tasks, other, x) || (other == id && x == room))
  {}

  /** A resolved call whose room is still there ends with its task at the end of the list. */
  lemma EndsWithTask(spec: Spec, p: Pool, k: nat)
    requires k in p.waits && p.waits[k].stage == Resolved && On(p.tasks, p.waits[k].node, p.waits[k].room)
    ensures var w, r := p.waits[k], Next(spec, p, WaitEnds(k));
            && TaskAdded(p.tasks, r.tasks, w.node, w.room, w.task) && k !in r.waits && r.processes == p.processes
  {}

  /**
   A ready node is answered. In any run, a call that settles on a node whose process is ready is resolved at once, and
   when it ends, the task is at the end of its room's list on that node and no other list has changed.
   */
  lemma ReadyIsAnswered(spec: Spec, evs: seq<Event>, room: Room, task: Task) returns (evs': seq<Event>, r: Pool)
    requires var p := Run(spec, evs); var id := NodeFor(spec, p, room);
             id != UNDEFINED && id in p.processes && p.processes[id] == Some(true)
    ensures var p := Run(spec, evs);
            && evs' == evs + [NodeAsked(room, task)] + [WaitEnds(p.nextWait)] && r == Run(spec, evs')
            && TaskAdded(p.tasks, r.tasks, NodeFor(spec, p, room), room, task)
            && p.nextWait !in r.waits && r.processes == p.processes
  {
    var p := Run(spec, evs);
    var evs1, p1 := Do(spec, evs, p, NodeAsked(room, task));
    AskedWaitsIff(spec, p, room, task);
    AskedRecords(spec, p, room, task);
    EndsWithTask(spec, p1, p.nextWait);
    evs', r := Do(spec, evs1, p1, WaitEnds(p.nextWait));
  }

  /** A node that is still starting is answered as well, by the first poll after it has become ready. */
  lemma StartingIsAnswered(spec: Spec, evs: seq<Event>, room: Room, task: Task, expired: bool)
    returns (evs': seq<Event>, r: Pool)
    requires var p := Run(spec, evs); var id := NodeFor(spec, p, room);
             id != UNDEFINED && id in p.processes && p.processes[id] != Some(true)
    ensures var p := Run(spec, evs); var id, k := NodeFor(spec, p, room), p.nextWait;
            && evs' == evs + [NodeAsked(room, task)] + [BecomesReady(id)] + [Polled(k, expired)] + [WaitEnds(k)]
            && r == Run(spec, evs') && TaskAdded(p.tasks, r.tasks, id, room, task)
            && k !in r.waits && r.processes == p.processes[id := Some(true)]
  {
    var p := Run(spec, evs);
    var id, k := NodeFor(spec, p, room), p.nextWait;
    var evs1, p1 := Do(spec, evs, p, NodeAsked(room, task));
    AskedWaitsIff(spec, p, room, task);
    AskedRecords(spec, p, room, task);
    var evs2, p2 := Do(spec, evs1, p1, BecomesReady(id));
    var evs3, p3 := Do(spec, evs2, p2, Polled(k, expired));
    EndsWithTask(spec, p3, k);
    evs', r := Do(spec, evs3, p3, WaitEnds(k));
  }

  // And undone

  /** The node stays, with lists and processes, as long as the recycle leaves something recorded on it. */
  lemma RecycleKeepsNode(p: Pool, id: int, room: Room, task: Task)
    requires On(p.tasks, id, room)
    requires Without(p.tasks[id][room], task) != [] || exists x :: x != room && On(p.tasks, id, x)
    ensures var r, left := Recycle(p, id, room, task), Without(p.tasks[id][room], task);
            r == p.(tasks := p.tasks[id := if left == [] then p.tasks[id] - {room} else p.tasks[id][room := left]])
  {
    if Without(p.tasks[id][room], task) == [] {
      var x :| x != room && On(p.tasks, id, x);
      assert x in p.tasks[id] - {room};
    }
  }

  /** A recycle takes one entry of the task off its room's list, and the room with the last; nothing else changes. */
  lemma RecycleRemoves(p: Pool, id: int, room: Room, task: Task)
    requires On(p.tasks, id, room)
    requires Without(p.tasks[id][room], task) != [] || exists x :: x != room && On(p.tasks, id, x)
    ensures var r := Recycle(p, id, room, task);
            && r.processes == p.processes && r.nodes == p.nodes && r.idle == p.idle
            && TasksOf(r.tasks, id, room) == Without(p.tasks[id][room], task)
            && (On(r.tasks, id, room) <==> Without(p.tasks[id][room], task) != [])
            && forall other, x :: other != id || x != room ==>
                 TasksOf(r.tasks, other, x) == TasksOf(p.tasks, other, x) &&
                 (On(r.tasks, other, x) <==> On(p.tasks, other, x))
  {
    RecycleKeepsNode(p, id, room, task);
  }

  /** What is put at the end of a list that does not have it, and taken off again, leaves the list as it was. */
  lemma WithoutLast(s: seq<Task>, x: Task)
    requires x !in s
    ensures Without(s + [x], x) == s
  {}

  /** Recycling the task of an answered call brings back the lists it found, as long as the room or another one remains. */
  lemma RecycleUndoes(before: Records, p: Pool, id: int, room: Room, task: Task)
    requires TaskAdded(before, p.tasks, id, room, task) && task !in TasksOf(before, id, room)
    requires TasksOf(before, id, room) != [] || exists x :: x != room && On(before, id, x)
    ensures var r := Recycle(p, id, room, task);
            && (forall other, x :: TasksOf(r.tasks, other, x) == TasksOf(before, other, x))
            && r.processes == p.processes && r.nodes == p.nodes && r.idle == p.idle
  {
    WithoutLast(TasksOf(before, id, room), task);
    RecycleRemoves(p, id, room, task);
    if TasksOf(before, id, room) == [] {
      var x :| x != room && On(before, id, x);
      assert On(p.tasks, id, x);
    }
  }

  // What becomes of the processes

  /** How many nodes an event starts. */
  function Started(spec: Spec, p: Pool, ev: Event): nat {
    var idle := if ev.Closed? && ev.node in p.processes then |Without(p.idle, ev.node)| else |p.idle|;
    var used := if ev.Closed? && ev.node in p.processes then |Without(p.nodes, ev.node)| else |p.nodes|;
    var wanted := spec.prerunNodeNum - idle;
    var room := if spec.maxNodeNum < 0 then wanted else spec.maxNodeNum - used - idle;
    var n := if wanted <= room then wanted else room;
    var fills := match ev
                 case FollowUpRuns => p.followUps > 0 && (spec.maxNodeNum < 0 || used + idle < spec.maxNodeNum)
                 case Closed(_) => !p.spawnFailed
                 case RecoverCalled => true
                 case _ => false;
    if fills && n > 0 then n else 0
  }

  /** The nodes an event takes down. */
  ghost predicate TakesDown(spec: Spec, p: Pool, ev: Event, id: int) {
    match ev
    case Closed(x) => x == id
    case Misbehaves(x) => x == id
    case Unresponsive(x) => x == id
    case AllDropped(ids) => id in ids
    case Polled(k, expired) =>
      k in p.waits && p.waits[k].stage == Polling && p.waits[k].node == id && id in p.processes &&
      p.processes[id] == None && expired
    case Recycled(x, room, task) =>
      x == id && On(p.tasks, id, room) && Without(p.tasks[id][room], task) == [] && p.tasks[id].Keys == {room}
    case _ => false
  }

  /** The processes of `r` are those of `p` that are kept, and new ones that have not reported yet. */
  ghost predicate Keeps(p: Pool, r: Pool, gone: set<int>) {
    && p.nodeIndex <= r.nodeIndex
    && (forall id :: id in r.processes <==> (id in p.processes && id !in gone) || p.nodeIndex <= id < r.nodeIndex)
    && (forall id :: id in r.processes ==> r.processes[id] == if p.nodeIndex <= id then None else p.processes[id])
  }

  ghost predicate Indexed(p: Pool) {
    forall id :: id in p.processes ==> id < p.nodeIndex
  }

  lemma {:induction false} LaunchManyProcesses(p: Pool, n: int)
    requires Indexed(p)
    ensures var r := LaunchMany(p, n);
            Keeps(p, r, {}) && r.nodeIndex == p.nodeIndex + (if n > 0 then n else 0) && r.spawnFailed == p.spawnFailed
    decreases n
  {
    if n > 0 {
      LaunchManyProcesses(p, n - 1);
    }
  }

  lemma DropProcess(p: Pool, id: int)
    ensures var r := Drop(p, id);
            r.processes == p.processes - {id} && r.nodeIndex == p.nodeIndex && r.spawnFailed == p.spawnFailed
  {}

  lemma {:induction false} DropEachProcesses(p: Pool, ids: seq<int>)
    ensures var r := DropEach(p, ids);
            && r.nodeIndex == p.nodeIndex && r.spawnFailed == p.spawnFailed
            && r.processes == p.processes - set id | id in ids
    decreases |ids|
  {
    if ids != [] {
      var before, last := ids[..|ids| - 1], ids[|ids| - 1];
      DropEachProcesses(p, before);
      DropProcess(DropEach(p, before), last);
      assert ids == before + [last];
      assert (set id | id in ids) == (set id | id in before) + {last};
    }
  }

  lemma FillProcesses(spec: Spec, p: Pool)
    requires Indexed(p)
    ensures var r, n := Fill(spec, p), NodesToStart(spec, p);
            Keeps(p, r, {}) && r.nodeIndex == p.nodeIndex + (if n > 0 then n else 0) && r.spawnFailed == p.spawnFailed
  {
    LaunchManyProcesses(p, NodesToStart(spec, p));
  }

  /** Nodes that take themselves down, or are taken down. */
  ghost function Gone(spec: Spec, p: Pool, ev: Event): set<int> {
    set id | id in p.processes && TakesDown(spec, p, ev, id)
  }

  ghost predicate Accounts(spec: Spec, p: Pool, ev: Event) {
    var r := Next(spec, p, ev);
    r.nodeIndex == p.nodeIndex + Started(spec, p, ev) && Keeps(p, r, Gone(spec, p, ev))
  }

  lemma FilledAccounts(spec: Spec, p: Pool, ev: Event)
    requires Indexed(p) && (ev.FollowUpRuns? || ev.RecoverCalled?)
    ensures Accounts(spec, p, ev)
  {
    var q := p.(spawnFailed := p.spawnFailed && !ev.RecoverCalled?);
    FillProcesses(spec, q);
    assert Gone(spec, p, ev) == {};
  }

  lemma ClosedAccounts(spec: Spec, p: Pool, id: int)
    requires Indexed(p)
    ensures Accounts(spec, p, Closed(id))
  {
    FillProcesses(spec, Drop(p, id));
  }

  lemma DroppedAccounts(spec: Spec, p: Pool, ids: seq<int>)
    requires Indexed(p)
    ensures Accounts(spec, p, AllDropped(ids))
  {
    DropEachProcesses(p.(spawnFailed := true), ids);
  }

  lemma RecycledAccounts(spec: Spec, p: Pool, id: int, room: Room, task: Task)
    requires Indexed(p)
    ensures Accounts(spec, p, Recycled(id, room, task))
  {
    if id in p.processes {
      RecycleDropsIff(p, id, room, task);
    }
    assert forall x :: x != id ==> x !in Gone(spec, p, Recycled(id, room, task));
  }

  lemma SettingAccounts(spec: Spec, p: Pool, ev: Event)
    requires Indexed(p) && (ev.NodeAsked? || ev.WaitEnds? || ev.SpawnAllowed?)
    ensures Accounts(spec, p, ev)
  {
    assert Next(spec, p, ev).processes == p.processes;
    assert Gone(spec, p, ev) == {};
  }

  lemma OneDropped(spec: Spec, p: Pool, ev: Event)
    requires Indexed(p) && (ev.Misbehaves? || ev.Unresponsive?)
    ensures Accounts(spec, p, ev)
  {
    assert Next(spec, p, ev) == Drop(p, ev.node);
  }

  lemma PolledAccounts(spec: Spec, p: Pool, k: nat, expired: bool)
    requires Indexed(p)
    ensures Accounts(spec, p, Polled(k, expired))
  {}

  /**
   Exactly which processes run after an event: those that ran, but for the ones the event takes down, and as many new
   ones as it starts. No event but a process's own messages changes what is known of its readiness.
   */
  lemma ProcessesAre(spec: Spec, p: Pool, ev: Event)
    requires Indexed(p) && !ev.BecomesReady? && !ev.LaunchFails?
    ensures var r := Next(spec, p, ev);
            r.nodeIndex == p.nodeIndex + Started(spec, p, ev) && Keeps(p, r, Gone(spec, p, ev))
  {
    assert Accounts(spec, p, ev) by {
      match ev
      case FollowUpRuns => FilledAccounts(spec, p, ev);
      case RecoverCalled => FilledAccounts(spec, p, ev);
      case Closed(id) => ClosedAccounts(spec, p, id);
      case AllDropped(ids) => DroppedAccounts(spec, p, ids);
      case Recycled(id, room, task) => RecycledAccounts(spec, p, id, room, task);
      case Polled(k, expired) => PolledAccounts(spec, p, k, expired);
      case NodeAsked(_, _) => SettingAccounts(spec, p, ev);
      case WaitEnds(_) => SettingAccounts(spec, p, ev);
      case SpawnAllowed => SettingAccounts(spec, p, ev);
      case Misbehaves(id) => OneDropped(spec, p, ev);
      case Unresponsive(id) => OneDropped(spec, p, ev);
    }
  }

  lemma ReadinessIs(spec: Spec, p: Pool, ev: Event)
    requires ev.BecomesReady? || ev.LaunchFails?
    ensures Next(spec, p, ev) ==
            p.(processes := if ev.node in p.processes then p.processes[ev.node := Some(ev.BecomesReady?)] else p.processes,
               spawnFailed := ev.LaunchFails?)
  {}

  /** Exits refill the pool only while no launch has failed since a node last became ready, or spawning was allowed again. */
  lemma SpawnFailedIs(spec: Spec, p: Pool, ev: Event)
    requires Indexed(p)
    ensures Next(spec, p, ev).spawnFailed ==
            match ev
            case LaunchFails(_) => true
            case AllDropped(_) => true
            case BecomesReady(_) => false
            case SpawnAllowed => false
            case RecoverCalled => false
            case _ => p.spawnFailed
  {
    match ev
    case FollowUpRuns => FillProcesses(spec, p);
    case Closed(id) => FillProcesses(spec, Drop(p, id));
    case RecoverCalled => FillProcesses(spec, p.(spawnFailed := false));
    case AllDropped(ids) => DropEachProcesses(p.(spawnFailed := true), ids);
    case _ =>
  }

  /** A pick moves the first idle node to the end of those in use, and schedules its follow-up. */
  lemma AskedTakesFirst(spec: Spec, p: Pool, room: Room, task: Task)
    ensures var r := Next(spec, p, NodeAsked(room, task));
            if KnownNode(spec, p, room) != UNDEFINED || p.idle == [] then
              r.nodes == p.nodes && r.idle == p.idle && r.followUps == p.followUps
            else r.nodes == p.nodes + [p.idle[0]] && [p.idle[0]] + r.idle == p.idle && r.followUps == p.followUps + 1
  {}

  /** At the cap the follow-up moves the node longest in use back to the end of the idle ones, if nodes are reused. */
  lemma FollowUpReturnsOldest(spec: Spec, p: Pool)
    requires p.followUps > 0 && spec.maxNodeNum >= 0 && Running(p) >= spec.maxNodeNum
    ensures var r := Next(spec, p, FollowUpRuns);
            if !spec.reuseNode then r.nodes == p.nodes && r.idle == p.idle
            else if p.nodes == [] then r.nodes == [] && r.idle == p.idle + [UNDEFINED]
            else [p.nodes[0]] + r.nodes == p.nodes && r.idle == p.idle + [p.nodes[0]]
  {}
}
