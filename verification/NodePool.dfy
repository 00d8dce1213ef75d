/** The pool of worker processes of one agent, as a value with one function for each thing that can happen to it. */
module NodePool {
  import opened Common

  type Room = int
  type Task = int

  /** What JavaScript's `undefined` looks like where a node id is expected; launched ids count from 0. */
  const UNDEFINED := -1

  /** `maxNodeNum` below 0 means no limit. */
  datatype Spec = Spec(prerunNodeNum: int, maxNodeNum: int, reuseNode: bool, consumeNodeByRoom: bool)

  datatype Stage = Polling | Resolved | Rejected

  /** A `getNode` call that has its node and waits for it to be ready. */
  datatype Wait = Wait(node: int, room: Room, task: Task, stage: Stage)

  /**
   `processes` maps each process to its `READY` field; `tasks` maps a node to its rooms and their task lists;
   `followUps` counts the zero-delay callbacks of picks that have not run yet.
   */
  datatype Pool = Pool(
    nodeIndex: nat, idle: seq<int>, nodes: seq<int>, processes: map<int, Option<bool>>,
    tasks: Records, spawnFailed: bool,
    followUps: nat, waits: map<nat, Wait>, nextWait: nat)

  const NO_ROOMS: map<Room, seq<Task>> := map[]

  const EMPTY_POOL := Pool(0, [], [], map[], map[], false, 0, map[], 0)

  function Launch(p: Pool): Pool {
    p.(nodeIndex := p.nodeIndex + 1, processes := p.processes[p.nodeIndex := None],
       tasks := p.tasks[p.nodeIndex := NO_ROOMS], idle := p.idle + [p.nodeIndex])
  }

  function LaunchMany(p: Pool, n: int): Pool
    decreases n
  {
    if n <= 0 then p else Launch(LaunchMany(p, n - 1))
  }

  function Running(p: Pool): nat {
    |p.nodes| + |p.idle|
  }

  function NodesToStart(spec: Spec, p: Pool): int {
    var space := spec.prerunNodeNum - |p.idle|;
    if spec.maxNodeNum < 0 || space <= spec.maxNodeNum - Running(p) then space else spec.maxNodeNum - Running(p)
  }

  function Fill(spec: Spec, p: Pool): Pool {
    LaunchMany(p, NodesToStart(spec, p))
  }

  function Cleanup(p: Pool, id: int): Pool {
    p.(processes := p.processes - {id}, tasks := p.tasks - {id},
       nodes := Without(p.nodes, id), idle := Without(p.idle, id))
  }

  function Drop(p: Pool, id: int): Pool {
    if id in p.processes then Cleanup(p, id) else p
  }

  type Records = map<int, map<Room, seq<Task>>>

  /** The room is recorded on the node. */
  predicate On(tasks: Records, id: int, room: Room) {
    id in tasks && room in tasks[id]
  }

  /** The first node of the list on which the room is recorded. */
  function FindUsed(p: Pool, list: seq<int>, room: Room): (r: int)
    ensures r == UNDEFINED || (r in list && On(p.tasks, r, room))
    ensures r == UNDEFINED && UNDEFINED !in list ==> forall id :: id in list ==> !On(p.tasks, id, room)
  {
    if list == [] then UNDEFINED
    else if On(p.tasks, list[0], room) then list[0]
    else FindUsed(p, list[1..], room)
  }

  function Record(tasks: Records, id: int, room: Room): Records {
    var rooms: map<Room, seq<Task>> := if id in tasks then tasks[id] else map[];
    tasks[id := rooms[room := if room in rooms then rooms[room] else []]]
  }

  /** Takes the first idle node for the room; there must be one. */
  function Pick(p: Pool, room: Room): Pool
    requires p.idle != []
  {
    p.(idle := p.idle[1..], nodes := p.nodes + [p.idle[0]],
       tasks := Record(p.tasks, p.idle[0], room), followUps := p.followUps + 1)
  }

  /** The cap is reached, nodes are reused, and there is no node in use to recycle: `undefined` is pushed. */
  predicate PushesHole(spec: Spec, p: Pool) {
    spec.maxNodeNum >= 0 && Running(p) >= spec.maxNodeNum && spec.reuseNode && p.nodes == []
  }

  function FollowUp(spec: Spec, p: Pool): Pool {
    if spec.maxNodeNum < 0 || Running(p) < spec.maxNodeNum then Fill(spec, p)
    else if spec.reuseNode then
      if p.nodes == [] then p.(idle := p.idle + [UNDEFINED])
      else p.(idle := p.idle + [p.nodes[0]], nodes := p.nodes[1..])
    else p
  }

  /** The node `getNode` settles on, or `UNDEFINED` if it has to pick one. */
  function KnownNode(spec: Spec, p: Pool, room: Room): int {
    if !spec.consumeNodeByRoom then UNDEFINED
    else if FindUsed(p, p.nodes, room) != UNDEFINED then FindUsed(p, p.nodes, room)
    else FindUsed(p, p.idle, room)
  }

  /** `waitTillNodeReady`, up to its first look at the process. */
  function StartWait(p: Pool, id: int, room: Room, task: Task): Pool {
    var stage := if id !in p.processes then Rejected else if p.processes[id] == Some(true) then Resolved else Polling;
    p.(waits := p.waits[p.nextWait := Wait(id, room, task, stage)], nextWait := p.nextWait + 1)
  }

  function GetNode(spec: Spec, p: Pool, room: Room, task: Task): Pool {
    var known := KnownNode(spec, p, room);
    if known != UNDEFINED then StartWait(p, known, room, task)
    else if p.idle == [] then p
    else
      var q := Pick(p, room);
      if p.idle[0] == UNDEFINED then q else StartWait(q, p.idle[0], room, task)
  }

  /** One 100 ms poll; `expired` when the wait has been going on for too long. */
  function Poll(p: Pool, ticket: nat, expired: bool): Pool
    requires ticket in p.waits
  {
    var w := p.waits[ticket];
    if w.stage != Polling then p
    else if w.node !in p.processes then p.(waits := p.waits[ticket := w.(stage := Rejected)])
    else if p.processes[w.node] == Some(true) then p.(waits := p.waits[ticket := w.(stage := Resolved)])
    else if p.processes[w.node] == None && expired then Drop(p, w.node).(waits := p.waits[ticket := w.(stage := Rejected)])
    else p
  }

  function WithTask(rooms: map<Room, seq<Task>>, room: Room, task: Task): (r: map<Room, seq<Task>>)
    requires room in rooms
    ensures r.Keys == rooms.Keys
  {
    rooms[room := rooms[room] + [task]]
  }

  /**
   The continuation of `getNode`. A task is added to its room's list; if the room is not recorded on the node
   any longer the addition throws, and like a rejected wait that wipes everything recorded on the node.
   */
  function Finish(p: Pool, ticket: nat): Pool
    requires ticket in p.waits
  {
    var w := p.waits[ticket];
    var q := p.(waits := p.waits - {ticket});
    if w.stage == Polling then p
    else if w.stage == Resolved && On(p.tasks, w.node, w.room)
    then q.(tasks := p.tasks[w.node := WithTask(p.tasks[w.node], w.room, w.task)])
    else q.(tasks := p.tasks - {w.node})
  }

  /** `recycleNode`: the node goes down with its last room. */
  function Recycle(p: Pool, id: int, room: Room, task: Task): Pool {
    if !On(p.tasks, id, room) then p
    else
      var left := Without(p.tasks[id][room], task);
      var rooms: map<Room, seq<Task>> := if left == [] then p.tasks[id] - {room} else p.tasks[id][room := left];
      var q := p.(tasks := p.tasks[id := rooms]);
      if left == [] && rooms == map[] then Drop(q, id) else q
  }

  datatype Event =
    | NodeAsked(room: Room, task: Task)
    | FollowUpRuns
    | Polled(ticket: nat, expired: bool)
    | WaitEnds(ticket: nat)
    | Recycled(node: int, room: Room, task: Task)
    | BecomesReady(node: int)
    | LaunchFails(node: int)
    | SpawnAllowed
    | Closed(node: int)
    | Misbehaves(node: int)
    | Unresponsive(node: int)
    | RecoverCalled
    | AllDropped(ids: seq<int>)

  /** The ids are dropped one after the other. */
  function DropEach(p: Pool, ids: seq<int>): Pool
    decreases |ids|
  {
    if ids == [] then p else Drop(DropEach(p, ids[..|ids| - 1]), ids[|ids| - 1])
  }

  function Next(spec: Spec, p: Pool, ev: Event): Pool {
    match ev
    case NodeAsked(r, t) => GetNode(spec, p, r, t)
    case FollowUpRuns => if p.followUps > 0 then FollowUp(spec, p).(followUps := p.followUps - 1) else p
    case Polled(k, expired) => if k in p.waits then Poll(p, k, expired) else p
    case WaitEnds(k) => if k in p.waits then Finish(p, k) else p
    case Recycled(id, r, t) => Recycle(p, id, r, t)
    case BecomesReady(id) =>
      p.(processes := if id in p.processes then p.processes[id := Some(true)] else p.processes, spawnFailed := false)
    case LaunchFails(id) =>
      p.(processes := if id in p.processes then p.processes[id := Some(false)] else p.processes, spawnFailed := true)
    case SpawnAllowed => p.(spawnFailed := false)
    case Closed(id) => if p.spawnFailed then Drop(p, id) else Fill(spec, Drop(p, id))
    case Misbehaves(id) => Drop(p, id)
    case Unresponsive(id) => Drop(p, id)
    case RecoverCalled => Fill(spec, p.(spawnFailed := false))
    case AllDropped(ids) => DropEach(p.(spawnFailed := true), ids)
  }

  function Run(spec: Spec, evs: seq<Event>): Pool
    decreases |evs|
  {
    if evs == [] then Fill(spec, EMPTY_POOL) else Next(spec, Run(spec, evs[..|evs| - 1]), evs[|evs| - 1])
  }

  // Partition and cap

  /** Nodes in use and idle nodes are distinct, and together they are the running processes. */
  ghost predicate Partitioned(p: Pool) {
    && NoDup(p.nodes) && NoDup(p.idle)
    && (forall id :: id in p.nodes ==> id !in p.idle)
    && (forall id :: id in p.processes <==> id in p.nodes || id in p.idle)
    && (forall id :: id in p.processes ==> 0 <= id < p.nodeIndex)
    && (forall id :: id in p.tasks ==> id in p.processes)
  }

  ghost predicate Capped(spec: Spec, p: Pool) {
    spec.maxNodeNum >= 0 ==> Running(p) <= spec.maxNodeNum
  }

  /** No room is recorded on two nodes; what is recorded under `undefined` is on no node. */
  ghost predicate Affine(tasks: Records) {
    forall a, b, room :: a != UNDEFINED && b != UNDEFINED && On(tasks, a, room) && On(tasks, b, room) ==> a == b
  }

  lemma FewerRecords(t: Records, u: Records)
    requires Affine(t) && forall id, room :: On(u, id, room) ==> On(t, id, room)
    ensures Affine(u)
  {}

  lemma LaunchKeeps(p: Pool)
    requires Partitioned(p)
    ensures Partitioned(Launch(p)) && Running(Launch(p)) == Running(p) + 1
    ensures Affine(p.tasks) ==> Affine(Launch(p).tasks)
  {
    var r := Launch(p);
    assert p.nodeIndex !in p.idle;
    assert NoDup(r.idle);
    if Affine(p.tasks) {
      FewerRecords(p.tasks, r.tasks);
    }
  }

  lemma {:induction false} LaunchManyKeeps(p: Pool, n: int)
    requires Partitioned(p)
    ensures var r := LaunchMany(p, n);
            && Partitioned(r) && (Affine(p.tasks) ==> Affine(r.tasks))
            && Running(r) == Running(p) + (if n > 0 then n else 0)
            && |r.idle| == |p.idle| + (if n > 0 then n else 0)
    decreases n
  {
    if n > 0 {
      var q := LaunchMany(p, n - 1);
      LaunchManyKeeps(p, n - 1);
      LaunchKeeps(q);
      assert LaunchMany(p, n) == Launch(q);
    }
  }

  /** Filling keeps the pool in order and ends with enough idle nodes or at the cap, never above it. */
  lemma FillKeeps(spec: Spec, p: Pool)
    requires Partitioned(p)
    ensures var r := Fill(spec, p);
            && (Orderly(spec, p) ==> Orderly(spec, r))
            && (|r.idle| >= spec.prerunNodeNum || (spec.maxNodeNum >= 0 && Running(r) >= spec.maxNodeNum))
            && (|r.idle| > |p.idle| ==> |r.idle| <= spec.prerunNodeNum)
  {
    LaunchManyKeeps(p, NodesToStart(spec, p));
  }

  lemma WithoutLength(s: seq<int>, x: int)
    ensures |Without(s, x)| <= |s|
  {}

  lemma DropKeeps(spec: Spec, p: Pool, id: int)
    requires Orderly(spec, p)
    ensures Orderly(spec, Drop(p, id))
  {
    WithoutLength(p.nodes, id);
    WithoutLength(p.idle, id);
    if spec.consumeNodeByRoom {
      FewerRecords(p.tasks, Drop(p, id).tasks);
    }
  }

  ghost predicate Orderly(spec: Spec, p: Pool) {
    Partitioned(p) && Capped(spec, p) && (spec.consumeNodeByRoom ==> Affine(p.tasks))
  }

  /** Two pools with the same lists, processes and launches differ in their records only. */
  lemma SameLists(spec: Spec, p: Pool, q: Pool)
    requires Orderly(spec, p)
    requires q.nodes == p.nodes && q.idle == p.idle && q.processes.Keys == p.processes.Keys && q.nodeIndex == p.nodeIndex
    requires q.tasks.Keys <= p.tasks.Keys && forall id, room :: On(q.tasks, id, room) ==> On(p.tasks, id, room)
    ensures Orderly(spec, q)
  {
    assert forall id :: id in q.processes <==> id in q.processes.Keys;
    assert forall id :: id in p.processes <==> id in p.processes.Keys;
    assert forall id :: id in q.tasks <==> id in q.tasks.Keys;
    if spec.consumeNodeByRoom {
      FewerRecords(p.tasks, q.tasks);
    }
  }

  /** The room is recorded on some node other than `id`. */
  ghost predicate Elsewhere(tasks: Records, id: int, room: Room) {
    exists other :: other != UNDEFINED && other != id && On(tasks, other, room)
  }

  lemma RecordOn(tasks: Records, id: int, room: Room)
    ensures forall a, x :: On(Record(tasks, id, room), a, x) <==> On(tasks, a, x) || (a == id && x == room)
  {}

  /** Recording a room keeps rooms apart if and only if it is not recorded on another node, or goes under `undefined`. */
  lemma RecordAffineIff(tasks: Records, id: int, room: Room)
    requires Affine(tasks)
    ensures Affine(Record(tasks, id, room)) <==> id == UNDEFINED || !Elsewhere(tasks, id, room)
  {
    var r := Record(tasks, id, room);
    assert On(r, id, room);
    RecordOn(tasks, id, room);
    if id != UNDEFINED && Elsewhere(tasks, id, room) {
      var other :| other != UNDEFINED && other != id && On(tasks, other, room);
      assert On(r, other, room);
    }
  }

  lemma PickKeeps(spec: Spec, p: Pool, room: Room)
    requires Orderly(spec, p) && p.idle != []
    requires spec.consumeNodeByRoom ==> forall id :: !On(p.tasks, id, room)
    ensures Orderly(spec, Pick(p, room))
  {
    assert p.idle[0] in p.idle;
    assert p.idle == [p.idle[0]] + p.idle[1..];
    if spec.consumeNodeByRoom {
      RecordAffineIff(p.tasks, p.idle[0], room);
    }
  }

  /** A room that `getNode` does not find on a listed node is recorded nowhere. */
  lemma UnknownRoom(spec: Spec, p: Pool, room: Room)
    requires Partitioned(p) && spec.consumeNodeByRoom && KnownNode(spec, p, room) == UNDEFINED
    ensures forall id :: !On(p.tasks, id, room)
  {}

  lemma GetNodeKeeps(spec: Spec, p: Pool, room: Room, task: Task)
    requires Orderly(spec, p)
    ensures Orderly(spec, GetNode(spec, p, room, task))
  {
    if KnownNode(spec, p, room) == UNDEFINED && p.idle != [] {
      if spec.consumeNodeByRoom {
        UnknownRoom(spec, p, room);
      }
      PickKeeps(spec, p, room);
      SameLists(spec, Pick(p, room), GetNode(spec, p, room, task));
    } else {
      SameLists(spec, p, GetNode(spec, p, room, task));
    }
  }

  lemma ReuseKeeps(spec: Spec, p: Pool)
    requires Orderly(spec, p) && p.nodes != []
    ensures Orderly(spec, p.(idle := p.idle + [p.nodes[0]], nodes := p.nodes[1..]))
  {
    var q := p.(idle := p.idle + [p.nodes[0]], nodes := p.nodes[1..]);
    assert p.nodes[0] in p.nodes;
    assert p.nodes == [p.nodes[0]] + q.nodes;
    assert NoDup(q.nodes);
    assert NoDup(q.idle);
    assert forall id :: id in q.nodes || id in q.idle <==> id in p.nodes || id in p.idle;
    assert p.nodes[0] !in q.nodes;
  }

  /** A follow-up keeps the pool in order exactly when it does not push `undefined`. */
  lemma FollowUpKeepsIff(spec: Spec, p: Pool)
    requires Orderly(spec, p)
    ensures Orderly(spec, FollowUp(spec, p)) <==> !PushesHole(spec, p)
    ensures Partitioned(FollowUp(spec, p)) <==> !PushesHole(spec, p)
  {
    if PushesHole(spec, p) {
      assert UNDEFINED in FollowUp(spec, p).idle;
    } else if spec.maxNodeNum < 0 || Running(p) < spec.maxNodeNum {
      FillKeeps(spec, p);
    } else if spec.reuseNode {
      ReuseKeeps(spec, p);
    }
  }

  lemma PollKeeps(spec: Spec, p: Pool, ticket: nat, expired: bool)
    requires Orderly(spec, p) && ticket in p.waits
    ensures Orderly(spec, Poll(p, ticket, expired))
  {
    var w := p.waits[ticket];
    DropKeeps(spec, p, w.node);
    var q := Poll(p, ticket, expired);
    SameLists(spec, if w.stage == Polling && w.node in p.processes && p.processes[w.node] == None && expired
                    then Drop(p, w.node) else p, q);
  }

  lemma RecycleKeeps(spec: Spec, p: Pool, id: int, room: Room, task: Task)
    requires Orderly(spec, p)
    ensures Orderly(spec, Recycle(p, id, room, task))
  {
    if On(p.tasks, id, room) {
      var left := Without(p.tasks[id][room], task);
      var rooms: map<Room, seq<Task>> := if left == [] then p.tasks[id] - {room} else p.tasks[id][room := left];
      var q := p.(tasks := p.tasks[id := rooms]);
      SameLists(spec, p, q);
      DropKeeps(spec, q, id);
    }
  }

  /** A recycle takes a running node down exactly when the last task of its only room leaves. */
  lemma RecycleDropsIff(p: Pool, id: int, room: Room, task: Task)
    requires id in p.processes
    ensures id !in Recycle(p, id, room, task).processes <==>
            On(p.tasks, id, room) && Without(p.tasks[id][room], task) == [] && p.tasks[id].Keys == {room}
  {
    if On(p.tasks, id, room) && Without(p.tasks[id][room], task) == [] {
      var rooms: map<Room, seq<Task>> := p.tasks[id] - {room};
      assert p.tasks[id].Keys == rooms.Keys + {room};
      assert rooms == map[] <==> rooms.Keys == {};
    }
  }

  /**
   A settled `getNode` has its task at the end of its room's list if and only if its node was ready and still had the
   room; otherwise the node keeps no record of any room, not even of other rooms.
   */
  lemma SettledIff(p: Pool, ticket: nat)
    requires ticket in p.waits && p.waits[ticket].stage != Polling
    ensures var w := p.waits[ticket];
            var tasks := Finish(p, ticket).tasks;
            && (On(tasks, w.node, w.room) <==> w.stage == Resolved && On(p.tasks, w.node, w.room))
            && (On(tasks, w.node, w.room) ==> tasks[w.node][w.room] == p.tasks[w.node][w.room] + [w.task])
            && (!On(tasks, w.node, w.room) ==> forall room :: !On(tasks, w.node, room))
            && forall id :: id != w.node ==> (id in tasks <==> id in p.tasks) && (id in tasks ==> tasks[id] == p.tasks[id])
  {}

  lemma FinishKeeps(spec: Spec, p: Pool, ticket: nat)
    requires Orderly(spec, p) && ticket in p.waits
    ensures Orderly(spec, Finish(p, ticket))
  {
    SameLists(spec, p, Finish(p, ticket));
  }

  lemma {:induction false} DropEachKeeps(spec: Spec, p: Pool, ids: seq<int>)
    requires Orderly(spec, p)
    ensures Orderly(spec, DropEach(p, ids))
    decreases |ids|
  {
    if ids != [] {
      DropEachKeeps(spec, p, ids[..|ids| - 1]);
      DropKeeps(spec, DropEach(p, ids[..|ids| - 1]), ids[|ids| - 1]);
    }
  }

  lemma FollowUpRunsKeeps(spec: Spec, p: Pool)
    requires Orderly(spec, p) && (p.followUps > 0 ==> !PushesHole(spec, p))
    ensures Orderly(spec, Next(spec, p, FollowUpRuns))
  {
    if p.followUps > 0 {
      FollowUpKeepsIff(spec, p);
      SameLists(spec, FollowUp(spec, p), Next(spec, p, FollowUpRuns));
    }
  }

  lemma NextKeeps(spec: Spec, p: Pool, ev: Event)
    requires Orderly(spec, p)
    requires ev.FollowUpRuns? && p.followUps > 0 ==> !PushesHole(spec, p)
    ensures Orderly(spec, Next(spec, p, ev))
  {
    match ev
    case NodeAsked(r, t) => GetNodeKeeps(spec, p, r, t);
    case FollowUpRuns => FollowUpRunsKeeps(spec, p);
    case Polled(k, expired) => if k in p.waits { PollKeeps(spec, p, k, expired); }
    case WaitEnds(k) => if k in p.waits { FinishKeeps(spec, p, k); }
    case Recycled(id, r, t) => RecycleKeeps(spec, p, id, r, t);
    case Closed(id) => DropKeeps(spec, p, id); FillKeeps(spec, Drop(p, id));
    case Misbehaves(id) => DropKeeps(spec, p, id);
    case Unresponsive(id) => DropKeeps(spec, p, id);
    case RecoverCalled => SameLists(spec, p, p.(spawnFailed := false)); FillKeeps(spec, p.(spawnFailed := false));
    case AllDropped(ids) => SameLists(spec, p, p.(spawnFailed := true)); DropEachKeeps(spec, p.(spawnFailed := true), ids);
    case _ => SameLists(spec, p, Next(spec, p, ev));
  }

  /** Somewhere in the run a follow-up pushed `undefined`. */
  predicate HolePushed(spec: Spec, evs: seq<Event>)
    decreases |evs|
  {
    if evs == [] then false
    else
      var before := Run(spec, evs[..|evs| - 1]);
      || HolePushed(spec, evs[..|evs| - 1])
      || (evs[|evs| - 1].FollowUpRuns? && before.followUps > 0 && PushesHole(spec, before))
  }

  /** The pool lists something that is not the id of a launched node. */
  ghost predicate Holed(p: Pool) {
    && (UNDEFINED in p.nodes || UNDEFINED in p.idle)
    && (forall id :: id in p.processes ==> 0 <= id < p.nodeIndex)
  }

  lemma {:induction false} LaunchManyHoled(p: Pool, n: int)
    requires Holed(p)
    ensures Holed(LaunchMany(p, n))
    decreases n
  {
    if n > 0 {
      LaunchManyHoled(p, n - 1);
    }
  }

  lemma FillHoled(spec: Spec, p: Pool)
    requires Holed(p)
    ensures Holed(Fill(spec, p))
  {
    LaunchManyHoled(p, NodesToStart(spec, p));
  }

  lemma DropHoled(p: Pool, id: int)
    requires Holed(p)
    ensures Holed(Drop(p, id))
  {}

  lemma {:induction false} DropEachHoled(p: Pool, ids: seq<int>)
    requires Holed(p)
    ensures Holed(DropEach(p, ids))
    decreases |ids|
  {
    if ids != [] {
      DropEachHoled(p, ids[..|ids| - 1]);
      DropHoled(DropEach(p, ids[..|ids| - 1]), ids[|ids| - 1]);
    }
  }

  lemma SameListsHoled(p: Pool, q: Pool)
    requires Holed(p)
    requires q.nodes == p.nodes && q.idle == p.idle && q.processes.Keys <= p.processes.Keys && q.nodeIndex == p.nodeIndex
    ensures Holed(q)
  {
    assert forall id :: id in q.processes <==> id in q.processes.Keys;
  }

  lemma RecycleHoled(p: Pool, id: int, room: Room, task: Task)
    requires Holed(p)
    ensures Holed(Recycle(p, id, room, task))
  {
    if On(p.tasks, id, room) {
      var left := Without(p.tasks[id][room], task);
      var rooms: map<Room, seq<Task>> := if left == [] then p.tasks[id] - {room} else p.tasks[id][room := left];
      DropHoled(p.(tasks := p.tasks[id := rooms]), id);
    }
  }

  lemma PollHoled(p: Pool, ticket: nat, expired: bool)
    requires Holed(p) && ticket in p.waits
    ensures Holed(Poll(p, ticket, expired))
  {
    DropHoled(p, p.waits[ticket].node);
  }

  lemma ShiftHoled(spec: Spec, p: Pool, room: Room)
    requires Holed(p)
    ensures p.idle != [] ==> Holed(Pick(p, room))
    ensures Holed(FollowUp(spec, p))
  {
    if p.idle != [] {
      assert p.idle == [p.idle[0]] + p.idle[1..];
    }
    if p.nodes != [] {
      assert p.nodes == [p.nodes[0]] + p.nodes[1..];
    }
    FillHoled(spec, p);
  }

  lemma GetNodeHoled(spec: Spec, p: Pool, room: Room, task: Task)
    requires Holed(p)
    ensures Holed(GetNode(spec, p, room, task))
  {
    ShiftHoled(spec, p, room);
  }

  /** Nothing ever takes an `undefined` out of the pool again. */
  lemma HoleStays(spec: Spec, p: Pool, ev: Event)
    requires Holed(p)
    ensures Holed(Next(spec, p, ev))
  {
    match ev
    case NodeAsked(r, t) => GetNodeHoled(spec, p, r, t);
    case FollowUpRuns => ShiftHoled(spec, p, 0);
    case Polled(k, expired) => if k in p.waits { PollHoled(p, k, expired); }
    case WaitEnds(k) => if k in p.waits { SameListsHoled(p, Finish(p, k)); }
    case BecomesReady(id) => SameListsHoled(p, Next(spec, p, ev));
    case LaunchFails(id) => SameListsHoled(p, Next(spec, p, ev));
    case Recycled(id, r, t) => RecycleHoled(p, id, r, t);
    case Closed(id) => DropHoled(p, id); FillHoled(spec, Drop(p, id));
    case Misbehaves(id) => DropHoled(p, id);
    case Unresponsive(id) => DropHoled(p, id);
    case RecoverCalled => FillHoled(spec, p.(spawnFailed := false));
    case AllDropped(ids) => DropEachHoled(p.(spawnFailed := true), ids);
    case _ =>
  }

  /**
   In every run, over all interleavings: as long as no follow-up has pushed `undefined`, the nodes in use and the idle
   nodes partition the processes, the cap holds, and with `consumeNodeByRoom` no room is on two nodes.
   Once one has, the lists and the processes never agree again.
   */
  lemma {:induction false} PoolOrderlyIff(spec: Spec, evs: seq<Event>)
    ensures !HolePushed(spec, evs) ==> Orderly(spec, Run(spec, evs))
    ensures HolePushed(spec, evs) ==> !Partitioned(Run(spec, evs)) && Holed(Run(spec, evs))
    decreases |evs|
  {
    if evs == [] {
      FillKeeps(spec, EMPTY_POOL);
    } else {
      var prefix := evs[..|evs| - 1];
      PoolOrderlyIff(spec, prefix);
      if HolePushed(spec, prefix) {
        HoleStays(spec, Run(spec, prefix), evs[|evs| - 1]);
      } else if HolePushed(spec, evs) {
        assert UNDEFINED in Run(spec, evs).idle;
      } else {
        NextKeeps(spec, Run(spec, prefix), evs[|evs| - 1]);
      }
    }
  }

  // Room affinity on its own, holes or not

  /** A call that records its room on a second node: the search ends with `undefined` though a node has the room. */
  ghost predicate SplitsRoom(spec: Spec, p: Pool, ev: Event) {
    && ev.NodeAsked? && KnownNode(spec, p, ev.room) == UNDEFINED
    && p.idle != [] && p.idle[0] != UNDEFINED && Elsewhere(p.tasks, p.idle[0], ev.room)
  }

  lemma {:induction false} LaunchManyAffine(p: Pool, n: int)
    requires Affine(p.tasks)
    ensures Affine(LaunchMany(p, n).tasks)
    decreases n
  {
    if n > 0 {
      LaunchManyAffine(p, n - 1);
      FewerRecords(LaunchMany(p, n - 1).tasks, LaunchMany(p, n).tasks);
    }
  }

  lemma {:induction false} DropEachAffine(p: Pool, ids: seq<int>)
    requires Affine(p.tasks)
    ensures Affine(DropEach(p, ids).tasks)
    decreases |ids|
  {
    if ids != [] {
      DropEachAffine(p, ids[..|ids| - 1]);
      FewerRecords(DropEach(p, ids[..|ids| - 1]).tasks, DropEach(p, ids).tasks);
    }
  }

  lemma GetNodeAffineIff(spec: Spec, p: Pool, room: Room, task: Task)
    requires Affine(p.tasks)
    ensures Affine(GetNode(spec, p, room, task).tasks) <==> !SplitsRoom(spec, p, NodeAsked(room, task))
  {
    if KnownNode(spec, p, room) == UNDEFINED && p.idle != [] {
      RecordAffineIff(p.tasks, p.idle[0], room);
    }
  }

  lemma FillAffine(spec: Spec, p: Pool)
    requires Affine(p.tasks)
    ensures Affine(Fill(spec, p).tasks)
  {
    LaunchManyAffine(p, NodesToStart(spec, p));
  }

  lemma DropAffine(p: Pool, id: int)
    requires Affine(p.tasks)
    ensures Affine(Drop(p, id).tasks)
  {
    FewerRecords(p.tasks, Drop(p, id).tasks);
  }

  lemma RecycleAffine(p: Pool, id: int, room: Room, task: Task)
    requires Affine(p.tasks)
    ensures Affine(Recycle(p, id, room, task).tasks)
  {
    if On(p.tasks, id, room) {
      var left := Without(p.tasks[id][room], task);
      var rooms: map<Room, seq<Task>> := if left == [] then p.tasks[id] - {room} else p.tasks[id][room := left];
      FewerRecords(p.tasks, p.tasks[id := rooms]);
      DropAffine(p.(tasks := p.tasks[id := rooms]), id);
    }
  }

  /** In any pool whatever, an event keeps rooms on one node each if and only if it is no such call. */
  lemma NextAffineIff(spec: Spec, p: Pool, ev: Event)
    requires Affine(p.tasks)
    ensures Affine(Next(spec, p, ev).tasks) <==> !SplitsRoom(spec, p, ev)
  {
    match ev
    case NodeAsked(r, t) => GetNodeAffineIff(spec, p, r, t);
    case FollowUpRuns => FillAffine(spec, p);
    case Polled(k, _) => if k in p.waits { DropAffine(p, p.waits[k].node); }
    case WaitEnds(k) => if k in p.waits { FewerRecords(p.tasks, Finish(p, k).tasks); }
    case Recycled(id, r, t) => RecycleAffine(p, id, r, t);
    case Closed(id) => DropAffine(p, id); FillAffine(spec, Drop(p, id));
    case Misbehaves(id) => DropAffine(p, id);
    case Unresponsive(id) => DropAffine(p, id);
    case RecoverCalled => FillAffine(spec, p.(spawnFailed := false));
    case AllDropped(ids) => DropEachAffine(p.(spawnFailed := true), ids);
    case _ =>
  }

  ghost predicate AffineThroughout(spec: Spec, evs: seq<Event>)
    decreases |evs|
  {
    Affine(Run(spec, evs).tasks) && (evs != [] ==> AffineThroughout(spec, evs[..|evs| - 1]))
  }

  ghost predicate NeverSplits(spec: Spec, evs: seq<Event>)
    decreases |evs|
  {
    evs != [] ==>
      NeverSplits(spec, evs[..|evs| - 1]) && !SplitsRoom(spec, Run(spec, evs[..|evs| - 1]), evs[|evs| - 1])
  }

  /** Over a whole run no room is ever on two nodes if and only if no call splits a room. */
  lemma {:induction false} RoomAffinityIff(spec: Spec, evs: seq<Event>)
    ensures AffineThroughout(spec, evs) <==> NeverSplits(spec, evs)
    decreases |evs|
  {
    if evs == [] {
      LaunchManyAffine(EMPTY_POOL, NodesToStart(spec, EMPTY_POOL));
    } else {
      RoomAffinityIff(spec, evs[..|evs| - 1]);
      if AffineThroughout(spec, evs[..|evs| - 1]) {
        NextAffineIff(spec, Run(spec, evs[..|evs| - 1]), evs[|evs| - 1]);
      }
    }
  }

  // When a call splits a room

  /** The first entry of the list that has the room, `undefined` included. */
  function FirstWith(list: seq<int>, tasks: Records, room: Room): Option<int> {
    if list == [] then None
    else if On(tasks, list[0], room) then Some(list[0])
    else FirstWith(list[1..], tasks, room)
  }

  lemma {:induction false} FindUsedIsFirst(p: Pool, list: seq<int>, room: Room)
    ensures FindUsed(p, list, room) ==
            match FirstWith(list, p.tasks, room) { case None => UNDEFINED case Some(id) => id }
    ensures FirstWith(list, p.tasks, room) == None <==> forall id :: id in list ==> !On(p.tasks, id, room)
  {
    if list != [] {
      var first := list[0];
      assert first in list;
      FindUsedIsFirst(p, list[1..], room);
    }
  }

  /** The node has the room, and the search of its list stops at an entry `undefined` that has it too. */
  predicate Hidden(list: seq<int>, tasks: Records, id: int, room: Room) {
    id in list && On(tasks, id, room) && FirstWith(list, tasks, room) == Some(UNDEFINED)
  }

  /** Whatever is recorded on a node is recorded on a listed one. */
  ghost predicate RecordsListed(p: Pool) {
    forall id :: id in p.tasks && id != UNDEFINED ==> id in p.nodes || id in p.idle
  }

  lemma {:induction false} LaunchManyListed(p: Pool, n: int)
    requires RecordsListed(p)
    ensures RecordsListed(LaunchMany(p, n))
    decreases n
  {
    if n > 0 {
      LaunchManyListed(p, n - 1);
    }
  }

  lemma DropListed(p: Pool, id: int)
    requires RecordsListed(p)
    ensures RecordsListed(Drop(p, id))
  {}

  lemma {:induction false} DropEachListed(p: Pool, ids: seq<int>)
    requires RecordsListed(p)
    ensures RecordsListed(DropEach(p, ids))
    decreases |ids|
  {
    if ids != [] {
      DropEachListed(p, ids[..|ids| - 1]);
      DropListed(DropEach(p, ids[..|ids| - 1]), ids[|ids| - 1]);
    }
  }

  lemma ShiftListed(spec: Spec, p: Pool, room: Room)
    requires RecordsListed(p)
    ensures p.idle != [] ==> RecordsListed(Pick(p, room))
    ensures RecordsListed(FollowUp(spec, p))
  {
    if p.idle != [] {
      assert p.idle == [p.idle[0]] + p.idle[1..];
    }
    if p.nodes != [] {
      assert p.nodes == [p.nodes[0]] + p.nodes[1..];
    }
    LaunchManyListed(p, NodesToStart(spec, p));
  }

  lemma FewerListed(p: Pool, q: Pool)
    requires RecordsListed(p) && q.nodes == p.nodes && q.idle == p.idle && q.tasks.Keys <= p.tasks.Keys
    ensures RecordsListed(q)
  {
    assert forall id :: id in q.tasks <==> id in q.tasks.Keys;
  }

  lemma GetNodeListed(spec: Spec, p: Pool, room: Room, task: Task)
    requires RecordsListed(p)
    ensures RecordsListed(GetNode(spec, p, room, task))
  {
    ShiftListed(spec, p, room);
  }

  lemma PollListed(p: Pool, ticket: nat, expired: bool)
    requires RecordsListed(p) && ticket in p.waits
    ensures RecordsListed(Poll(p, ticket, expired))
  {
    DropListed(p, p.waits[ticket].node);
  }

  lemma RecycleListed(p: Pool, id: int, room: Room, task: Task)
    requires RecordsListed(p)
    ensures RecordsListed(Recycle(p, id, room, task))
  {
    if On(p.tasks, id, room) {
      var left := Without(p.tasks[id][room], task);
      var rooms: map<Room, seq<Task>> := if left == [] then p.tasks[id] - {room} else p.tasks[id][room := left];
      var q := p.(tasks := p.tasks[id := rooms]);
      FewerListed(p, q);
      DropListed(q, id);
    }
  }

  lemma NextListed(spec: Spec, p: Pool, ev: Event)
    requires RecordsListed(p)
    ensures RecordsListed(Next(spec, p, ev))
  {
    match ev
    case NodeAsked(r, t) => GetNodeListed(spec, p, r, t);
    case FollowUpRuns => ShiftListed(spec, p, 0);
    case Polled(k, expired) => if k in p.waits { PollListed(p, k, expired); }
    case WaitEnds(k) => if k in p.waits { FewerListed(p, Finish(p, k)); }
    case Recycled(id, r, t) => RecycleListed(p, id, r, t);
    case Closed(id) => DropListed(p, id); LaunchManyListed(Drop(p, id), NodesToStart(spec, Drop(p, id)));
    case Misbehaves(id) => DropListed(p, id);
    case Unresponsive(id) => DropListed(p, id);
    case RecoverCalled => LaunchManyListed(p.(spawnFailed := false), NodesToStart(spec, p.(spawnFailed := false)));
    case AllDropped(ids) => DropEachListed(p.(spawnFailed := true), ids);
    case _ => FewerListed(p, Next(spec, p, ev));
  }

  lemma {:induction false} RunListed(spec: Spec, evs: seq<Event>)
    ensures RecordsListed(Run(spec, evs))
    decreases |evs|
  {
    if evs == [] {
      LaunchManyListed(EMPTY_POOL, NodesToStart(spec, EMPTY_POOL));
    } else {
      RunListed(spec, evs[..|evs| - 1]);
      NextListed(spec, Run(spec, evs[..|evs| - 1]), evs[|evs| - 1]);
    }
  }

  /**
   In every run with `consumeNodeByRoom`, a call splits a room only behind an entry `undefined` that has the room and
   comes before the node that has it. A pool in order has no such entry.
   */
  lemma SplitsBehindHole(spec: Spec, evs: seq<Event>, room: Room, task: Task) returns (id: int)
    requires spec.consumeNodeByRoom && SplitsRoom(spec, Run(spec, evs), NodeAsked(room, task))
    ensures var p := Run(spec, evs);
            && id != UNDEFINED && id != p.idle[0]
            && (Hidden(p.nodes, p.tasks, id, room) || Hidden(p.idle, p.tasks, id, room))
    ensures HolePushed(spec, evs)
  {
    var p := Run(spec, evs);
    RunListed(spec, evs);
    id :| id != UNDEFINED && id != p.idle[0] && On(p.tasks, id, room);
    FindUsedIsFirst(p, p.nodes, room);
    FindUsedIsFirst(p, p.idle, room);
    if !HolePushed(spec, evs) {
      PoolOrderlyIff(spec, evs);
      UnknownRoom(spec, p, room);
      assert false;
    }
  }

  // Follow-ups that run at once

  /** Every follow-up runs right after its pick. */
  ghost predicate Prompt(spec: Spec, evs: seq<Event>)
    decreases |evs|
  {
    evs != [] ==>
      && Prompt(spec, evs[..|evs| - 1])
      && (Run(spec, evs[..|evs| - 1]).followUps > 0 ==> evs[|evs| - 1] == FollowUpRuns)
  }

  lemma {:induction false} LaunchManyWaits(p: Pool, n: int)
    ensures LaunchMany(p, n).followUps == p.followUps && LaunchMany(p, n).nodes == p.nodes
    decreases n
  {
    if n > 0 {
      LaunchManyWaits(p, n - 1);
    }
  }

  lemma {:induction false} DropEachWaits(p: Pool, ids: seq<int>)
    ensures DropEach(p, ids).followUps == p.followUps
    decreases |ids|
  {
    if ids != [] {
      DropEachWaits(p, ids[..|ids| - 1]);
    }
  }

  /** Only a pick schedules a follow-up, and it leaves its node in use. */
  lemma NextSchedules(spec: Spec, p: Pool, ev: Event)
    ensures var q := Next(spec, p, ev);
            if ev == FollowUpRuns then q.followUps == (if p.followUps > 0 then p.followUps - 1 else 0)
            else q.followUps == p.followUps || (ev.NodeAsked? && q.followUps == p.followUps + 1 && q.nodes != [])
  {
    match ev
    case FollowUpRuns => LaunchManyWaits(p, NodesToStart(spec, p));
    case Closed(id) => LaunchManyWaits(Drop(p, id), NodesToStart(spec, Drop(p, id)));
    case RecoverCalled => LaunchManyWaits(p.(spawnFailed := false), NodesToStart(spec, p.(spawnFailed := false)));
    case AllDropped(ids) => DropEachWaits(p.(spawnFailed := true), ids);
    case _ =>
  }

  /** If every follow-up runs right after its pick, the pool is in order at every moment. */
  lemma {:induction false} PromptRunsAreOrderly(spec: Spec, evs: seq<Event>)
    requires Prompt(spec, evs)
    ensures !HolePushed(spec, evs) && Orderly(spec, Run(spec, evs))
    ensures Run(spec, evs).followUps <= 1 && (Run(spec, evs).followUps == 1 ==> Run(spec, evs).nodes != [])
    decreases |evs|
  {
    if evs == [] {
      LaunchManyWaits(EMPTY_POOL, NodesToStart(spec, EMPTY_POOL));
    } else {
      PromptRunsAreOrderly(spec, evs[..|evs| - 1]);
      NextSchedules(spec, Run(spec, evs[..|evs| - 1]), evs[|evs| - 1]);
    }
    PoolOrderlyIff(spec, evs);
  }

  // Where a room goes

  /** In a pool in order the room is on one node afterwards: the one that had it, or else the first idle one. */
  lemma RoomPlaced(spec: Spec, p: Pool, room: Room, task: Task) returns (id: int)
    requires Orderly(spec, p) && spec.consumeNodeByRoom
    requires p.idle != [] || exists known :: On(p.tasks, known, room)
    ensures var q := GetNode(spec, p, room, task);
            && (forall other :: On(q.tasks, other, room) <==> other == id)
            && id == (if exists known :: On(p.tasks, known, room) then KnownNode(spec, p, room) else p.idle[0])
            && (On(p.tasks, id, room) || !exists known :: On(p.tasks, known, room))
  {
    id := KnownNode(spec, p, room);
    if id == UNDEFINED {
      UnknownRoom(spec, p, room);
      id := p.idle[0];
      assert id in p.idle;
    }
  }

  /** Two nodes are kept at the ready, two may run at most, and nodes are reused. */
  const PAIR := Spec(2, 2, true, true)

  lemma PairStarts() returns (p: Pool)
    ensures p == Run(PAIR, []) && p.idle == [0, 1] && p.nodes == [] && p.followUps == 0 && !p.spawnFailed
    ensures p.nodeIndex == 2 && p.processes == map[0 := None, 1 := None] && p.tasks == map[0 := NO_ROOMS, 1 := NO_ROOMS]
    ensures p.waits == map[] && p.nextWait == 0
  {
    p := Run(PAIR, []);
    assert LaunchMany(EMPTY_POOL, 0) == EMPTY_POOL;
    assert LaunchMany(EMPTY_POOL, 1) == Launch(EMPTY_POOL);
    assert p == Launch(Launch(EMPTY_POOL));
  }

  lemma PairPicks(p: Pool) returns (q: Pool)
    requires p.idle == [0, 1] && p.nodes == [] && p.followUps == 0 && !p.spawnFailed && p.nodeIndex == 2
    requires p.processes.Keys == {0, 1} && p.tasks == map[0 := NO_ROOMS, 1 := NO_ROOMS]
    ensures q == GetNode(PAIR, p, 3, 0)
    ensures q.idle == [1] && q.nodes == [0] && q.followUps == 1 && !q.spawnFailed && q.nodeIndex == 2
    ensures q.processes.Keys == {0, 1} && q.tasks.Keys == {0, 1} && q.tasks[1] == NO_ROOMS
  {
    q := GetNode(PAIR, p, 3, 0);
    assert KnownNode(PAIR, p, 3) == UNDEFINED;
  }

  lemma PairLoses(p: Pool) returns (q: Pool)
    requires p.idle == [1] && p.nodes == [0] && p.followUps == 1 && !p.spawnFailed && p.nodeIndex == 2
    requires p.processes.Keys == {0, 1} && p.tasks.Keys == {0, 1} && p.tasks[1] == NO_ROOMS
    ensures q == Next(PAIR, p, Closed(0)) && q.idle == [1, 2] && q.nodes == [] && q.followUps == 1
    ensures q.processes.Keys == {1, 2} && q.tasks == map[1 := NO_ROOMS, 2 := NO_ROOMS]
  {
    var d := Drop(p, 0);
    assert IndexOf([1], 0) == -1 && Without([1], 0) == [1];
    assert IndexOf([0], 0) == 0 && Without([0], 0) == [];
    assert d.idle == [1] && d.nodes == [] && d.tasks == map[1 := NO_ROOMS];
    assert LaunchMany(d, 0) == d;
    assert LaunchMany(d, 1) == Launch(d);
    q := Fill(PAIR, d);
    assert q == Launch(d);
  }

  lemma PairFollowsUp(p: Pool) returns (q: Pool)
    requires p.idle == [1, 2] && p.nodes == [] && p.followUps == 1
    ensures PushesHole(PAIR, p) && q == Next(PAIR, p, FollowUpRuns)
    ensures q == p.(idle := [1, 2, UNDEFINED], followUps := 0)
  {
    q := Next(PAIR, p, FollowUpRuns);
    assert [1, 2] + [UNDEFINED] == [1, 2, UNDEFINED];
  }

  /** One more event of a run. */
  lemma Do(evs: seq<Event>, p: Pool, ev: Event) returns (evs': seq<Event>, p': Pool)
    requires p == Run(PAIR, evs)
    ensures evs' == evs + [ev] && p' == Next(PAIR, p, ev) && p' == Run(PAIR, evs')
  {
    evs' := evs + [ev];
    assert evs'[..|evs'| - 1] == evs;
    p' := Next(PAIR, p, ev);
  }

  /** A node that exits between its pick and the follow-up is all it takes. */
  lemma HoleReachable() returns (evs: seq<Event>, p: Pool)
    ensures evs == [NodeAsked(3, 0), Closed(0), FollowUpRuns] && p == Run(PAIR, evs) && HolePushed(PAIR, evs)
    ensures p.idle == [1, 2, UNDEFINED] && p.nodes == [] && p.followUps == 0
    ensures p.processes.Keys == {1, 2} && p.tasks == map[1 := NO_ROOMS, 2 := NO_ROOMS]
  {
    p := PairStarts();
    evs := [];
    var picked := PairPicks(p);
    evs, p := Do(evs, p, NodeAsked(3, 0));
    var lost := PairLoses(picked);
    evs, p := Do(evs, p, Closed(0));
    var followed := PairFollowsUp(lost);
    var before := evs;
    evs, p := Do(evs, p, FollowUpRuns);
    assert evs[..|evs| - 1] == before;
  }

  /** An idle node is picked for a room that the search does not find. */
  lemma PairAsks(evs: seq<Event>, p: Pool, room: Room, task: Task) returns (evs': seq<Event>, p': Pool)
    requires p == Run(PAIR, evs) && p.idle != [] && KnownNode(PAIR, p, room) == UNDEFINED
    ensures evs' == evs + [NodeAsked(room, task)] && p' == Run(PAIR, evs')
    ensures p'.idle == p.idle[1..] && p'.nodes == p.nodes + [p.idle[0]] && p'.followUps == p.followUps + 1
    ensures p'.tasks == Record(p.tasks, p.idle[0], room) && p'.processes == p.processes
  {
    evs', p' := Do(evs, p, NodeAsked(room, task));
  }

  /** At the cap a follow-up turns the first node in use idle. */
  lemma PairReuses(evs: seq<Event>, p: Pool) returns (evs': seq<Event>, p': Pool)
    requires p == Run(PAIR, evs) && p.nodes != [] && Running(p) >= 2 && p.followUps > 0
    ensures evs' == evs + [FollowUpRuns] && p' == Run(PAIR, evs')
    ensures p'.idle == p.idle + [p.nodes[0]] && p'.nodes == p.nodes[1..] && p'.followUps == p.followUps - 1
    ensures p'.tasks == p.tasks && p'.processes == p.processes
  {
    evs', p' := Do(evs, p, FollowUpRuns);
  }

  /** A room takes the first node, which then goes idle again behind the others. */
  lemma PairTurns(evs: seq<Event>, p: Pool, room: Room, task: Task) returns (evs': seq<Event>, p': Pool)
    requires p == Run(PAIR, evs) && p.nodes == [] && |p.idle| >= 2 && p.followUps == 0
    requires KnownNode(PAIR, p, room) == UNDEFINED
    ensures evs' == evs + [NodeAsked(room, task), FollowUpRuns] && p' == Run(PAIR, evs')
    ensures p'.idle == p.idle[1..] + [p.idle[0]] && p'.nodes == [] && p'.followUps == 0
    ensures p'.tasks == Record(p.tasks, p.idle[0], room) && p'.processes == p.processes
  {
    var evs1, p1 := PairAsks(evs, p, room, task);
    assert p1.nodes == [p.idle[0]];
    evs', p' := PairReuses(evs1, p1);
    assert evs' == evs + [NodeAsked(room, task), FollowUpRuns];
  }

  lemma NowhereKnown(p: Pool, room: Room)
    requires forall id :: !On(p.tasks, id, room)
    ensures KnownNode(PAIR, p, room) == UNDEFINED
  {}

  lemma RoomThreeRecorded()
    ensures Record(map[1 := NO_ROOMS, 2 := NO_ROOMS], 1, 3) == map[1 := map[3 := []], 2 := NO_ROOMS]
  {}

  lemma RoomOneRecorded()
    ensures Record(map[1 := map[3 := []], 2 := NO_ROOMS], 2, 1) == map[1 := map[3 := []], 2 := map[1 := []]]
  {}

  lemma RoomThreeTurns(evs: seq<Event>, p: Pool) returns (evs': seq<Event>, p': Pool)
    requires p == Run(PAIR, evs) && p.idle == [1, 2, UNDEFINED] && p.nodes == [] && p.followUps == 0
    requires p.tasks == map[1 := NO_ROOMS, 2 := NO_ROOMS]
    ensures evs' == evs + [NodeAsked(3, 1), FollowUpRuns] && p' == Run(PAIR, evs')
    ensures p'.idle == [2, UNDEFINED, 1] && p'.nodes == [] && p'.followUps == 0 && p'.processes == p.processes
    ensures p'.tasks == map[1 := map[3 := []], 2 := NO_ROOMS]
  {
    NowhereKnown(p, 3);
    RoomThreeRecorded();
    evs', p' := PairTurns(evs, p, 3, 1);
  }

  lemma RoomOneTurns(evs: seq<Event>, p: Pool) returns (evs': seq<Event>, p': Pool)
    requires p == Run(PAIR, evs) && p.idle == [2, UNDEFINED, 1] && p.nodes == [] && p.followUps == 0
    requires p.tasks == map[1 := map[3 := []], 2 := NO_ROOMS]
    ensures evs' == evs + [NodeAsked(1, 2), FollowUpRuns] && p' == Run(PAIR, evs')
    ensures p'.idle == [UNDEFINED, 1, 2] && p'.nodes == [] && p'.followUps == 0 && p'.processes == p.processes
    ensures p'.tasks == map[1 := map[3 := []], 2 := map[1 := []]]
  {
    NowhereKnown(p, 1);
    RoomOneRecorded();
    evs', p' := PairTurns(evs, p, 1, 2);
  }

  lemma RoomTwoNowhere(tasks: Records)
    requires tasks == map[1 := map[3 := []], 2 := map[1 := []]]
    ensures forall id :: !On(tasks, id, 2)
  {}

  lemma BothTurn(evs: seq<Event>, p: Pool) returns (evs': seq<Event>, p': Pool)
    requires p == Run(PAIR, evs) && p.idle == [1, 2, UNDEFINED] && p.nodes == [] && p.followUps == 0
    requires p.tasks == map[1 := NO_ROOMS, 2 := NO_ROOMS]
    ensures evs' == evs + [NodeAsked(3, 1), FollowUpRuns, NodeAsked(1, 2), FollowUpRuns] && p' == Run(PAIR, evs')
    ensures p'.idle == [UNDEFINED, 1, 2] && p'.nodes == [] && p'.processes == p.processes
    ensures forall id :: !On(p'.tasks, id, 2)
  {
    var evs1, p1 := RoomThreeTurns(evs, p);
    evs', p' := RoomOneTurns(evs1, p1);
    RoomTwoNowhere(p'.tasks);
    assert evs' == evs + [NodeAsked(3, 1), FollowUpRuns, NodeAsked(1, 2), FollowUpRuns];
  }

  /** Behind the hole room 3 takes node 1 and room 1 takes node 2. */
  lemma HolePassed() returns (evs: seq<Event>, p: Pool)
    ensures evs == [NodeAsked(3, 0), Closed(0), FollowUpRuns, NodeAsked(3, 1), FollowUpRuns, NodeAsked(1, 2), FollowUpRuns]
    ensures p == Run(PAIR, evs) && p.idle == [UNDEFINED, 1, 2] && p.nodes == [] && p.processes.Keys == {1, 2}
    ensures forall id :: !On(p.tasks, id, 2)
  {
    var hole, pushed := HoleReachable();
    evs, p := BothTurn(hole, pushed);
  }

  /** A room recorded under `undefined` in front of the nodes in use is not found on them. */
  lemma HiddenByHole(p: Pool)
    requires p.nodes != [] && p.nodes[0] == UNDEFINED && On(p.tasks, UNDEFINED, 2)
    requires forall id :: id in p.idle ==> !On(p.tasks, id, 2)
    ensures KnownNode(PAIR, p, 2) == UNDEFINED
  {}

  /** With `undefined` in front, room 2 goes to the first idle node, wherever it is recorded already. */
  lemma AsksBehindHole(evs: seq<Event>, p: Pool, task: Task) returns (evs': seq<Event>, p': Pool)
    requires p == Run(PAIR, evs) && p.idle != [] && p.nodes != [] && p.nodes[0] == UNDEFINED && On(p.tasks, UNDEFINED, 2)
    requires forall id :: id in p.idle ==> !On(p.tasks, id, 2)
    ensures evs' == evs + [NodeAsked(2, task)] && p' == Run(PAIR, evs') && p'.processes == p.processes
    ensures p'.idle == p.idle[1..] && p'.nodes != [] && p'.nodes[0] == UNDEFINED
    ensures forall id :: On(p'.tasks, id, 2) <==> On(p.tasks, id, 2) || id == p.idle[0]
  {
    HiddenByHole(p);
    evs', p' := PairAsks(evs, p, 2, task);
    RecordOn(p.tasks, p.idle[0], 2);
  }

  lemma HoleTakesRoom(evs: seq<Event>, p: Pool) returns (evs': seq<Event>, p': Pool)
    requires p == Run(PAIR, evs) && p.idle == [UNDEFINED, 1, 2] && p.nodes == []
    requires forall id :: !On(p.tasks, id, 2)
    ensures evs' == evs + [NodeAsked(2, 3)] && p' == Run(PAIR, evs') && p'.processes == p.processes
    ensures p'.idle == [1, 2] && p'.nodes == [UNDEFINED] && forall id :: On(p'.tasks, id, 2) <==> id == UNDEFINED
  {
    NowhereKnown(p, 2);
    evs', p' := PairAsks(evs, p, 2, 3);
    RecordOn(p.tasks, UNDEFINED, 2);
    assert p'.idle == [1, 2];
  }

  /** Room 2 goes on node 1, then on node 2: each time the search stops at `undefined`. */
  lemma RoomTwoTwice(evs: seq<Event>, p: Pool) returns (evs': seq<Event>, p': Pool)
    requires p == Run(PAIR, evs) && p.idle == [1, 2] && p.nodes == [UNDEFINED]
    requires forall id :: On(p.tasks, id, 2) <==> id == UNDEFINED
    ensures evs' == evs + [NodeAsked(2, 4), NodeAsked(2, 5)]
    ensures p' == Run(PAIR, evs') && p'.processes == p.processes && On(p'.tasks, 1, 2) && On(p'.tasks, 2, 2)
  {
    var evs2, p2 := AsksBehindHole(evs, p, 4);
    assert p2.idle == [2];
    evs', p' := AsksBehindHole(evs2, p2, 5);
    assert evs' == evs + [NodeAsked(2, 4), NodeAsked(2, 5)];
  }

  /** Room affinity fails: with `consumeNodeByRoom` room 2 ends up recorded on nodes 1 and 2, which both run. */
  lemma RoomOnTwoNodes() returns (evs: seq<Event>, p: Pool)
    ensures evs == [NodeAsked(3, 0), Closed(0), FollowUpRuns, NodeAsked(3, 1), FollowUpRuns, NodeAsked(1, 2), FollowUpRuns,
                    NodeAsked(2, 3), NodeAsked(2, 4), NodeAsked(2, 5)]
    ensures PAIR.consumeNodeByRoom && p == Run(PAIR, evs)
    ensures 1 in p.processes && 2 in p.processes && On(p.tasks, 1, 2) && On(p.tasks, 2, 2)
  {
    var evs7, p7 := HolePassed();
    var evs8, p8 := HoleTakesRoom(evs7, p7);
    evs, p := RoomTwoTwice(evs8, p8);
  }
}
