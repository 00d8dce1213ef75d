/**
 The node manager of an agent: its fields and the methods that update them. `State()` is the pool of module `NodePool`,
 and every method does what the function of that name there says.
 */
module NodeManager {
  import opened Common
  import opened NodePool

  class Manager {
    const spec: Spec
    var nodeIndex: nat
    var idle: seq<int>
    var nodes: seq<int>
    var processes: map<int, Option<bool>>
    var tasks: Records
    var spawnFailed: bool
    var followUps: nat
    var waits: map<nat, Wait>
    var nextWait: nat

    function State(): Pool
      reads this
    {
      Pool(nodeIndex, idle, nodes, processes, tasks, spawnFailed, followUps, waits, nextWait)
    }

    constructor (s: Spec)
      ensures spec == s && State() == Run(s, [])
    {
      spec := s;
      nodeIndex, idle, nodes, processes, tasks := 0, [], [], map[], map[];
      spawnFailed, followUps, waits, nextWait := false, 0, map[], 0;
      new;
      FillNodes();
    }

    method LaunchNode()
      modifies this
      ensures State() == Launch(old(State()))
    {
      var id := nodeIndex;
      nodeIndex := nodeIndex + 1;
      processes := processes[id := None];
      tasks := tasks[id := NO_ROOMS];
      idle := idle + [id];
    }

    method FillNodes()
      modifies this
      ensures State() == Fill(spec, old(State()))
    {
      var runningNodes := |nodes| + |idle|;
      var spaceInIdle := spec.prerunNodeNum - |idle|;
      var nodesToStart := spaceInIdle;
      if spec.maxNodeNum >= 0 && spec.maxNodeNum - runningNodes < spaceInIdle {
        nodesToStart := spec.maxNodeNum - runningNodes;
      }
      var i := 0;
      while i < nodesToStart
        invariant i <= nodesToStart || i == 0
        invariant State() == LaunchMany(old(State()), i)
      {
        LaunchNode();
        i := i + 1;
      }
    }

    method Spliced(list: seq<int>, x: int) returns (r: seq<int>)
      ensures r == Without(list, x)
    {
      r := list;
      var index := IndexOf(list, x);
      if index != -1 {
        r := list[..index] + list[index + 1..];
      }
    }

    method CleanupNode(id: int)
      modifies this
      ensures State() == Cleanup(old(State()), id)
    {
      ghost var p := State();
      var used := Spliced(nodes, id);
      var unused := Spliced(idle, id);
      processes, tasks, nodes, idle := processes - {id}, tasks - {id}, used, unused;
      assert State() == p.(processes := processes, tasks := tasks, nodes := used, idle := unused);
    }

    method DropNode(id: int)
      modifies this
      ensures State() == Drop(old(State()), id)
    {
      if id in processes {
        CleanupNode(id);
      }
    }

    method FindNodeUsedByRoom(list: seq<int>, room: Room) returns (r: int)
      ensures r == FindUsed(State(), list, room)
    {
      var i := 0;
      while i < |list|
        invariant i <= |list|
        invariant FindUsed(State(), list, room) == FindUsed(State(), list[i..], room)
      {
        if list[i] in tasks && room in tasks[list[i]] {
          return list[i];
        }
        i := i + 1;
      }
      return UNDEFINED;
    }

    /** `undefined` when there is no idle node; otherwise the first one, with its follow-up scheduled. */
    method PickInIdle(room: Room) returns (r: int)
      modifies this
      ensures old(idle) == [] ==> r == UNDEFINED && State() == old(State())
      ensures old(idle) != [] ==> r == old(idle)[0] && State() == Pick(old(State()), room)
    {
      if idle == [] {
        return UNDEFINED;
      }
      r := idle[0];
      idle := idle[1..];
      tasks := Record(tasks, r, room);
      nodes := nodes + [r];
      followUps := followUps + 1;
    }

    method RunFollowUp()
      requires followUps > 0
      modifies this
      ensures State() == Next(spec, old(State()), FollowUpRuns)
    {
      followUps := followUps - 1;
      if spec.maxNodeNum < 0 || |nodes| + |idle| < spec.maxNodeNum {
        ghost var p := State();
        FillNodes();
        FollowUpsCommute(p, NodesToStart(spec, p));
      } else if spec.reuseNode {
        var shifted := UNDEFINED;
        if nodes != [] {
          shifted := nodes[0];
          nodes := nodes[1..];
        }
        idle := idle + [shifted];
      }
    }

    method GetNode(room: Room, task: Task)
      modifies this
      ensures State() == Next(spec, old(State()), NodeAsked(room, task))
    {
      var id := UNDEFINED;
      if spec.consumeNodeByRoom {
        id := FindNodeUsedByRoom(nodes, room);
        if id == UNDEFINED {
          id := FindNodeUsedByRoom(idle, room);
        }
      }
      if id == UNDEFINED {
        id := PickInIdle(room);
      }
      if id == UNDEFINED {
        return;
      }
      WaitTillNodeReady(id, room, task);
    }

    method WaitTillNodeReady(id: int, room: Room, task: Task)
      modifies this
      ensures State() == StartWait(old(State()), id, room, task)
    {
      var stage := Polling;
      if id !in processes {
        stage := Rejected;
      } else if processes[id] == Some(true) {
        stage := Resolved;
      }
      waits := waits[nextWait := Wait(id, room, task, stage)];
      nextWait := nextWait + 1;
    }

    method OnPoll(ticket: nat, expired: bool)
      requires ticket in waits
      modifies this
      ensures State() == Poll(old(State()), ticket, expired)
    {
      var w := waits[ticket];
      if w.stage == Polling {
        if w.node !in processes {
          waits := waits[ticket := w.(stage := Rejected)];
        } else if processes[w.node] == Some(true) {
          waits := waits[ticket := w.(stage := Resolved)];
        } else if processes[w.node] == None && expired {
          DropNode(w.node);
          waits := waits[ticket := w.(stage := Rejected)];
        }
      }
    }

    /** The task is pushed even when the list has it already; `added` says whether it had to be announced. */
    method AddTask(id: int, room: Room, task: Task) returns (ok: bool, added: bool)
      modifies this
      ensures ok <==> On(old(tasks), id, room)
      ensures added <==> ok && task !in old(tasks)[id][room]
      ensures State() == if !ok then old(State())
                         else old(State()).(tasks := old(tasks)[id := WithTask(old(tasks)[id], room, task)])
    {
      if !(id in tasks && room in tasks[id]) {
        return false, false;
      }
      ok, added := true, task !in tasks[id][room];
      tasks := tasks[id := WithTask(tasks[id], room, task)];
    }

    method OnWaitSettled(ticket: nat) returns (answered: bool)
      requires ticket in waits && waits[ticket].stage != Polling
      modifies this
      ensures State() == Finish(old(State()), ticket)
      ensures var w := old(waits)[ticket];
              answered <==> w.stage == Resolved && On(old(tasks), w.node, w.room)
    {
      var w := waits[ticket];
      waits := waits - {ticket};
      answered := false;
      if w.stage == Resolved {
        var added;
        answered, added := AddTask(w.node, w.room, w.task);
      }
      if !answered {
        tasks := tasks - {w.node};
      }
    }

    /** `removed` says whether the departure has to be announced: no other entry of the task is left. */
    method RemoveFrom(list: seq<Task>, task: Task) returns (left: seq<Task>, removed: bool)
      ensures left == Without(list, task)
      ensures removed <==> task !in left
    {
      left := Spliced(list, task);
      removed := IndexOf(left, task) == -1;
    }

    method RecycleNode(id: int, room: Room, task: Task) returns (removed: bool)
      modifies this
      ensures State() == Recycle(old(State()), id, room, task)
      ensures removed <==> On(old(tasks), id, room) && task !in Without(old(tasks)[id][room], task)
    {
      removed := false;
      if id in tasks && room in tasks[id] {
        var left;
        left, removed := RemoveFrom(tasks[id][room], task);
        if left != [] {
          tasks := tasks[id := tasks[id][room := left]];
          return;
        }
        tasks := tasks[id := tasks[id] - {room}];
        if tasks[id] == NO_ROOMS {
          DropNode(id);
        }
      }
    }

    method OnReady(id: int)
      modifies this
      ensures State() == Next(spec, old(State()), BecomesReady(id))
    {
      if id in processes {
        processes := processes[id := Some(true)];
      }
      spawnFailed := false;
    }

    method OnError(id: int)
      modifies this
      ensures State() == Next(spec, old(State()), LaunchFails(id))
    {
      if id in processes {
        processes := processes[id := Some(false)];
      }
      spawnFailed := true;
    }

    method OnClose(id: int)
      modifies this
      ensures State() == Next(spec, old(State()), Closed(id))
    {
      if id in processes {
        CleanupNode(id);
      }
      if !spawnFailed {
        FillNodes();
      }
    }

    method Recover()
      modifies this
      ensures State() == Next(spec, old(State()), RecoverCalled)
    {
      spawnFailed := false;
      FillNodes();
    }

    /** No process is left; `dropped` lists them in the order they went. */
    method DropAllNodes() returns (dropped: seq<int>)
      modifies this
      ensures State() == Next(spec, old(State()), AllDropped(dropped))
      ensures processes == map[] && forall id :: id in dropped <==> id in old(processes)
    {
      spawnFailed := true;
      dropped := [];
      ghost var p := State();
      var left := processes.Keys;
      while left != {}
        invariant left == processes.Keys && left <= old(processes).Keys
        invariant forall id :: id in dropped <==> id in old(processes).Keys - left
        invariant State() == DropEach(p, dropped)
        decreases left
      {
        ghost var some := Member(left);
        var id :| id in left;
        DropNode(id);
        assert (dropped + [id])[..|dropped|] == dropped;
        dropped := dropped + [id];
        left := left - {id};
      }
    }

    method OnMisbehavior(id: int)
      modifies this
      ensures State() == Next(spec, old(State()), Misbehaves(id))
    {
      if id in processes {
        CleanupNode(id);
      }
    }

    method AllowSpawn()
      modifies this
      ensures State() == Next(spec, old(State()), SpawnAllowed)
    {
      spawnFailed := false;
    }

    /** Every event of a run has the effect the pool model gives it; `DropAllNodes` does the one left out. */
    method OnEvent(ev: Event)
      requires !ev.AllDropped?
      modifies this
      ensures State() == Next(spec, old(State()), ev)
    {
      match ev
      case NodeAsked(room, task) => GetNode(room, task);
      case FollowUpRuns =>
        if followUps > 0 {
          RunFollowUp();
        }
      case Polled(ticket, expired) =>
        if ticket in waits {
          OnPoll(ticket, expired);
        }
      case WaitEnds(ticket) =>
        if ticket in waits && waits[ticket].stage != Polling {
          var answered := OnWaitSettled(ticket);
        }
      case Recycled(id, room, task) => var removed := RecycleNode(id, room, task);
      case BecomesReady(id) => OnReady(id);
      case LaunchFails(id) => OnError(id);
      case SpawnAllowed => AllowSpawn();
      case Closed(id) => OnClose(id);
      case Misbehaves(id) => OnMisbehavior(id);
      case Unresponsive(id) => DropNode(id);
      case RecoverCalled => Recover();
    }
  }

  /** Launching does not look at the scheduled follow-ups. */
  lemma {:induction false} FollowUpsCommute(p: Pool, n: int)
    ensures LaunchMany(p.(followUps := p.followUps + 1), n) == LaunchMany(p, n).(followUps := p.followUps + 1)
    ensures LaunchMany(p, n).followUps == p.followUps
    decreases n
  {
    if n > 0 {
      FollowUpsCommute(p, n - 1);
    }
  }
}
