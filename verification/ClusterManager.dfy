/**
 The manager behind a node: worker registry, one scheduler per purpose, and the entries it replicates.

 A scheduler is held by its state; its operations are the functions that the methods of class `Scheduler`
 are proved to compute.
 */
module ClusterManager {
  import opened Common
  import opened WorkerTypes
  import opened SchedulerModel

  datatype Registration = Registration(purpose: Purpose, aliveCount: nat)

  type Registry = map<WorkerId, Registration>

  // What the scheduler operations do to the workers

  lemma {:induction false} PickUpWorkers(s: Sched, w: WorkerId, ts: seq<Task>, default: int)
    ensures PickUp(s, w, ts, default).workers ==
            if w in s.workers then s.workers[w := s.workers[w].(tasks := AfterPickUp(s.workers[w].tasks, ts))] else s.workers
    decreases |ts|
  {
    if ts != [] {
      PickUpWorkers(s, w, ts[..|ts| - 1], default);
    }
  }

  // The failure detector as a function on the registry

  /** The worker has been silent for longer than the limit at this tick. */
  predicate Overdue(r: Registration, limit: nat) {
    r.aliveCount + 1 > limit
  }

  function Counted(r: Registration): Registration {
    r.(aliveCount := r.aliveCount + 1)
  }

  /** A tick that gets through: everybody is counted, the overdue go. */
  function Tick(reg: Registry, limit: nat): Registry {
    map w | w in reg && !Overdue(reg[w], limit) :: Counted(reg[w])
  }

  /** What a tick does when it comes to `w`. */
  function Visit(reg: Registry, w: WorkerId, limit: nat): Registry {
    if w !in reg then reg else if Overdue(reg[w], limit) then reg - {w} else reg[w := Counted(reg[w])]
  }

  /** The registry once a tick has been through `visited`, in that order. */
  function Visits(reg: Registry, visited: seq<WorkerId>, limit: nat): Registry
    decreases |visited|
  {
    if visited == [] then reg else Visit(Visits(reg, visited[..|visited| - 1], limit), visited[|visited| - 1], limit)
  }

  /** The departures that a tick through `visited` publishes. */
  function Departures(reg: Registry, visited: seq<WorkerId>, limit: nat): seq<Entry>
    decreases |visited|
  {
    if visited == [] then []
    else
      var w := visited[|visited| - 1];
      Departures(reg, visited[..|visited| - 1], limit) +
      if w in reg && Overdue(reg[w], limit) then [WorkerQuit(w)] else []
  }

  function ReplayAll(t: Table, entries: seq<Entry>): Table
    decreases |entries|
  {
    if entries == [] then t else Replay(ReplayAll(t, entries[..|entries| - 1]), entries[|entries| - 1])
  }

  /** Dropping `w` throws: no worker of its purpose ever joined at this node. */
  predicate Fails(reg: Registry, known: set<Purpose>, limit: nat, w: WorkerId) {
    w in reg && Overdue(reg[w], limit) && reg[w].purpose !in known
  }

  /** `visited` are different workers, and only dropping the last of them may throw. */
  ghost predicate Passes(reg: Registry, known: set<Purpose>, limit: nat, visited: seq<WorkerId>) {
    && NoDup(visited) && (forall w :: w in visited ==> w in reg)
    && forall i :: 0 <= i < |visited| - 1 ==> !Fails(reg, known, limit, visited[i])
  }

  predicate Throws(reg: Registry, known: set<Purpose>, limit: nat, visited: seq<WorkerId>) {
    visited != [] && Fails(reg, known, limit, visited[|visited| - 1])
  }

  /** `visited` is one tick, in whatever order: it ends with the drop that throws, or has been through everybody. */
  ghost predicate IsTick(reg: Registry, known: set<Purpose>, limit: nat, visited: seq<WorkerId>) {
    && Passes(reg, known, limit, visited)
    && (Throws(reg, known, limit, visited) || forall w :: w in reg ==> w in visited)
  }

  /** Where a tick has not been yet, nothing has changed; where it has, the worker is counted or gone. */
  lemma {:induction false} VisitsAt(reg: Registry, visited: seq<WorkerId>, limit: nat, w: WorkerId)
    requires NoDup(visited)
    ensures var r := Visits(reg, visited, limit);
            && (w !in visited ==> (w in r <==> w in reg) && (w in reg ==> r[w] == reg[w]))
            && (w in visited ==> (w in r <==> w in reg && !Overdue(reg[w], limit)) && (w in r ==> r[w] == Counted(reg[w])))
    decreases |visited|
  {
    if visited != [] {
      var n := |visited| - 1;
      assert visited == visited[..n] + [visited[n]];
      VisitsAt(reg, visited[..n], limit, w);
    }
  }

  /** A tick that has been through everybody counts everybody and drops exactly the overdue. */
  lemma FullTick(reg: Registry, visited: seq<WorkerId>, limit: nat)
    requires NoDup(visited) && forall w :: w in visited <==> w in reg
    ensures Visits(reg, visited, limit) == Tick(reg, limit)
  {
    forall w ensures (w in Visits(reg, visited, limit) <==> w in Tick(reg, limit)) &&
                     (w in Tick(reg, limit) ==> Visits(reg, visited, limit)[w] == Tick(reg, limit)[w]) {
      VisitsAt(reg, visited, limit, w);
    }
  }

  /** A tick throws if and only if some overdue worker is of a purpose that is not known. */
  lemma TickThrowsIff(reg: Registry, known: set<Purpose>, limit: nat, visited: seq<WorkerId>)
    requires IsTick(reg, known, limit, visited)
    ensures Throws(reg, known, limit, visited) <==> exists w :: Fails(reg, known, limit, w)
  {
    if !Throws(reg, known, limit, visited) {
      forall w | w in reg ensures !Fails(reg, known, limit, w) {
        var i := IndexOf(visited, w);
        assert !Fails(reg, known, limit, visited[i]);
      }
    }
  }

  function RegistryAfter(reg: Registry, e: Entry): Registry {
    match e
    case WorkerJoin(p, w, _) => reg[w := Registration(p, 0)]
    case WorkerQuit(w) => reg - {w}
    case _ => reg
  }

  /** A replayed entry registers and drops the workers that it puts in and takes out of the table. */
  lemma RegistryFollowsTable(reg: Registry, t: Table, e: Entry)
    requires reg.Keys == t.Keys
    ensures RegistryAfter(reg, e).Keys == Replay(t, e).Keys
    ensures forall w :: w in RegistryAfter(reg, e) ==>
              RegistryAfter(reg, e)[w] == if e.WorkerJoin? && e.worker == w then Registration(e.purpose, 0) else reg[w]
  {}

  /** What an entry does to the table: who is in it, for which purpose, in which state, how loaded, and with which tasks. */
  lemma ReplayIs(t: Table, e: Entry, w: WorkerId)
    requires w in t ==> NoDup(t[w].worker.tasks)
    ensures w in Replay(t, e) <==> (w in t && e != WorkerQuit(w)) || (e.WorkerJoin? && e.worker == w)
    ensures w in Replay(t, e) ==>
              var r := Replay(t, e)[w];
              if e.WorkerJoin? && e.worker == w then r == Record(e.purpose, NewWorker(e.info))
              else
                && r.purpose == t[w].purpose && r.worker.info == t[w].worker.info
                && r.worker.state == (if e.WorkerState? && e.worker == w then e.state else t[w].worker.state)
                && r.worker.load == (if e.WorkerLoad? && e.worker == w then e.load else t[w].worker.load)
                && forall task :: task in r.worker.tasks <==>
                     (task in t[w].worker.tasks && e != WorkerLaydown(w, task)) ||
                     (e.WorkerPickup? && e.worker == w && task in e.tasks)
  {}

  /** The scheduler operation that an entry reports. */
  function OpOf(e: Entry): Op
    requires e.WorkerJoin? || e.WorkerQuit? || e.WorkerState? || e.WorkerLoad? || e.WorkerPickup? || e.WorkerLaydown?
  {
    match e
    case WorkerJoin(_, w, info) => OpAdd(w, info)
    case WorkerQuit(w) => OpRemove(w)
    case WorkerState(w, state) => OpState(w, state)
    case WorkerLoad(w, load) => OpLoad(w, load)
    case WorkerPickup(w, ts) => OpPickUp(w, ts)
    case WorkerLaydown(w, x) => OpLayDown(w, x)
  }

  /** Replaying an entry makes of the worker's record what the scheduler of its purpose makes of the worker itself. */
  lemma ReplayIsScheduling(t: Table, s: Sched, e: Entry, default: int)
    requires e.WorkerJoin? || e.WorkerQuit? || e.WorkerState? || e.WorkerLoad? || e.WorkerPickup? || e.WorkerLaydown?
    requires e.worker in t && e.worker in s.workers && t[e.worker].worker == s.workers[e.worker]
    ensures var r, u := After(s, OpOf(e), default).workers, Replay(t, e);
            (e.worker in r <==> e.worker in u) && (e.worker in u ==> r[e.worker] == u[e.worker].worker)
  {
    match e
    case WorkerPickup(w, ts) => PickUpWorkers(s, w, ts, default);
    case WorkerLaydown(w, x) => LayDownWorkers(s, w, x);
    case WorkerQuit(w) => assert Remove(s, w).workers == s.workers - {w};
    case _ =>
  }

  lemma LayDownWorkers(s: Sched, w: WorkerId, x: Task)
    ensures LayDown(s, w, x).workers ==
            if w in s.workers then s.workers[w := s.workers[w].(tasks := Without(s.workers[w].tasks, x))] else s.workers
  {
    if w in s.workers && x !in s.workers[w].tasks {
      assert s.workers[w].(tasks := s.workers[w].tasks) == s.workers[w];
    }
  }

  function Heard(reg: Registry, w: WorkerId): Registry {
    if w in reg then reg[w := reg[w].(aliveCount := 0)] else reg
  }

  /** The replicated worker table. Alive counts and bookings are not part of it. */
  ghost function TableOf(workers: Registry, schedulers: map<Purpose, Sched>): Table
    requires Coherent(workers, schedulers)
  {
    map w | w in workers :: Record(workers[w].purpose, schedulers[workers[w].purpose].workers[w])
  }

  ghost predicate Coherent(workers: Registry, schedulers: map<Purpose, Sched>) {
    forall w :: w in workers ==> workers[w].purpose in schedulers && w in schedulers[workers[w].purpose].workers
  }

  /** The scheduler a joining worker is added to; it is created on the first join for its purpose. */
  function SchedulerFor(schedulers: map<Purpose, Sched>, purpose: Purpose): Sched {
    if purpose in schedulers then schedulers[purpose] else EMPTY
  }

  lemma JoinCoherent(workers: Registry, schedulers: map<Purpose, Sched>, purpose: Purpose, w: WorkerId, info: Info)
    requires Coherent(workers, schedulers)
    ensures Coherent(workers[w := Registration(purpose, 0)],
                     schedulers[purpose := Add(SchedulerFor(schedulers, purpose), w, info)])
  {}

  /** All workers but `w` have the same purposes and are the same to their schedulers. */
  ghost predicate SameBut(workers: Registry, schedulers: map<Purpose, Sched>, workers': Registry,
                          schedulers': map<Purpose, Sched>, w: WorkerId)
    requires Coherent(workers, schedulers) && Coherent(workers', schedulers')
  {
    && workers'.Keys == workers.Keys + {w}
    && forall v :: v in workers && v != w ==>
         workers'[v].purpose == workers[v].purpose &&
         schedulers'[workers[v].purpose].workers[v] == schedulers[workers[v].purpose].workers[v]
  }

  lemma OneRecord(workers: Registry, schedulers: map<Purpose, Sched>, workers': Registry,
                  schedulers': map<Purpose, Sched>, w: WorkerId)
    requires Coherent(workers, schedulers) && Coherent(workers', schedulers')
    requires SameBut(workers, schedulers, workers', schedulers', w)
    ensures w in workers' &&
            TableOf(workers', schedulers') ==
            TableOf(workers, schedulers)[w := Record(workers'[w].purpose, schedulers'[workers'[w].purpose].workers[w])]
  {
    assert w in workers'.Keys;
  }

  lemma JoinSameBut(workers: Registry, schedulers: map<Purpose, Sched>, purpose: Purpose, w: WorkerId, info: Info)
    requires Coherent(workers, schedulers)
    ensures var workers' := workers[w := Registration(purpose, 0)];
            var schedulers' := schedulers[purpose := Add(SchedulerFor(schedulers, purpose), w, info)];
            Coherent(workers', schedulers') && SameBut(workers, schedulers, workers', schedulers', w)
  {
    JoinCoherent(workers, schedulers, purpose, w, info);
  }

  lemma JoinTable(workers: Registry, schedulers: map<Purpose, Sched>, purpose: Purpose, w: WorkerId, info: Info)
    requires Coherent(workers, schedulers)
    ensures var workers' := workers[w := Registration(purpose, 0)];
            var schedulers' := schedulers[purpose := Add(SchedulerFor(schedulers, purpose), w, info)];
            && Coherent(workers', schedulers')
            && TableOf(workers', schedulers') == TableOf(workers, schedulers)[w := Record(purpose, NewWorker(info))]
  {
    var s := Add(SchedulerFor(schedulers, purpose), w, info);
    JoinSameBut(workers, schedulers, purpose, w, info);
    OneRecord(workers, schedulers, workers[w := Registration(purpose, 0)], schedulers[purpose := s], w);
  }

  lemma QuitTable(workers: Registry, schedulers: map<Purpose, Sched>, w: WorkerId, s: Sched)
    requires Coherent(workers, schedulers) && w in workers
    requires s.workers == schedulers[workers[w].purpose].workers - {w}
    ensures var schedulers' := schedulers[workers[w].purpose := s];
            && Coherent(workers - {w}, schedulers')
            && TableOf(workers - {w}, schedulers') == TableOf(workers, schedulers) - {w}
  {}

  /** A scheduler operation that touches one registered worker at most touches only its record. */
  lemma OneWorkerChanges(workers: Registry, schedulers: map<Purpose, Sched>, w: WorkerId, s: Sched, x: Worker)
    requires Coherent(workers, schedulers)
    requires w in workers && s.workers == schedulers[workers[w].purpose].workers[w := x]
    ensures var schedulers' := schedulers[workers[w].purpose := s];
            && Coherent(workers, schedulers')
            && TableOf(workers, schedulers') == TableOf(workers, schedulers)[w := Record(workers[w].purpose, x)]
  {}

  class Manager {
    const scheduleReserveTime: int
    const checkAliveCount: nat

    var workers: Registry
    var schedulers: map<Purpose, Sched>
    /** The purposes this very node has seen a worker join for, with those workers. */
    var clusterInfo: map<Purpose, set<WorkerId>>
    var freshman: bool
    /** Whether an update callback is registered, and what it was given. */
    var synchronizing: bool
    var published: seq<Entry>

    /** Every registered worker is known to the scheduler of its purpose. */
    ghost predicate Valid()
      reads this
    {
      Coherent(workers, schedulers)
    }

    ghost function View(): Table
      reads this
      requires Valid()
    {
      TableOf(workers, schedulers)
    }

    /** Every registered purpose was joined here, so that no deletion from `clusterInfo` can fail. */
    ghost predicate KnowsPurposes()
      reads this
    {
      forall w :: w in workers ==> workers[w].purpose in clusterInfo
    }

    /** What a served update sends on. */
    twostate predicate Sent(e: Entry)
      reads this
    {
      synchronizing == old(synchronizing) && published == if synchronizing then old(published) + [e] else old(published)
    }

    constructor (scheduleReserveTime: int, checkAliveCount: nat)
      ensures Valid() && View() == map[] && KnowsPurposes() && freshman && !synchronizing && published == []
      ensures workers == map[] && schedulers == map[] && clusterInfo == map[]
      ensures this.checkAliveCount == checkAliveCount
    {
      this.scheduleReserveTime, this.checkAliveCount := scheduleReserveTime, checkAliveCount;
      workers, schedulers, clusterInfo := map[], map[], map[];
      freshman, synchronizing, published := true, false, [];
    }

    method Synchronize(e: Entry)
      modifies this`published
      ensures Sent(e)
    {
      if synchronizing {
        published := published + [e];
      }
    }

    method Enter(purpose: Purpose, w: WorkerId, info: Info)
      requires Valid()
      modifies this`workers, this`schedulers
      ensures Valid() && View() == old(View())[w := Record(purpose, NewWorker(info))]
      ensures workers == old(workers)[w := Registration(purpose, 0)]
    {
      JoinTable(workers, schedulers, purpose, w, info);
      schedulers := schedulers[purpose := Add(SchedulerFor(schedulers, purpose), w, info)];
      workers := workers[w := Registration(purpose, 0)];
    }

    method Know(purpose: Purpose, w: WorkerId)
      modifies this`clusterInfo
      ensures clusterInfo.Keys == old(clusterInfo).Keys + {purpose} && w in clusterInfo[purpose]
    {
      if purpose !in clusterInfo {
        clusterInfo := clusterInfo[purpose := {}];
      }
      clusterInfo := clusterInfo[purpose := clusterInfo[purpose] + {w}];
    }

    /** A joining worker replaces whatever was registered under its id. */
    method Join(purpose: Purpose, w: WorkerId, info: Info)
      requires Valid()
      modifies this
      ensures Valid() && View() == Replay(old(View()), WorkerJoin(purpose, w, info)) && Sent(WorkerJoin(purpose, w, info))
      ensures workers == old(workers)[w := Registration(purpose, 0)] && freshman == old(freshman)
      ensures clusterInfo.Keys == old(clusterInfo).Keys + {purpose}
    {
      Enter(purpose, w, info);
      Know(purpose, w);
      Synchronize(WorkerJoin(purpose, w, info));
    }

    method Forget(w: WorkerId)
      requires Valid() && w in workers
      modifies this`workers, this`schedulers
      ensures Valid() && View() == old(View()) - {w} && workers == old(workers) - {w}
    {
      var purpose := workers[w].purpose;
      QuitTable(workers, schedulers, w, Remove(schedulers[purpose], w));
      schedulers := schedulers[purpose := Remove(schedulers[purpose], w)];
      workers := workers - {w};
    }

    /**
     Answers whether an exception was thrown: at once for an unknown worker, and after everything was done
     for a purpose that `clusterInfo` does not hold.
     */
    method Quit(w: WorkerId) returns (thrown: bool)
      requires Valid()
      modifies this
      ensures Valid() && View() == Replay(old(View()), WorkerQuit(w))
      ensures workers == old(workers) - {w} && clusterInfo.Keys == old(clusterInfo).Keys && freshman == old(freshman)
      ensures thrown <==> w !in old(workers) || old(workers)[w].purpose !in clusterInfo
      ensures w in old(workers) ==> Sent(WorkerQuit(w))
      ensures w !in old(workers) ==> synchronizing == old(synchronizing) && published == old(published)
    {
      if w !in workers {
        return true;
      }
      var purpose := workers[w].purpose;
      Forget(w);
      Synchronize(WorkerQuit(w));
      if purpose !in clusterInfo {
        return true;
      }
      clusterInfo := clusterInfo[purpose := clusterInfo[purpose] - {w}];
      return false;
    }

    /** The update methods of one registered worker share this frame. */
    twostate predicate OnlySchedulers()
      reads this
    {
      workers == old(workers) && clusterInfo == old(clusterInfo) && freshman == old(freshman)
    }

    method ReportState(w: WorkerId, state: Option<int>)
      requires Valid()
      modifies this
      ensures Valid() && View() == Replay(old(View()), WorkerState(w, state))
      ensures Sent(WorkerState(w, state)) && OnlySchedulers()
    {
      if w in workers {
        var s := schedulers[workers[w].purpose];
        OneWorkerChanges(workers, schedulers, w, SetState(s, w, state), s.workers[w].(state := state));
        schedulers := schedulers[workers[w].purpose := SetState(s, w, state)];
      }
      Synchronize(WorkerState(w, state));
    }

    method ReportLoad(w: WorkerId, load: real)
      requires Valid()
      modifies this
      ensures Valid() && View() == Replay(old(View()), WorkerLoad(w, load))
      ensures Sent(WorkerLoad(w, load)) && OnlySchedulers()
    {
      if w in workers {
        var s := schedulers[workers[w].purpose];
        OneWorkerChanges(workers, schedulers, w, SetLoad(s, w, load), s.workers[w].(load := load));
        schedulers := schedulers[workers[w].purpose := SetLoad(s, w, load)];
      }
      Synchronize(WorkerLoad(w, load));
    }

    method PickUpTasks(w: WorkerId, tasks: seq<Task>)
      requires Valid()
      modifies this
      ensures Valid() && View() == Replay(old(View()), WorkerPickup(w, tasks))
      ensures Sent(WorkerPickup(w, tasks)) && OnlySchedulers()
    {
      if w in workers {
        var s := schedulers[workers[w].purpose];
        var s' := PickUp(s, w, tasks, scheduleReserveTime);
        PickUpWorkers(s, w, tasks, scheduleReserveTime);
        OneWorkerChanges(workers, schedulers, w, s', s.workers[w].(tasks := AfterPickUp(s.workers[w].tasks, tasks)));
        schedulers := schedulers[workers[w].purpose := s'];
      }
      Synchronize(WorkerPickup(w, tasks));
    }

    method LayDownTask(w: WorkerId, task: Task)
      requires Valid()
      modifies this
      ensures Valid() && View() == Replay(old(View()), WorkerLaydown(w, task))
      ensures Sent(WorkerLaydown(w, task)) && OnlySchedulers()
    {
      if w in workers {
        var s := schedulers[workers[w].purpose];
        var left := Without(s.workers[w].tasks, task);
        OneWorkerChanges(workers, schedulers, w, LayDown(s, w, task), s.workers[w].(tasks := left));
        schedulers := schedulers[workers[w].purpose := LayDown(s, w, task)];
      }
      Synchronize(WorkerLaydown(w, task));
    }

    method UnscheduleTask(w: WorkerId, task: Task)
      requires Valid()
      modifies this
      ensures Valid() && View() == Replay(old(View()), Unscheduled(w, task))
      ensures Sent(Unscheduled(w, task)) && OnlySchedulers()
    {
      if w in workers {
        var s := schedulers[workers[w].purpose];
        assert Unschedule(s, w, task).workers == s.workers[w := s.workers[w]];
        OneWorkerChanges(workers, schedulers, w, Unschedule(s, w, task), s.workers[w]);
        schedulers := schedulers[workers[w].purpose := Unschedule(s, w, task)];
      }
      Synchronize(Unscheduled(w, task));
    }

    /** A follower books without a timer. */
    method SetScheduled(purpose: Purpose, task: Task, w: WorkerId, reserveTime: int)
      requires Valid()
      modifies this`schedulers
      ensures Valid() && View() == old(View())
    {
      if purpose in schedulers {
        var s := schedulers[purpose];
        schedulers := schedulers[purpose := s.(tasks := s.tasks[task := Booking(Some(w), reserveTime, None)])];
      }
    }

    /**
     What a follower does with a replicated entry: unless it is a freshman its worker table becomes exactly
     the replayed one, exceptions included.
     */
    method SetUpdatedData(e: Entry)
      requires Valid()
      modifies this
      ensures Valid() && View() == if freshman then old(View()) else Replay(old(View()), e)
      ensures freshman == old(freshman)
      ensures workers == if freshman then old(workers) else RegistryAfter(old(workers), e)
      ensures clusterInfo.Keys == old(clusterInfo).Keys + if !freshman && e.WorkerJoin? then {e.purpose} else {}
    {
      if freshman {
        return;
      }
      match e
      case WorkerJoin(p, w, i) => Join(p, w, i);
      case WorkerQuit(w) => var thrown := Quit(w);
      case WorkerState(w, s) => ReportState(w, s);
      case WorkerLoad(w, l) => ReportLoad(w, l);
      case WorkerPickup(w, ts) => PickUpTasks(w, ts);
      case WorkerLaydown(w, t) => LayDownTask(w, t);
      case Scheduled(p, t, w, r) => SetScheduled(p, t, w, r);
      case Unscheduled(w, t) => UnscheduleTask(w, t);
    }

    /** A snapshot replaces the registry and the schedulers it names; `clusterInfo` is not part of it. */
    method SetRuntimeData(data: Registry, purposes: map<Purpose, Sched>)
      requires Coherent(data, purposes)
      modifies this
      ensures Valid() && View() == TableOf(data, purposes) && !freshman
      ensures workers == data && clusterInfo == old(clusterInfo)
    {
      freshman := false;
      workers := data;
      schedulers := schedulers + purposes;
    }

    method KeepAlive(w: WorkerId) returns (known: bool)
      modifies this`workers
      ensures workers == Heard(old(workers), w) && known == (w in workers)
    {
      if w in workers {
        workers := workers[w := workers[w].(aliveCount := 0)];
        return true;
      }
      return false;
    }

    method Count(w: WorkerId)
      requires Valid() && w in workers
      modifies this`workers
      ensures Valid() && View() == old(View()) && workers == old(workers)[w := Counted(old(workers)[w])]
    {
      CountTable(workers, schedulers, w);
      workers := workers[w := workers[w].(aliveCount := workers[w].aliveCount + 1)];
    }

    /** One round of `checkAlive`. */
    method CheckWorker(w: WorkerId) returns (thrown: bool)
      requires Valid() && w in workers
      modifies this
      ensures Valid() && workers == Visit(old(workers), w, checkAliveCount)
      ensures thrown <==> Fails(old(workers), old(clusterInfo).Keys, checkAliveCount, w)
      ensures clusterInfo.Keys == old(clusterInfo).Keys && freshman == old(freshman)
      ensures Overdue(old(workers)[w], checkAliveCount) ==>
                View() == Replay(old(View()), WorkerQuit(w)) && Sent(WorkerQuit(w))
      ensures !Overdue(old(workers)[w], checkAliveCount) ==>
                View() == old(View()) && synchronizing == old(synchronizing) && published == old(published)
    {
      Count(w);
      thrown := false;
      if workers[w].aliveCount > checkAliveCount {
        thrown := Quit(w);
      }
    }

    /** A tick that began with these tables and entries has been through `visited`. */
    ghost predicate Halfway(reg: Registry, table: Table, sent: seq<Entry>, visited: seq<WorkerId>)
      reads this
    {
      var gone := Departures(reg, visited, checkAliveCount);
      && Valid() && workers == Visits(reg, visited, checkAliveCount) && View() == ReplayAll(table, gone)
      && published == sent + if synchronizing then gone else []
    }

    method CheckNext(w: WorkerId, ghost reg: Registry, ghost table: Table, ghost sent: seq<Entry>,
                     ghost visited: seq<WorkerId>)
      returns (thrown: bool)
      requires Halfway(reg, table, sent, visited) && w in reg && w !in visited
      requires Passes(reg, clusterInfo.Keys, checkAliveCount, visited)
      requires !Throws(reg, clusterInfo.Keys, checkAliveCount, visited)
      modifies this
      ensures Halfway(reg, table, sent, visited + [w])
      ensures Passes(reg, clusterInfo.Keys, checkAliveCount, visited + [w])
      ensures thrown <==> Throws(reg, clusterInfo.Keys, checkAliveCount, visited + [w])
      ensures clusterInfo.Keys == old(clusterInfo).Keys && synchronizing == old(synchronizing) && freshman == old(freshman)
    {
      RoundStep(table, reg, clusterInfo.Keys, checkAliveCount, visited, w);
      thrown := CheckWorker(w);
    }

    /**
     One tick of the failure detector. `visited` are the workers it came to, in the order in which the registry lists
     them; the first of them whose drop throws is the last. The table changes by the departures, which are sent on.
     */
    method CheckAlive() returns (thrown: bool, ghost visited: seq<WorkerId>)
      requires Valid()
      modifies this
      ensures IsTick(old(workers), old(clusterInfo).Keys, checkAliveCount, visited)
      ensures thrown <==> Throws(old(workers), old(clusterInfo).Keys, checkAliveCount, visited)
      ensures Valid() && workers == Visits(old(workers), visited, checkAliveCount)
      ensures View() == ReplayAll(old(View()), Departures(old(workers), visited, checkAliveCount))
      ensures synchronizing == old(synchronizing)
      ensures published == old(published) +
                if synchronizing then Departures(old(workers), visited, checkAliveCount) else []
      ensures clusterInfo.Keys == old(clusterInfo).Keys && freshman == old(freshman)
    {
      ghost var reg, table, sent := workers, View(), published;
      visited, thrown := [], false;
      var left := workers.Keys;
      while left != {} && !thrown
        invariant Halfway(reg, table, sent, visited)
        invariant forall w :: w in left <==> w in reg && w !in visited
        invariant Passes(reg, clusterInfo.Keys, checkAliveCount, visited)
        invariant thrown <==> Throws(reg, clusterInfo.Keys, checkAliveCount, visited)
        invariant clusterInfo.Keys == old(clusterInfo).Keys
        invariant synchronizing == old(synchronizing) && freshman == old(freshman)
        decreases left
      {
        ghost var some := Member(left);
        var w :| w in left;
        thrown := CheckNext(w, reg, table, sent, visited);
        visited := visited + [w];
        left := left - {w};
      }
    }
  }

  lemma CountTable(workers: Registry, schedulers: map<Purpose, Sched>, w: WorkerId)
    requires Coherent(workers, schedulers) && w in workers
    ensures Coherent(workers[w := Counted(workers[w])], schedulers)
    ensures TableOf(workers[w := Counted(workers[w])], schedulers) == TableOf(workers, schedulers)
  {}

  lemma PassesOn(reg: Registry, known: set<Purpose>, limit: nat, visited: seq<WorkerId>, w: WorkerId)
    requires Passes(reg, known, limit, visited) && !Throws(reg, known, limit, visited) && w in reg && w !in visited
    ensures Passes(reg, known, limit, visited + [w])
    ensures Visits(reg, visited + [w], limit) == Visit(Visits(reg, visited, limit), w, limit)
  {
    assert (visited + [w])[..|visited|] == visited;
  }

  /** One more departure, published and replayed last. */
  lemma DepartureStep(t: Table, reg: Registry, visited: seq<WorkerId>, limit: nat, w: WorkerId)
    ensures var before, after := Departures(reg, visited, limit), Departures(reg, visited + [w], limit);
            && after == before + (if w in reg && Overdue(reg[w], limit) then [WorkerQuit(w)] else [])
            && ReplayAll(t, before + [WorkerQuit(w)]) == Replay(ReplayAll(t, before), WorkerQuit(w))
  {
    assert (visited + [w])[..|visited|] == visited;
    var before := Departures(reg, visited, limit);
    assert (before + [WorkerQuit(w)])[..|before|] == before;
  }

  /** What a round of a tick adds to a tick that has not thrown yet. */
  lemma RoundStep(t: Table, reg: Registry, known: set<Purpose>, limit: nat, visited: seq<WorkerId>, w: WorkerId)
    requires Passes(reg, known, limit, visited) && !Throws(reg, known, limit, visited) && w in reg && w !in visited
    ensures var now, next := visited, visited + [w];
            && Passes(reg, known, limit, next) && (Throws(reg, known, limit, next) <==> Fails(reg, known, limit, w))
            && w in Visits(reg, now, limit) && Visits(reg, now, limit)[w] == reg[w]
            && Visits(reg, next, limit) == Visit(Visits(reg, now, limit), w, limit)
            && (Overdue(reg[w], limit) ==>
                  && Departures(reg, next, limit) == Departures(reg, now, limit) + [WorkerQuit(w)]
                  && ReplayAll(t, Departures(reg, next, limit)) ==
                     Replay(ReplayAll(t, Departures(reg, now, limit)), WorkerQuit(w)))
            && (!Overdue(reg[w], limit) ==> Departures(reg, next, limit) == Departures(reg, now, limit))
  {
    VisitsAt(reg, visited, limit, w);
    PassesOn(reg, known, limit, visited, w);
    DepartureStep(t, reg, visited, limit, w);
  }
}
