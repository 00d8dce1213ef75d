/** The booking scheduler of one purpose, as a value with one function for each operation. */
module SchedulerModel {
  import opened Common
  import opened WorkerTypes

  /**
   A booked task. The worker is `None` when a strategy found nobody and the task was booked on `undefined`.
   `timer` is the handle kept in the record; it may have been cleared.
   */
  datatype Booking = Booking(worker: Option<WorkerId>, reserveTime: int, timer: Option<nat>)

  /** `order` is the order in which JavaScript enumerates the workers; `timers` maps live timers to their tasks. */
  datatype Sched = Sched(
    order: seq<WorkerId>, workers: map<WorkerId, Worker>,
    tasks: map<Task, Booking>, timers: map<nat, Task>, nextTimer: nat)

  const EMPTY := Sched([], map[], map[], map[], 0)

  // The four primitives

  function ClearTimer(timers: map<nat, Task>, timer: Option<nat>): map<nat, Task> {
    if timer.Some? then timers - {timer.value} else timers
  }

  function OwnTimer(s: Sched, t: Task): Option<nat> {
    if t in s.tasks then s.tasks[t].timer else None
  }

  function Reserve(s: Sched, t: Task, w: Option<WorkerId>, time: int): Sched {
    s.(tasks := s.tasks[t := Booking(w, time, Some(s.nextTimer))],
       timers := ClearTimer(s.timers, OwnTimer(s, t))[s.nextTimer := t],
       nextTimer := s.nextTimer + 1)
  }

  function Repeal(s: Sched, t: Task): Sched {
    s.(tasks := s.tasks - {t}, timers := ClearTimer(s.timers, OwnTimer(s, t)))
  }

  /** The handle of a cleared timer stays in the record. */
  function Execute(s: Sched, w: WorkerId, t: Task, reserveTime: int): Sched {
    if w !in s.workers then s
    else
      s.(workers := s.workers[w := s.workers[w].(tasks := Pushed(s.workers[w].tasks, t))],
         timers := ClearTimer(s.timers, OwnTimer(s, t)),
         tasks := s.tasks[t := if t in s.tasks then s.tasks[t].(worker := Some(w)) else Booking(Some(w), reserveTime, None)])
  }

  function Cancel(s: Sched, w: WorkerId, t: Task): Sched {
    var held := w in s.workers && t in s.workers[w].tasks;
    var s' := if held then s.(workers := s.workers[w := s.workers[w].(tasks := Without(s.workers[w].tasks, t))]) else s;
    if t !in s.tasks then s'
    else if held then Reserve(s', t, Some(w), s.tasks[t].reserveTime)
    else Repeal(s', t)
  }

  // The operations

  function Add(s: Sched, w: WorkerId, info: Info): Sched {
    s.(order := Pushed(s.order, w), workers := s.workers[w := NewWorker(info)])
  }

  /** Repeals those of `ts` that are booked on `w`, in order. */
  function RepealHeld(s: Sched, w: WorkerId, ts: seq<Task>): (r: Sched)
    ensures r.workers == s.workers && r.order == s.order && r.nextTimer == s.nextTimer
    decreases |ts|
  {
    if ts == [] then s
    else
      var p := RepealHeld(s, w, ts[..|ts| - 1]);
      var t := ts[|ts| - 1];
      if t in p.tasks && p.tasks[t].worker == Some(w) then Repeal(p, t) else p
  }

  function Remove(s: Sched, w: WorkerId): Sched {
    if w !in s.workers then s
    else RepealHeld(s, w, s.workers[w].tasks).(workers := s.workers - {w}, order := Without(s.order, w))
  }

  function SetState(s: Sched, w: WorkerId, state: Option<int>): Sched {
    if w in s.workers then s.(workers := s.workers[w := s.workers[w].(state := state)]) else s
  }

  function SetLoad(s: Sched, w: WorkerId, load: real): Sched {
    if w in s.workers then s.(workers := s.workers[w := s.workers[w].(load := load)]) else s
  }

  function PickUp(s: Sched, w: WorkerId, ts: seq<Task>, reserveTime: int): Sched
    decreases |ts|
  {
    if ts == [] then s else Execute(PickUp(s, w, ts[..|ts| - 1], reserveTime), w, ts[|ts| - 1], reserveTime)
  }

  function LayDown(s: Sched, w: WorkerId, t: Task): Sched {
    if w in s.workers then Cancel(s, w, t) else s
  }

  function Unschedule(s: Sched, w: WorkerId, t: Task): Sched {
    if t in s.tasks && s.tasks[t].worker == Some(w) then Repeal(s, t) else s
  }

  function Fire(s: Sched, timer: nat): Sched {
    if timer in s.timers then Repeal(s.(timers := s.timers - {timer}), s.timers[timer]) else s
  }

  /** The task is booked on a worker that is registered: `schedule` answers that worker. */
  predicate Held(s: Sched, t: Task) {
    t in s.tasks && s.tasks[t].worker.Some? && s.tasks[t].worker.value in s.workers
  }

  predicate Executing(s: Sched, t: Task) {
    Held(s, t) && t in s.workers[s.tasks[t].worker.value].tasks
  }

  /** `reserveTime && old < reserveTime ? reserveTime : old`. */
  function LongerTime(old_: int, reserveTime: Option<int>): int {
    if reserveTime.Some? && reserveTime.value != 0 && old_ < reserveTime.value then reserveTime.value else old_
  }

  function FreshTime(reserveTime: Option<int>, default: int): int {
    if reserveTime.Some? && reserveTime.value > 0 then reserveTime.value else default
  }

  function ScheduleHeld(s: Sched, t: Task, reserveTime: Option<int>): Sched
    requires Held(s, t)
  {
    var time := LongerTime(s.tasks[t].reserveTime, reserveTime);
    if Executing(s, t) then s.(tasks := s.tasks[t := s.tasks[t].(reserveTime := time)])
    else Reserve(s, t, s.tasks[t].worker, time)
  }

  /** A booking on a worker that is gone is dropped before a new worker is looked for. */
  function DropStale(s: Sched, t: Task): Sched {
    if t in s.tasks && !Held(s, t) then Repeal(s, t) else s
  }

  /** How the search for a new worker ended; `Allocated(None)` is the strategy finding nobody. */
  datatype Outcome = NoWorker | Allocated(found: Option<WorkerId>)

  function Schedule(s: Sched, t: Task, reserveTime: Option<int>, default: int, outcome: Outcome): Sched {
    if Held(s, t) then ScheduleHeld(s, t, reserveTime)
    else
      match outcome
      case NoWorker => DropStale(s, t)
      case Allocated(found) => Reserve(DropStale(s, t), t, found, FreshTime(reserveTime, default))
  }

  // Runs

  datatype Op =
    | OpAdd(worker: WorkerId, info: Info)
    | OpRemove(worker: WorkerId)
    | OpState(worker: WorkerId, state: Option<int>)
    | OpLoad(worker: WorkerId, load: real)
    | OpPickUp(worker: WorkerId, tasks: seq<Task>)
    | OpLayDown(worker: WorkerId, task: Task)
    | OpUnschedule(worker: WorkerId, task: Task)
    | OpSchedule(task: Task, reserveTime: Option<int>, outcome: Outcome)
    | OpFire(timer: nat)

  function After(s: Sched, op: Op, default: int): Sched {
    match op
    case OpAdd(w, i) => Add(s, w, i)
    case OpRemove(w) => Remove(s, w)
    case OpState(w, st) => SetState(s, w, st)
    case OpLoad(w, l) => SetLoad(s, w, l)
    case OpPickUp(w, ts) => PickUp(s, w, ts, default)
    case OpLayDown(w, t) => LayDown(s, w, t)
    case OpUnschedule(w, t) => Unschedule(s, w, t)
    case OpSchedule(t, r, o) => Schedule(s, t, r, default, o)
    case OpFire(id) => Fire(s, id)
  }

  function AfterAll(s: Sched, ops: seq<Op>, default: int): Sched
    decreases |ops|
  {
    if ops == [] then s else After(AfterAll(s, ops[..|ops| - 1], default), ops[|ops| - 1], default)
  }

  // Availability

  predicate Available(w: Worker) {
    w.info.maxLoad.Some? && w.load < w.info.maxLoad.value && (w.state == None || w.state == Some(2))
  }

  /** The available workers in enumeration order. */
  function Candidates(order: seq<WorkerId>, workers: map<WorkerId, Worker>): (r: seq<WorkerId>)
    ensures forall w :: w in r <==> w in order && w in workers && Available(workers[w])
    decreases |order|
  {
    if order == [] then []
    else
      var n := |order| - 1;
      var w := order[n];
      Candidates(order[..n], workers) + if w in workers && Available(workers[w]) then [w] else []
  }

  /** The enumeration order lists exactly the registered workers, once each. */
  ghost predicate Ordered(s: Sched) {
    NoDup(s.order) && forall w :: w in s.order <==> w in s.workers
  }
}
