/** What the scheduler keeps over whole runs: no orphaned bookings, sticky answers, honest availability. */
module SchedulerProperties {
  import opened Common
  import opened WorkerTypes
  import opened SchedulerModel

  ghost predicate TimerLive(s: Sched, t: Task) {
    t in s.tasks && s.tasks[t].timer.Some? && s.tasks[t].timer.value in s.timers && s.timers[s.tasks[t].timer.value] == t
  }

  /**
   The booking is backed: its worker executes the task or its timer will end it. Asked of `all` bookings, or only of
   those on registered workers: a scheduler that took over a snapshot may hold others, which nothing ends.
   */
  ghost predicate Backed(s: Sched, t: Task, all: bool) {
    (if all then t in s.tasks else Held(s, t)) ==> Executing(s, t) || TimerLive(s, t)
  }

  ghost predicate ListsDistinct(s: Sched) {
    forall w :: w in s.workers ==> NoDup(s.workers[w].tasks)
  }

  /** Every live timer is the one in the record of its task. */
  ghost predicate TimersOwned(s: Sched) {
    forall id :: id in s.timers ==>
      id < s.nextTimer && s.timers[id] in s.tasks && s.tasks[s.timers[id]].timer == Some(id)
  }

  /** Handles are drawn from a counter, so no two records share one. */
  ghost predicate Handles(s: Sched) {
    && (forall t :: t in s.tasks && s.tasks[t].timer.Some? ==> s.tasks[t].timer.value < s.nextTimer)
    && (forall t, u :: t in s.tasks && u in s.tasks && s.tasks[t].timer.Some? && s.tasks[t].timer == s.tasks[u].timer
                       ==> t == u)
  }

  ghost predicate Sound(s: Sched, all: bool) {
    (forall t :: Backed(s, t, all)) && ListsDistinct(s) && TimersOwned(s) && Handles(s)
  }

  /** Sound but for the backing of one booking. */
  ghost predicate SoundBut(s: Sched, t: Task, all: bool) {
    (forall u :: u != t ==> Backed(s, u, all)) && ListsDistinct(s) && TimersOwned(s) && Handles(s)
  }

  /** All bookings are backed if and only if those on registered workers are and the others have timers. */
  lemma SoundIff(s: Sched)
    ensures Sound(s, true) <==> Sound(s, false) && forall t :: t in s.tasks ==> Held(s, t) || TimerLive(s, t)
  {
    if Sound(s, true) {
      forall t ensures Backed(s, t, false) {
        assert Backed(s, t, true);
      }
      forall t | t in s.tasks ensures Held(s, t) || TimerLive(s, t) {
        assert Backed(s, t, true);
      }
    } else if Sound(s, false) {
      var t :| !Backed(s, t, true);
      assert Backed(s, t, false);
    }
  }

  // Primitives

  lemma ReserveSound(s: Sched, t: Task, w: Option<WorkerId>, time: int, all: bool)
    requires SoundBut(s, t, all)
    ensures Sound(Reserve(s, t, w, time), all)
  {
    var r := Reserve(s, t, w, time);
    forall u | u != t ensures Backed(r, u, all) {
      assert Backed(s, u, all);
    }
  }

  lemma RepealSound(s: Sched, t: Task, all: bool)
    requires SoundBut(s, t, all)
    ensures Sound(Repeal(s, t), all)
  {
    var r := Repeal(s, t);
    forall u ensures Backed(r, u, all) {
      assert u != t ==> Backed(s, u, all);
    }
  }

  lemma ExecuteBacks(s: Sched, w: WorkerId, t: Task, time: int, all: bool)
    requires Sound(s, all)
    ensures forall u :: Backed(Execute(s, w, t, time), u, all)
  {
    var r := Execute(s, w, t, time);
    forall u ensures Backed(r, u, all) {
      assert Backed(s, u, all);
    }
  }

  lemma ExecuteSound(s: Sched, w: WorkerId, t: Task, time: int, all: bool)
    requires Sound(s, all)
    ensures Sound(Execute(s, w, t, time), all)
  {
    ExecuteBacks(s, w, t, time, all);
  }

  lemma CancelSound(s: Sched, w: WorkerId, t: Task, all: bool)
    requires Sound(s, all)
    ensures Sound(Cancel(s, w, t), all)
  {
    var held := w in s.workers && t in s.workers[w].tasks;
    var s' := if held then s.(workers := s.workers[w := s.workers[w].(tasks := Without(s.workers[w].tasks, t))]) else s;
    forall u | u != t ensures Backed(s', u, all) {
      assert Backed(s, u, all);
    }
    if t in s.tasks {
      if held {
        ReserveSound(s', t, Some(w), s.tasks[t].reserveTime, all);
      } else {
        RepealSound(s', t, all);
      }
    }
  }

  // Operations

  lemma {:induction false} PickUpSound(s: Sched, w: WorkerId, ts: seq<Task>, time: int, all: bool)
    requires Sound(s, all)
    ensures Sound(PickUp(s, w, ts, time), all)
    decreases |ts|
  {
    if ts != [] {
      PickUpSound(s, w, ts[..|ts| - 1], time, all);
      ExecuteSound(PickUp(s, w, ts[..|ts| - 1], time), w, ts[|ts| - 1], time, all);
    }
  }

  lemma {:induction false} RepealHeldSound(s: Sched, w: WorkerId, ts: seq<Task>, all: bool)
    requires Sound(s, all)
    ensures Sound(RepealHeld(s, w, ts), all)
    ensures forall t :: t in RepealHeld(s, w, ts).tasks ==>
              t in s.tasks && RepealHeld(s, w, ts).tasks[t] == s.tasks[t] && (t in ts ==> s.tasks[t].worker != Some(w))
    decreases |ts|
  {
    if ts != [] {
      var n := |ts| - 1;
      RepealHeldSound(s, w, ts[..n], all);
      RepealSound(RepealHeld(s, w, ts[..n]), ts[n], all);
    }
  }

  lemma RemoveSound(s: Sched, w: WorkerId, all: bool)
    requires Sound(s, all)
    ensures Sound(Remove(s, w), all)
  {
    if w in s.workers {
      var p := RepealHeld(s, w, s.workers[w].tasks);
      var r := Remove(s, w);
      RepealHeldSound(s, w, s.workers[w].tasks, all);
      forall t ensures Backed(r, t, all) {
        assert Backed(p, t, all);
      }
    }
  }

  /** A booking that names `w` and has no live timer. */
  ghost predicate HeldOnlyBy(s: Sched, w: WorkerId, t: Task) {
    t in s.tasks && s.tasks[t].worker == Some(w) && !TimerLive(s, t)
  }

  /**
   A worker may join exactly if every booking that names its id has a live timer: none that lives on the list which the
   join wipes, and none that was left behind without a timer by a worker of that id. Where all bookings are backed, a
   new id is always free.
   */
  lemma AddKeepsBookingsIff(s: Sched, w: WorkerId, info: Info, all: bool)
    requires Sound(s, all)
    ensures Sound(Add(s, w, info), all) <==> !exists t :: HeldOnlyBy(s, w, t)
    ensures all && w !in s.workers ==> Sound(Add(s, w, info), all)
  {
    var r := Add(s, w, info);
    if t :| HeldOnlyBy(s, w, t) {
      assert Backed(s, t, all);
      assert !Backed(r, t, all);
    } else {
      forall t ensures Backed(r, t, all) {
        assert Backed(s, t, all) && !HeldOnlyBy(s, w, t);
      }
    }
  }

  lemma AttributesSound(s: Sched, w: WorkerId, w': Worker, all: bool)
    requires Sound(s, all) && w in s.workers && w'.tasks == s.workers[w].tasks
    ensures Sound(s.(workers := s.workers[w := w']), all)
  {
    var r := s.(workers := s.workers[w := w']);
    forall t ensures Backed(r, t, all) {
      assert Backed(s, t, all);
    }
  }

  lemma FireSound(s: Sched, id: nat, all: bool)
    requires Sound(s, all)
    ensures Sound(Fire(s, id), all)
  {
    if id in s.timers {
      var p := s.(timers := s.timers - {id});
      forall u | u != s.timers[id] ensures Backed(p, u, all) {
        assert Backed(s, u, all);
      }
      RepealSound(p, s.timers[id], all);
    }
  }

  lemma ScheduleSound(s: Sched, t: Task, reserveTime: Option<int>, default: int, outcome: Outcome, all: bool)
    requires Sound(s, all)
    ensures Sound(Schedule(s, t, reserveTime, default, outcome), all)
  {
    if Held(s, t) {
      if Executing(s, t) {
        var r := ScheduleHeld(s, t, reserveTime);
        forall u ensures Backed(r, u, all) {
          assert Backed(s, u, all);
        }
      } else {
        ReserveSound(s, t, s.tasks[t].worker, LongerTime(s.tasks[t].reserveTime, reserveTime), all);
      }
    } else {
      RepealSound(s, t, all);
      if outcome.Allocated? {
        ReserveSound(DropStale(s, t), t, outcome.found, FreshTime(reserveTime, default), all);
      }
    }
  }

  /** What a join has to respect; every other operation is free. */
  ghost predicate Admissible(s: Sched, op: Op) {
    op.OpAdd? ==> !exists t :: HeldOnlyBy(s, op.worker, t)
  }

  lemma OpSoundIff(s: Sched, op: Op, default: int, all: bool)
    requires Sound(s, all)
    ensures Sound(After(s, op, default), all) <==> Admissible(s, op)
  {
    match op
    case OpAdd(w, i) => AddKeepsBookingsIff(s, w, i, all);
    case OpRemove(w) => RemoveSound(s, w, all);
    case OpState(w, st) =>
      if w in s.workers {
        AttributesSound(s, w, s.workers[w].(state := st), all);
      }
    case OpLoad(w, l) =>
      if w in s.workers {
        AttributesSound(s, w, s.workers[w].(load := l), all);
      }
    case OpPickUp(w, ts) => PickUpSound(s, w, ts, default, all);
    case OpLayDown(w, t) => CancelSound(s, w, t, all);
    case OpUnschedule(w, t) => RepealSound(s, t, all);
    case OpSchedule(t, r, o) => ScheduleSound(s, t, r, default, o, all);
    case OpFire(id) => FireSound(s, id, all);
  }

  ghost predicate SoundThroughout(s: Sched, ops: seq<Op>, default: int, all: bool)
    decreases |ops|
  {
    Sound(AfterAll(s, ops, default), all) && (ops != [] ==> SoundThroughout(s, ops[..|ops| - 1], default, all))
  }

  ghost predicate AdmissibleRun(s: Sched, ops: seq<Op>, default: int)
    decreases |ops|
  {
    ops != [] ==>
      && AdmissibleRun(s, ops[..|ops| - 1], default)
      && Admissible(AfterAll(s, ops[..|ops| - 1], default), ops[|ops| - 1])
  }

  /**
   From any sound scheduler on, be it an empty one (`all`) or one that took over a snapshot and serves, bookings stay
   backed throughout a run if and only if each worker that joins finds no booking on its id without a live timer.
   */
  lemma {:induction false} SoundRunIff(s: Sched, ops: seq<Op>, default: int, all: bool)
    requires Sound(s, all)
    ensures SoundThroughout(s, ops, default, all) <==> AdmissibleRun(s, ops, default)
    decreases |ops|
  {
    if ops != [] {
      SoundRunIff(s, ops[..|ops| - 1], default, all);
      if SoundThroughout(s, ops[..|ops| - 1], default, all) {
        OpSoundIff(AfterAll(s, ops[..|ops| - 1], default), ops[|ops| - 1], default, all);
      }
    }
  }

  /** Workers are added under ids that are not registered at that moment. */
  ghost predicate AddsNewIds(s: Sched, ops: seq<Op>, default: int)
    decreases |ops|
  {
    ops != [] ==>
      && AddsNewIds(s, ops[..|ops| - 1], default)
      && (ops[|ops| - 1].OpAdd? ==> ops[|ops| - 1].worker !in AfterAll(s, ops[..|ops| - 1], default).workers)
  }

  /**
   No orphan booking: after any run from the empty scheduler in which workers are added under new ids, every
   booked task is executing on its booked worker or has a live timer, every live timer belongs to the record
   of its task, and no worker lists a task twice.
   */
  lemma {:induction false} NoOrphanBooking(ops: seq<Op>, default: int)
    requires AddsNewIds(EMPTY, ops, default)
    ensures Sound(AfterAll(EMPTY, ops, default), true)
    decreases |ops|
  {
    if ops != [] {
      var s, op := AfterAll(EMPTY, ops[..|ops| - 1], default), ops[|ops| - 1];
      NoOrphanBooking(ops[..|ops| - 1], default);
      OpSoundIff(s, op, default, true);
      if op.OpAdd? {
        AddKeepsBookingsIff(s, op.worker, op.info, true);
      }
    }
  }

  // What one operation does

  ghost predicate Booked(s: Sched, t: Task, w: WorkerId) {
    t in s.tasks && s.tasks[t].worker == Some(w)
  }

  ghost predicate Listed(s: Sched, w: WorkerId, t: Task) {
    w in s.workers && t in s.workers[w].tasks
  }

  lemma {:induction false} RepealHeldIff(s: Sched, w: WorkerId, ts: seq<Task>, t: Task)
    ensures t in RepealHeld(s, w, ts).tasks <==> t in s.tasks && !(s.tasks[t].worker == Some(w) && t in ts)
    ensures t in RepealHeld(s, w, ts).tasks ==> RepealHeld(s, w, ts).tasks[t] == s.tasks[t]
    decreases |ts|
  {
    if ts != [] {
      RepealHeldIff(s, w, ts[..|ts| - 1], t);
    }
  }

  lemma ExecuteLists(s: Sched, w: WorkerId, u: Task, time: int, t: Task)
    ensures var r := Execute(s, w, u, time);
            && r.workers.Keys == s.workers.Keys
            && (forall v :: Listed(r, v, t) <==> Listed(s, v, t) || (v == w && w in s.workers && t == u))
            && (forall v :: Booked(r, t, v) <==> if w in s.workers && t == u then v == w else Booked(s, t, v))
  {}

  lemma {:induction false} PickUpLists(s: Sched, w: WorkerId, ts: seq<Task>, default: int, t: Task)
    ensures var r := PickUp(s, w, ts, default);
            && r.workers.Keys == s.workers.Keys
            && (forall v :: Listed(r, v, t) <==> Listed(s, v, t) || (v == w && w in s.workers && t in ts))
            && (forall v :: Booked(r, t, v) <==> if w in s.workers && t in ts then v == w else Booked(s, t, v))
    decreases |ts|
  {
    if ts != [] {
      var before, u := ts[..|ts| - 1], ts[|ts| - 1];
      assert ts == before + [u];
      PickUpLists(s, w, before, default, t);
      ExecuteLists(PickUp(s, w, before, default), w, u, default, t);
    }
  }

  /** Exactly which operations book a task on a worker, keep it booked there or end that. */
  lemma BookedIff(s: Sched, op: Op, default: int, t: Task, w: WorkerId)
    ensures Booked(After(s, op, default), t, w) <==>
              match op
              case OpRemove(v) => Booked(s, t, w) && !(v == w && Listed(s, w, t))
              case OpPickUp(v, ts) => if v in s.workers && t in ts then v == w else Booked(s, t, w)
              case OpLayDown(v, u) =>
                if u == t && t in s.tasks && v in s.workers then v == w && Listed(s, w, t) else Booked(s, t, w)
              case OpUnschedule(v, u) => Booked(s, t, w) && !(u == t && v == w)
              case OpSchedule(u, _, o) =>
                if u == t && !Held(s, t) then o == Allocated(Some(w)) else Booked(s, t, w)
              case OpFire(id) => Booked(s, t, w) && !(id in s.timers && s.timers[id] == t)
              case _ => Booked(s, t, w)
  {
    match op
    case OpPickUp(v, ts) => PickUpLists(s, v, ts, default, t);
    case OpRemove(v) => if v in s.workers { RepealHeldIff(s, v, s.workers[v].tasks, t); }
    case _ =>
  }

  /** Exactly which operations register a worker, and list a task with it. */
  lemma ListedIff(s: Sched, op: Op, default: int, t: Task, w: WorkerId)
    requires w in s.workers ==> NoDup(s.workers[w].tasks)
    ensures var r := After(s, op, default);
            && (w in r.workers <==> (w in s.workers && op != OpRemove(w)) || (op.OpAdd? && op.worker == w))
            && (Listed(r, w, t) <==>
                  match op
                  case OpAdd(v, _) => v != w && Listed(s, w, t)
                  case OpRemove(v) => v != w && Listed(s, w, t)
                  case OpPickUp(v, ts) => Listed(s, w, t) || (v == w && w in s.workers && t in ts)
                  case OpLayDown(v, u) => Listed(s, w, t) && !(v == w && u == t)
                  case _ => Listed(s, w, t))
  {
    match op
    case OpPickUp(v, ts) => PickUpLists(s, v, ts, default, t);
    case _ =>
  }

  /** A worker that joins has no state and no tasks, and counts as loaded to its maximum, or to 1 if it names none. */
  lemma JoinsLoaded(s: Sched, w: WorkerId, info: Info, default: int)
    ensures var x := After(s, OpAdd(w, info), default).workers[w];
            && x.info == info && x.state == None && x.tasks == []
            && x.load == (if info.maxLoad in {None, Some(0.0)} then 1.0 else info.maxLoad.value)
  {}

  /** A report changes what it reports, and nothing else does: not the state, the load or the information of a worker. */
  lemma ReportsIff(s: Sched, op: Op, default: int, w: WorkerId)
    requires w in After(s, op, default).workers && !(op.OpAdd? && op.worker == w)
    ensures var x := After(s, op, default).workers[w];
            && w in s.workers && x.info == s.workers[w].info
            && x.state == (if op.OpState? && op.worker == w then op.state else s.workers[w].state)
            && x.load == (if op.OpLoad? && op.worker == w then op.load else s.workers[w].load)
  {
    if op.OpPickUp? {
      PickUpKeepsLoads(s, op.worker, op.tasks, default);
    }
  }

  // Sticky bookings

  ghost predicate BookedOn(s: Sched, t: Task, w: WorkerId) {
    t in s.tasks && s.tasks[t].worker == Some(w) && w in s.workers
  }

  /** What ends or moves the booking of `t` on `w`. */
  ghost predicate Disturbs(s: Sched, op: Op, t: Task, w: WorkerId) {
    match op
    case OpRemove(w') => w' == w
    case OpPickUp(w', ts) => w' != w && w' in s.workers && t in ts
    case OpLayDown(w', u) => u == t && w' in s.workers && !(w' == w && t in s.workers[w].tasks)
    case OpUnschedule(w', u) => w' == w && u == t
    case OpFire(id) => id in s.timers && s.timers[id] == t
    case _ => false
  }

  lemma {:induction false} PickUpMoves(s: Sched, w: WorkerId, ts: seq<Task>, default: int, t: Task)
    requires t in s.tasks
    ensures var r := PickUp(s, w, ts, default);
            && r.workers.Keys == s.workers.Keys && t in r.tasks
            && r.tasks[t].reserveTime == s.tasks[t].reserveTime
            && r.tasks[t].worker == if w in s.workers && t in ts then Some(w) else s.tasks[t].worker
    decreases |ts|
  {
    if ts != [] {
      PickUpMoves(s, w, ts[..|ts| - 1], default, t);
    }
  }

  lemma {:induction false} RepealHeldOthers(s: Sched, w: WorkerId, ts: seq<Task>, t: Task)
    requires t in s.tasks && s.tasks[t].worker != Some(w)
    ensures t in RepealHeld(s, w, ts).tasks && RepealHeld(s, w, ts).tasks[t] == s.tasks[t]
    decreases |ts|
  {
    if ts != [] {
      RepealHeldOthers(s, w, ts[..|ts| - 1], t);
    }
  }

  /** The longest of `time` and the times that `schedule` calls for `t` ask for; 0 asks for nothing. */
  function LongestAsked(time: int, ops: seq<Op>, t: Task): int
    decreases |ops|
  {
    if ops == [] then time
    else
      var before := LongestAsked(time, ops[..|ops| - 1], t);
      match ops[|ops| - 1]
      case OpSchedule(u, Some(asked), _) => if u == t && asked != 0 && asked > before then asked else before
      case _ => before
  }

  /** One operation keeps the booking exactly if it does not disturb it; only `schedule` changes its time. */
  lemma StickyStep(s: Sched, op: Op, default: int, t: Task, w: WorkerId)
    requires BookedOn(s, t, w)
    ensures BookedOn(After(s, op, default), t, w) <==> !Disturbs(s, op, t, w)
    ensures !Disturbs(s, op, t, w) ==>
              After(s, op, default).tasks[t].reserveTime == LongestAsked(s.tasks[t].reserveTime, [op], t)
  {
    assert [op][..0] == [] && [op][|[op]| - 1] == op;
    match op
    case OpPickUp(w', ts) => PickUpMoves(s, w', ts, default, t);
    case OpRemove(w') =>
      if w' != w && w' in s.workers {
        RepealHeldOthers(s, w', s.workers[w'].tasks, t);
      }
    case _ =>
  }

  ghost predicate Undisturbed(s: Sched, ops: seq<Op>, default: int, t: Task, w: WorkerId)
    decreases |ops|
  {
    ops != [] ==>
      && Undisturbed(s, ops[..|ops| - 1], default, t, w)
      && !Disturbs(AfterAll(s, ops[..|ops| - 1], default), ops[|ops| - 1], t, w)
  }

  /**
   Sticky booking: once `t` is booked on `w`, and until its timer fires, it is unscheduled or laid down, another
   worker picks it up or `w` is removed, it stays booked on `w`, so that every `schedule(t)` answers `w`; and its
   reserve time is the longest that was asked for, whatever happens to other tasks and workers.
   */
  lemma {:induction false} StickyBooking(s: Sched, ops: seq<Op>, default: int, t: Task, w: WorkerId)
    requires BookedOn(s, t, w) && Undisturbed(s, ops, default, t, w)
    ensures var r := AfterAll(s, ops, default);
            && Held(r, t) && r.tasks[t].worker == Some(w)
            && r.tasks[t].reserveTime == LongestAsked(s.tasks[t].reserveTime, ops, t)
    decreases |ops|
  {
    if ops != [] {
      var r := AfterAll(s, ops[..|ops| - 1], default);
      StickyBooking(s, ops[..|ops| - 1], default, t, w);
      StickyStep(r, ops[|ops| - 1], default, t, w);
      assert AfterAll(s, ops, default) == After(r, ops[|ops| - 1], default);
    }
  }

  /** `asked` is given and more than nothing. */
  predicate Asks(asked: Option<int>) {
    asked.Some? && asked.value != 0
  }

  /** The worker that `schedule` answers: the one the task is booked on, or else the one that the search came to. */
  function Answered(s: Sched, t: Task, outcome: Outcome): Option<WorkerId> {
    if Held(s, t) then s.tasks[t].worker else if outcome.Allocated? then outcome.found else None
  }

  /**
   Whatever `schedule` answers is booked, and is executing or has a live timer. A new booking lasts as long as was asked,
   or the default; an old one lasts the longer of its time and what is asked. Nothing else is booked or changed.
   */
  lemma ScheduleBooks(s: Sched, t: Task, asked: Option<int>, default: int, outcome: Outcome)
    requires outcome.Allocated? && outcome.found.Some? ==> outcome.found.value in s.workers
    ensures var r := Schedule(s, t, asked, default, outcome);
            && r.workers == s.workers && r.order == s.order
            && (t in r.tasks <==> Held(s, t) || outcome.Allocated?)
            && (t in r.tasks ==>
                  && r.tasks[t].worker == Answered(s, t, outcome) && (Executing(r, t) || TimerLive(r, t))
                  && if Held(s, t) then
                       && r.tasks[t].reserveTime >= s.tasks[t].reserveTime
                       && (r.tasks[t].reserveTime == s.tasks[t].reserveTime || Some(r.tasks[t].reserveTime) == asked)
                       && (Asks(asked) ==> r.tasks[t].reserveTime >= asked.value)
                     else r.tasks[t].reserveTime == if Asks(asked) && asked.value > 0 then asked.value else default)
            && (forall u :: u != t ==> (u in r.tasks <==> u in s.tasks) && (u in s.tasks ==> r.tasks[u] == s.tasks[u]))
  {}

  /** `schedule` goes on answering the same worker until the booking is disturbed, whatever else is done or asked. */
  lemma AnswersAgain(
      s: Sched, t: Task, asked: Option<int>, default: int, outcome: Outcome, ops: seq<Op>, outcome': Outcome)
    requires Answered(s, t, outcome).Some? && Answered(s, t, outcome).value in s.workers
    requires Undisturbed(Schedule(s, t, asked, default, outcome), ops, default, t, Answered(s, t, outcome).value)
    ensures Answered(AfterAll(Schedule(s, t, asked, default, outcome), ops, default), t, outcome') == Answered(s, t, outcome)
  {
    StickyBooking(Schedule(s, t, asked, default, outcome), ops, default, t, Answered(s, t, outcome).value);
  }

  /** How long a booking lasts: only `schedule` changes it, and a pick-up of a task that is not booked sets the default. */
  lemma TimeAfter(s: Sched, op: Op, default: int, t: Task)
    requires t in After(s, op, default).tasks
    ensures After(s, op, default).tasks[t].reserveTime ==
              if op.OpSchedule? && op.task == t && !Held(s, t) then
                if Asks(op.reserveTime) && op.reserveTime.value > 0 then op.reserveTime.value else default
              else if t in s.tasks then LongestAsked(s.tasks[t].reserveTime, [op], t)
              else default
  {
    assert [op][..0] == [] && [op][|[op]| - 1] == op;
    match op
    case OpPickUp(v, ts) => PickUpTimes(s, v, ts, default, t);
    case OpRemove(v) => if v in s.workers { RepealHeldIff(s, v, s.workers[v].tasks, t); }
    case _ =>
  }

  lemma {:induction false} PickUpTimes(s: Sched, w: WorkerId, ts: seq<Task>, default: int, t: Task)
    ensures t in s.tasks ==> t in PickUp(s, w, ts, default).tasks
    ensures t in PickUp(s, w, ts, default).tasks ==>
              PickUp(s, w, ts, default).tasks[t].reserveTime == if t in s.tasks then s.tasks[t].reserveTime else default
    decreases |ts|
  {
    if ts != [] {
      PickUpTimes(s, w, ts[..|ts| - 1], default, t);
    }
  }

  // Availability

  /** The last load `w` reported since it joined; for a worker that was there from the start, at first the load it had. */
  function LastLoad(start: Sched, ops: seq<Op>, w: WorkerId): Option<real>
    decreases |ops|
  {
    if ops == [] then if w in start.workers then Some(start.workers[w].load) else None
    else
      match ops[|ops| - 1]
      case OpLoad(v, l) => if v == w then Some(l) else LastLoad(start, ops[..|ops| - 1], w)
      case OpAdd(v, _) => if v == w then None else LastLoad(start, ops[..|ops| - 1], w)
      case OpRemove(v) => if v == w then None else LastLoad(start, ops[..|ops| - 1], w)
      case _ => LastLoad(start, ops[..|ops| - 1], w)
  }

  lemma {:induction false} PickUpKeepsLoads(s: Sched, w: WorkerId, ts: seq<Task>, default: int)
    ensures var r := PickUp(s, w, ts, default);
            r.workers.Keys == s.workers.Keys &&
            forall v :: v in s.workers ==> r.workers[v].(tasks := []) == s.workers[v].(tasks := [])
    decreases |ts|
  {
    if ts != [] {
      PickUpKeepsLoads(s, w, ts[..|ts| - 1], default);
    }
  }

  /** Loads change by a report of the worker's own or by its joining. */
  lemma OpKeepsLoad(s: Sched, op: Op, default: int, w: WorkerId)
    requires w in After(s, op, default).workers
    ensures var x := After(s, op, default).workers[w];
            if op.OpLoad? && op.worker == w then x.load == op.load
            else if op.OpAdd? && op.worker == w then x == NewWorker(op.info)
            else
              && !(op.OpRemove? && op.worker == w) && w in s.workers
              && x.load == s.workers[w].load && x.info == s.workers[w].info
  {
    if op.OpPickUp? {
      PickUpKeepsLoads(s, op.worker, op.tasks, default);
    }
  }

  /** A registered worker's load is what it reported last since joining, or the initial load. */
  lemma {:induction false} LoadIsReported(start: Sched, ops: seq<Op>, default: int, w: WorkerId)
    requires w in AfterAll(start, ops, default).workers
    ensures var x := AfterAll(start, ops, default).workers[w];
            x.load == if LastLoad(start, ops, w).Some? then LastLoad(start, ops, w).value else InitialLoad(x.info)
    decreases |ops|
  {
    if ops != [] {
      var s := AfterAll(start, ops[..|ops| - 1], default);
      OpKeepsLoad(s, ops[|ops| - 1], default, w);
      if w in s.workers {
        LoadIsReported(start, ops[..|ops| - 1], default, w);
      }
    }
  }

  /** A worker is available only with a load below its maximum that it reported since it joined, or had at the start. */
  lemma AvailableHasReported(start: Sched, ops: seq<Op>, default: int, w: WorkerId)
    requires w in AfterAll(start, ops, default).workers && Available(AfterAll(start, ops, default).workers[w])
    ensures LastLoad(start, ops, w).Some?
    ensures LastLoad(start, ops, w).value < AfterAll(start, ops, default).workers[w].info.maxLoad.value
  {
    LoadIsReported(start, ops, default, w);
  }
}
