/** The scheduler of one purpose, with its workers, bookings and timers updated in place. */
module Scheduler {
  import opened Common
  import opened WorkerTypes
  import opened SchedulerModel
  import opened SchedulerProperties
  import Matcher
  import Strategy

  datatype Answer = Ok(worker: WorkerId, info: Info) | NoneAvailable | NoneMatches | NobodyFound

  /**
   What the search for a new worker ends with, in the given worker table: the error of the step that finds nobody, or
   the matched worker that the strategy chooses. `random` is the draw of the random strategy.
   */
  ghost predicate Found(purpose: Purpose, kind: Strategy.Kind, before: Strategy.Memory, after: Strategy.Memory,
                        s: Sched, preference: Preference, random: real, outcome: Outcome, answer: Answer)
    requires 0.0 <= random < 1.0
  {
    var candidates := Candidates(s.order, s.workers);
    var matched := Matcher.Matched(Matcher.RuleOf(purpose), preference, s.workers, candidates);
    match answer
    case NoneAvailable => outcome == NoWorker && candidates == []
    case NoneMatches => outcome == NoWorker && candidates != [] && matched == []
    case NobodyFound =>
      && outcome == Allocated(None) && matched != []
      && Strategy.Chosen(kind, before, after, s.workers, matched, Drawn(random, |matched|), None)
    case Ok(w, info) =>
      && outcome == Allocated(Some(w)) && matched != [] && w in s.workers && info == s.workers[w].info
      && Strategy.Chosen(kind, before, after, s.workers, matched, Drawn(random, |matched|), Some(w))
  }

  /**
   An answered worker is registered and has the task booked, executing or with a live timer. A new booking lasts as long
   as was asked or the default, an old one the longer of its time and what is asked. An error leaves no booking behind,
   unless a strategy found nobody.
   */
  ghost predicate Honoured(before: Sched, after: Sched, t: Task, asked: Option<int>, default: int, answer: Answer) {
    && (answer.Ok? ==>
          && answer.worker in after.workers && answer.info == after.workers[answer.worker].info
          && Booked(after, t, answer.worker) && (Executing(after, t) || TimerLive(after, t))
          && if Held(before, t) then
               && before.tasks[t].worker == Some(answer.worker)
               && after.tasks[t].reserveTime >= before.tasks[t].reserveTime
               && (Asks(asked) ==> after.tasks[t].reserveTime >= asked.value)
               && (after.tasks[t].reserveTime == before.tasks[t].reserveTime || Some(after.tasks[t].reserveTime) == asked)
             else after.tasks[t].reserveTime == if Asks(asked) && asked.value > 0 then asked.value else default)
    && (answer.NoneAvailable? || answer.NoneMatches? ==> t !in after.tasks)
    && (answer.Ok? || !Held(before, t))
  }

  /** The answer that goes with what the search ended with. */
  ghost predicate Matches(s: Sched, outcome: Outcome, answer: Answer) {
    match answer
    case Ok(w, info) => outcome == Allocated(Some(w)) && w in s.workers && info == s.workers[w].info
    case NobodyFound => outcome == Allocated(None)
    case _ => outcome == NoWorker
  }

  lemma AnswerHonoured(s: Sched, t: Task, asked: Option<int>, default: int, outcome: Outcome, answer: Answer)
    requires Held(s, t) ==> answer == Ok(s.tasks[t].worker.value, s.workers[s.tasks[t].worker.value].info)
    requires !Held(s, t) ==> Matches(s, outcome, answer)
    ensures Honoured(s, Schedule(s, t, asked, default, outcome), t, asked, default, answer)
  {
    if Held(s, t) || answer.Ok? {
      ScheduleBooks(s, t, asked, default, if Held(s, t) then NoWorker else outcome);
    }
  }

  class Scheduler {
    const purpose: Purpose
    const scheduleReserveTime: int
    const strategy: Strategy.Allocator

    var order: seq<WorkerId>
    var workers: map<WorkerId, Worker>
    var tasks: map<Task, Booking>
    var timers: map<nat, Task>
    var nextTimer: nat

    function State(): Sched
      reads this
    {
      Sched(order, workers, tasks, timers, nextTimer)
    }

    ghost predicate Valid()
      reads this
    {
      Ordered(State())
    }

    constructor (purpose: Purpose, kind: Strategy.Kind, scheduleReserveTime: int)
      ensures Valid() && State() == EMPTY
      ensures this.purpose == purpose && this.scheduleReserveTime == scheduleReserveTime
      ensures fresh(strategy) && fresh(strategy.robin) && strategy.kind == kind
    {
      this.purpose, this.scheduleReserveTime := purpose, scheduleReserveTime;
      strategy := new Strategy.Allocator(kind);
      order, workers, tasks, timers, nextTimer := [], map[], map[], map[], 0;
    }

    method ReserveWorkerForTask(t: Task, w: Option<WorkerId>, time: int)
      modifies this
      ensures State() == Reserve(old(State()), t, w, time)
    {
      if t in tasks && tasks[t].timer.Some? {
        timers := timers - {tasks[t].timer.value};
      }
      timers := timers[nextTimer := t];
      tasks := tasks[t := Booking(w, time, Some(nextTimer))];
      nextTimer := nextTimer + 1;
    }

    method RepealTask(t: Task)
      modifies this
      ensures State() == Repeal(old(State()), t)
    {
      if t in tasks {
        if tasks[t].timer.Some? {
          timers := timers - {tasks[t].timer.value};
        }
      }
      tasks := tasks - {t};
    }

    method ExecuteTask(w: WorkerId, t: Task)
      modifies this
      ensures State() == Execute(old(State()), w, t, scheduleReserveTime)
    {
      if w !in workers {
        return;
      }
      if IndexOf(workers[w].tasks, t) == -1 {
        workers := workers[w := workers[w].(tasks := workers[w].tasks + [t])];
      } else {
        assert workers == workers[w := workers[w].(tasks := workers[w].tasks)];
      }
      if t in tasks {
        if tasks[t].timer.Some? {
          timers := timers - {tasks[t].timer.value};
        }
        if tasks[t].worker != Some(w) {
          tasks := tasks[t := tasks[t].(worker := Some(w))];
        } else {
          assert tasks == tasks[t := tasks[t].(worker := Some(w))];
        }
      } else {
        tasks := tasks[t := Booking(Some(w), scheduleReserveTime, None)];
      }
    }

    method CancelExecution(w: WorkerId, t: Task)
      modifies this
      ensures State() == Cancel(old(State()), w, t)
    {
      var needToReserve := false;
      if w in workers {
        var i := IndexOf(workers[w].tasks, t);
        if i != -1 {
          workers := workers[w := workers[w].(tasks := workers[w].tasks[..i] + workers[w].tasks[i + 1..])];
          needToReserve := true;
        }
      }
      if t in tasks {
        if needToReserve {
          ReserveWorkerForTask(t, Some(w), tasks[t].reserveTime);
        } else {
          RepealTask(t);
        }
      }
    }

    method AddWorker(w: WorkerId, info: Info)
      requires Valid()
      modifies this
      ensures Valid() && State() == Add(old(State()), w, info)
    {
      if w !in workers {
        order := order + [w];
      }
      workers := workers[w := NewWorker(info)];
    }

    method RemoveWorker(w: WorkerId)
      requires Valid()
      modifies this
      ensures Valid() && State() == Remove(old(State()), w)
    {
      if w !in workers {
        return;
      }
      var listed := workers[w].tasks;
      for i := 0 to |listed|
        invariant State() == RepealHeld(old(State()), w, listed[..i])
      {
        assert listed[..i + 1][..i] == listed[..i];
        if listed[i] in tasks && tasks[listed[i]].worker == Some(w) {
          RepealTask(listed[i]);
        }
      }
      assert listed[..|listed|] == listed;
      workers := workers - {w};
      order := Without(order, w);
    }

    method UpdateState(w: WorkerId, state: Option<int>)
      modifies this`workers
      ensures State() == SetState(old(State()), w, state)
    {
      if w in workers {
        workers := workers[w := workers[w].(state := state)];
      }
    }

    method UpdateLoad(w: WorkerId, load: real)
      modifies this`workers
      ensures State() == SetLoad(old(State()), w, load)
    {
      if w in workers {
        workers := workers[w := workers[w].(load := load)];
      }
    }

    method PickUpTasks(w: WorkerId, ts: seq<Task>)
      modifies this
      ensures State() == PickUp(old(State()), w, ts, scheduleReserveTime)
    {
      if w !in workers {
        PickUpUnknown(State(), w, ts, scheduleReserveTime);
        return;
      }
      for i := 0 to |ts|
        invariant State() == PickUp(old(State()), w, ts[..i], scheduleReserveTime)
      {
        assert ts[..i + 1][..i] == ts[..i];
        ExecuteTask(w, ts[i]);
      }
      assert ts[..|ts|] == ts;
    }

    method LayDownTask(w: WorkerId, t: Task)
      modifies this
      ensures State() == LayDown(old(State()), w, t)
    {
      if w in workers {
        CancelExecution(w, t);
      }
    }

    method UnscheduleTask(w: WorkerId, t: Task)
      modifies this
      ensures State() == Unschedule(old(State()), w, t)
    {
      if t in tasks && tasks[t].worker == Some(w) {
        RepealTask(t);
      }
    }

    method TimerFires(timer: nat)
      requires timer in timers
      modifies this
      ensures State() == Fire(old(State()), timer)
    {
      var t := timers[timer];
      timers := timers - {timer};
      RepealTask(t);
    }

    method CollectCandidates() returns (candidates: seq<WorkerId>)
      requires Valid()
      ensures candidates == Candidates(order, workers)
    {
      candidates := [];
      for i := 0 to |order|
        invariant candidates == Candidates(order[..i], workers)
      {
        assert order[..i + 1][..i] == order[..i];
        if Available(workers[order[i]]) {
          candidates := candidates + [order[i]];
        }
      }
      assert order[..|order|] == order;
    }

    /**
     A booking on a registered worker is answered with that worker. Otherwise the answer is a matched
     candidate; there is none exactly if nobody is available, nobody matches, or the strategy finds nobody.
     `random` is the draw of the random strategy.
     */
    method ScheduleTask(t: Task, preference: Preference, reserveTime: Option<int>, random: real)
      returns (answer: Answer, ghost outcome: Outcome)
      requires Valid() && 0.0 <= random < 1.0
      modifies this, strategy, strategy.robin
      ensures Valid() && State() == Schedule(old(State()), t, reserveTime, scheduleReserveTime, outcome)
      ensures old(Held(State(), t)) ==>
                answer == Ok(old(tasks[t].worker.value), old(workers[tasks[t].worker.value].info))
      ensures !old(Held(State(), t)) ==>
                Found(purpose, strategy.kind, old(strategy.Remembers()), strategy.Remembers(),
                      old(State()), preference, random, outcome, answer)
      ensures Honoured(old(State()), State(), t, reserveTime, scheduleReserveTime, answer)
    {
      ghost var before := State();
      if t in tasks {
        if tasks[t].worker.Some? && tasks[t].worker.value in workers {
          answer := AnswerHeld(t, reserveTime);
          outcome := NoWorker;
          AnswerHonoured(before, t, reserveTime, scheduleReserveTime, outcome, answer);
          return;
        }
        RepealTask(t);
      }
      assert State() == DropStale(before, t);
      answer, outcome := ScheduleFresh(t, preference, reserveTime, random);
      AnswerHonoured(before, t, reserveTime, scheduleReserveTime, outcome, answer);
    }

    /** A booking on a registered worker is answered as it is, for the longer of its time and the one asked for. */
    method AnswerHeld(t: Task, reserveTime: Option<int>) returns (answer: Answer)
      requires Held(State(), t)
      modifies this
      ensures State() == ScheduleHeld(old(State()), t, reserveTime)
      ensures answer == Ok(old(tasks[t].worker.value), old(workers[tasks[t].worker.value].info))
    {
      var worker := tasks[t].worker;
      var time := LongerTime(tasks[t].reserveTime, reserveTime);
      answer := Ok(worker.value, workers[worker.value].info);
      if t in workers[worker.value].tasks {
        tasks := tasks[t := tasks[t].(reserveTime := time)];
      } else {
        ReserveWorkerForTask(t, worker, time);
      }
    }

    /** The search for a new worker. */
    method ScheduleFresh(t: Task, preference: Preference, reserveTime: Option<int>, random: real)
      returns (answer: Answer, ghost outcome: Outcome)
      requires Valid() && 0.0 <= random < 1.0 && t !in tasks
      modifies this, strategy, strategy.robin
      ensures Matches(old(State()), outcome, answer)
      ensures State() == (if outcome == NoWorker then old(State())
                          else Reserve(old(State()), t, outcome.found, FreshTime(reserveTime, scheduleReserveTime)))
      ensures Found(purpose, strategy.kind, old(strategy.Remembers()), strategy.Remembers(),
                    old(State()), preference, random, outcome, answer)
    {
      var candidates := CollectCandidates();
      if |candidates| < 1 {
        return NoneAvailable, NoWorker;
      }
      var matched := Matcher.Match(purpose, preference, workers, candidates);
      if |matched| < 1 {
        return NoneMatches, NoWorker;
      }
      ghost var memory := strategy.Remembers();
      var found := strategy.Allocate(workers, matched, Drawn(random, |matched|));
      Strategy.ChosenFinds(strategy.kind, memory, strategy.Remembers(), workers, matched, Drawn(random, |matched|), found);
      outcome := Allocated(found);
      answer := if found.Some? then Ok(found.value, workers[found.value].info) else NobodyFound;
      ReserveWorkerForTask(t, found, FreshTime(reserveTime, scheduleReserveTime));
    }

    /** The booking of a task, as `getScheduled` reports it. */
    method GetScheduled(t: Task) returns (r: Option<Option<WorkerId>>)
      ensures r == if t in tasks then Some(tasks[t].worker) else None
    {
      r := if t in tasks then Some(tasks[t].worker) else None;
    }

    /** `setData` on a scheduler just created: workers and bookings of a snapshot, without timers. */
    method SetData(order: seq<WorkerId>, workers: map<WorkerId, Worker>, data: map<Task, (int, Option<WorkerId>)>)
      requires Ordered(Sched(order, workers, map[], map[], 0))
      modifies this
      ensures Valid() && this.order == order && this.workers == workers
      ensures timers == old(timers) && nextTimer == old(nextTimer)
      ensures tasks == old(tasks) + map t | t in data :: Booking(data[t].1, data[t].0, None)
    {
      this.order, this.workers := order, workers;
      tasks := tasks + map t | t in data :: Booking(data[t].1, data[t].0, None);
    }

    /**
     Gives a timer to every booking on a registered worker that does not execute the task. Afterwards every
     booking on a registered worker is backed; no booking changes its worker or its time.
     */
    method Serve()
      requires TimersOwned(State()) && Handles(State())
      modifies this
      ensures order == old(order) && workers == old(workers) && tasks.Keys == old(tasks).Keys
      ensures TimersOwned(State()) && Handles(State())
      ensures forall t :: t in tasks ==>
                tasks[t].worker == old(tasks)[t].worker && tasks[t].reserveTime == old(tasks)[t].reserveTime
      ensures forall t :: Held(State(), t) ==> Executing(State(), t) || TimerLive(State(), t)
      ensures forall t :: t in tasks && !(Held(State(), t) && !Executing(State(), t)) ==> tasks[t] == old(tasks)[t]
      ensures ListsDistinct(old(State())) ==> Sound(State(), false)
    {
      var left := tasks.Keys;
      while left != {}
        invariant left <= tasks.Keys
        invariant ServedBut(old(State()), State(), left)
        decreases left
      {
        var t :| t in left;
        ghost var s := State();
        var worker := tasks[t].worker;
        ServeStep(old(State()), s, left, t);
        if worker.Some? && worker.value in workers && IndexOf(workers[worker.value].tasks, t) == -1 {
          ReserveWorkerForTask(t, worker, tasks[t].reserveTime);
        }
        left := left - {t};
      }
    }
  }

  /** `s` comes from `s0` by giving timers to waiting bookings; those outside `left` are done. */
  ghost predicate ServedBut(s0: Sched, s: Sched, left: set<Task>) {
    && s.order == s0.order && s.workers == s0.workers && s.tasks.Keys == s0.tasks.Keys
    && TimersOwned(s) && Handles(s)
    && (forall t :: t in s.tasks ==>
          s.tasks[t].worker == s0.tasks[t].worker && s.tasks[t].reserveTime == s0.tasks[t].reserveTime)
    && (forall t :: t !in left && Held(s, t) ==> Executing(s, t) || TimerLive(s, t))
    && (forall t :: t in s.tasks && !(Held(s, t) && !Executing(s, t)) ==> s.tasks[t] == s0.tasks[t])
  }

  /** The position `Math.floor(random * n)` draws. */
  function Drawn(random: real, n: nat): (k: nat)
    requires 0.0 <= random < 1.0 && n > 0
    ensures k < n
  {
    assert 0.0 <= random * n as real < n as real;
    (random * n as real).Floor
  }

  lemma {:induction false} PickUpUnknown(s: Sched, w: WorkerId, ts: seq<Task>, default: int)
    requires w !in s.workers
    ensures PickUp(s, w, ts, default) == s
    decreases |ts|
  {
    if ts != [] {
      PickUpUnknown(s, w, ts[..|ts| - 1], default);
    }
  }

  /** Reserving backs one booking and leaves the others alone. */
  lemma ReserveBacks(s: Sched, t: Task, w: Option<WorkerId>, time: int)
    requires TimersOwned(s) && Handles(s) && t in s.tasks && s.tasks[t].worker == w
    ensures var r := Reserve(s, t, w, time);
            && TimersOwned(r) && Handles(r) && TimerLive(r, t)
            && (forall u :: u != t ==> (TimerLive(r, u) <==> TimerLive(s, u)) && (Held(r, u) <==> Held(s, u)) &&
                                       (Executing(r, u) <==> Executing(s, u)))
            && (Held(r, t) <==> Held(s, t)) && (Executing(r, t) <==> Executing(s, t))
  {}

  lemma ServeStep(s0: Sched, s: Sched, left: set<Task>, t: Task)
    requires ServedBut(s0, s, left) && t in left && t in s.tasks
    ensures var r := if Held(s, t) && !Executing(s, t) then Reserve(s, t, s.tasks[t].worker, s.tasks[t].reserveTime) else s;
            ServedBut(s0, r, left - {t}) && r.tasks.Keys == s.tasks.Keys
  {
    if Held(s, t) && !Executing(s, t) {
      ReserveBacks(s, t, s.tasks[t].worker, s.tasks[t].reserveTime);
    }
  }
}
