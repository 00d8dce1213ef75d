/** What a newly allocated worker is guaranteed to be, whatever run the scheduler had and whatever its strategy. */
module FreshAnswers {
  import opened Common
  import opened WorkerTypes
  import opened SchedulerModel
  import opened SchedulerProperties
  import opened Matcher
  import Scheduler
  import Strategy

  lemma {:induction false} PickUpOrder(s: Sched, w: WorkerId, ts: seq<Task>, default: int)
    ensures PickUp(s, w, ts, default).order == s.order && PickUp(s, w, ts, default).workers.Keys == s.workers.Keys
    decreases |ts|
  {
    if ts != [] {
      PickUpOrder(s, w, ts[..|ts| - 1], default);
    }
  }

  lemma OrderedStep(s: Sched, op: Op, default: int)
    requires Ordered(s)
    ensures Ordered(After(s, op, default))
  {
    if op.OpPickUp? {
      PickUpOrder(s, op.worker, op.tasks, default);
    }
  }

  /** In every run the enumeration order goes on listing the registered workers once each. */
  lemma {:induction false} OrderedRun(start: Sched, ops: seq<Op>, default: int)
    requires Ordered(start)
    ensures Ordered(AfterAll(start, ops, default))
    decreases |ops|
  {
    if ops != [] {
      OrderedRun(start, ops[..|ops| - 1], default);
      OrderedStep(AfterAll(start, ops[..|ops| - 1], default), ops[|ops| - 1], default);
    }
  }

  /** A search looks at exactly the registered workers below a maximum they name, in no state or in state 2. */
  lemma CandidateIff(start: Sched, ops: seq<Op>, default: int, w: WorkerId)
    requires Ordered(start)
    ensures var s := AfterAll(start, ops, default);
            w in Candidates(s.order, s.workers) <==>
              w in s.workers && s.workers[w].info.maxLoad.Some? && s.workers[w].load < s.workers[w].info.maxLoad.value &&
              s.workers[w].state in {None, Some(2)}
  {
    OrderedRun(start, ops, default);
  }

  /** The match a fresh search works on. */
  function MatchOf(s: Sched, purpose: Purpose, p: Preference): seq<WorkerId>
  {
    Matched(RuleOf(purpose), p, s.workers, Candidates(s.order, s.workers))
  }

  /** Registered, available, with a load below the maximum, reported or taken over, admitted and well placed. */
  ghost predicate GoodAnswer(start: Sched, ops: seq<Op>, default: int, purpose: Purpose, p: Preference, w: WorkerId) {
    var s := AfterAll(start, ops, default);
    && w in s.workers && Available(s.workers[w]) && Admits(RuleOf(purpose), s.workers[w], p)
    && LastLoad(start, ops, w).Some? && s.workers[w].info.maxLoad.Some?
    && LastLoad(start, ops, w).value < s.workers[w].info.maxLoad.value
    && (RanksByRegion(RuleOf(purpose), p) &&
        (exists v :: v in s.workers && Available(s.workers[v]) && Admits(RuleOf(purpose), s.workers[v], p) &&
                     Suited(s.workers[v], p)) ==>
        Suited(s.workers[w], p))
  }

  /** After any run, every worker in the match is a good answer. */
  lemma MatchedIsSound(start: Sched, ops: seq<Op>, default: int, purpose: Purpose, p: Preference, w: WorkerId)
    requires Ordered(start) && w in MatchOf(AfterAll(start, ops, default), purpose, p)
    ensures GoodAnswer(start, ops, default, purpose, p, w)
  {
    var s := AfterAll(start, ops, default);
    var candidates := Candidates(s.order, s.workers);
    OrderedRun(start, ops, default);
    AvailableHasReported(start, ops, default, w);
    MatchIsBest(RuleOf(purpose), p, s.workers, candidates);
    if v :| v in s.workers && Available(s.workers[v]) && Admits(RuleOf(purpose), s.workers[v], p) &&
            Suited(s.workers[v], p) {
      assert v in candidates;
    }
  }

  /** Every maximum is at most 1 and no load is negative. */
  ghost predicate UsualLoads(s: Sched) {
    forall w :: w in s.workers ==>
      s.workers[w].load >= 0.0 && (s.workers[w].info.maxLoad.Some? ==> s.workers[w].info.maxLoad.value <= 1.0)
  }

  /** With usual loads no strategy ends a search among matched workers with nobody. */
  lemma SomebodyIsFound(s: Sched, purpose: Purpose, p: Preference, kind: Strategy.Kind)
    requires MatchOf(s, purpose, p) != [] && UsualLoads(s)
    ensures !Strategy.FindsNobody(kind, s.workers, MatchOf(s, purpose, p))
  {
    var w := MatchOf(s, purpose, p)[0];
    assert w in MatchOf(s, purpose, p);
  }

  /**
   Fresh answers are sound: after any run from an empty scheduler, or from one that took over a snapshot and serves, and
   whatever a strategy remembers, a worker that a search answers is a good answer; with usual loads the search ends
   without a worker only if none is available, or none that is available meets the preference.
   */
  lemma FreshAnswerIsSound(
      start: Sched, ops: seq<Op>, default: int, purpose: Purpose, kind: Strategy.Kind,
      before: Strategy.Memory, after: Strategy.Memory, p: Preference, random: real, outcome: Outcome,
      answer: Scheduler.Answer)
    requires Ordered(start) && 0.0 <= random < 1.0
    requires Scheduler.Found(purpose, kind, before, after, AfterAll(start, ops, default), p, random, outcome, answer)
    ensures answer.Ok? ==>
              && GoodAnswer(start, ops, default, purpose, p, answer.worker)
              && answer.info == AfterAll(start, ops, default).workers[answer.worker].info
    ensures var s := AfterAll(start, ops, default);
            UsualLoads(s) && !answer.Ok? ==>
              forall w :: w in s.workers && Available(s.workers[w]) ==> !Admits(RuleOf(purpose), s.workers[w], p)
  {
    var s := AfterAll(start, ops, default);
    var matched := MatchOf(s, purpose, p);
    OrderedRun(start, ops, default);
    MatchIsBest(RuleOf(purpose), p, s.workers, Candidates(s.order, s.workers));
    if matched == [] {
      NobodyAdmitted(s, purpose, p);
    } else if answer.Ok? {
      Strategy.ChosenFinds(kind, before, after, s.workers, matched, Scheduler.Drawn(random, |matched|), Some(answer.worker));
      MatchedIsSound(start, ops, default, purpose, p, answer.worker);
    } else if answer.NobodyFound? {
      Strategy.ChosenFinds(kind, before, after, s.workers, matched, Scheduler.Drawn(random, |matched|), None);
      if UsualLoads(s) {
        SomebodyIsFound(s, purpose, p, kind);
      }
    }
  }

  /** An empty match means that no available worker is admitted. */
  lemma NobodyAdmitted(s: Sched, purpose: Purpose, p: Preference)
    requires Ordered(s) && MatchOf(s, purpose, p) == []
    ensures forall w :: w in s.workers && Available(s.workers[w]) ==> !Admits(RuleOf(purpose), s.workers[w], p)
  {
    var rule := RuleOf(purpose);
    var candidates := Candidates(s.order, s.workers);
    MatchIsBest(rule, p, s.workers, candidates);
    forall w | w in s.workers && Available(s.workers[w]) ensures !Admits(rule, s.workers[w], p) {
      assert w in candidates;
      assert !SomebodySuited(rule, p, s.workers, candidates);
    }
  }

  const BIG := Info(Some(2.0), Capacity([], [], None, []))
  const LONE_OPS := [OpAdd(0, BIG), OpLoad(0, 1.0)]
  const LONE := Sched([0], map[0 := Worker(None, 1.0, BIG, [])], map[], map[], 0)

  lemma LoneReached(default: int)
    ensures AfterAll(EMPTY, LONE_OPS, default) == LONE
  {
    assert LONE_OPS[..1][..0] == [] && AfterAll(EMPTY, [], default) == EMPTY;
    assert AfterAll(EMPTY, LONE_OPS[..1], default) == Add(EMPTY, 0, BIG);
  }

  lemma LoneCandidates()
    ensures Candidates(LONE.order, LONE.workers) == [0]
  {
    assert LONE.order[..0] == [] && Candidates([], LONE.workers) == [];
  }

  lemma LoneMatches(p: Preference)
    ensures MatchOf(LONE, Conference, p) == [0] && Available(LONE.workers[0])
    ensures Strategy.FindsNobody(Strategy.LeastUsed, LONE.workers, [0])
  {
    LoneCandidates();
    AdmitsAll(Everyone, p, LONE.workers, [0]);
  }

  /**
   The bound of 1 is needed: after two operations a lone worker with a maximum of 2 and a load of 1 is available and
   matches, and the least-used strategy still finds nobody.
   */
  lemma LeastUsedCanFail(p: Preference, default: int) returns (s: Sched)
    ensures s == AfterAll(EMPTY, LONE_OPS, default)
    ensures MatchOf(s, Conference, p) == [0] && 0 in s.workers && Available(s.workers[0])
    ensures Strategy.FindsNobody(Strategy.LeastUsed, s.workers, [0])
  {
    s := LONE;
    LoneReached(default);
    LoneMatches(p);
  }
}
