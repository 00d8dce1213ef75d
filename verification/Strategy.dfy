/** The allocation strategies: which of the matched candidates gets the task. */
module Strategy {
  import opened Common
  import opened WorkerTypes
  import opened WeightRobin

  datatype Kind = LeastUsed | MostUsed | LastUsed | RoundRobin | RandomlyPick | WeightRobin

  /** What the strategies remember between calls. */
  datatype Memory = Memory(lastUsed: Option<WorkerId>, latestUsed: Option<WorkerId>, servers: seq<Server>)

  /** `found` is the first candidate of least load, looked for below 1 only. */
  ghost predicate IsLeast(workers: map<WorkerId, Worker>, candidates: seq<WorkerId>, found: Option<WorkerId>)
    requires forall c :: c in candidates ==> c in workers
  {
    match found
    case None => forall c :: c in candidates ==> workers[c].load >= 1.0
    case Some(f) =>
      && f in candidates && workers[f].load < 1.0
      && (forall c :: c in candidates ==> workers[f].load <= workers[c].load)
      && forall j :: 0 <= j < IndexOf(candidates, f) ==> workers[candidates[j]].load > workers[f].load
  }

  /** Place `i` is the last of greatest load. */
  ghost predicate LastMost(workers: map<WorkerId, Worker>, candidates: seq<WorkerId>, i: int)
    requires forall c :: c in candidates ==> c in workers
  {
    && 0 <= i < |candidates|
    && (forall j :: 0 <= j < |candidates| ==> workers[candidates[j]].load <= workers[candidates[i]].load)
    && (forall j :: i < j < |candidates| ==> workers[candidates[j]].load < workers[candidates[i]].load)
  }

  /** `found` is the last candidate of greatest load, looked for from 0 up only. */
  ghost predicate IsMost(workers: map<WorkerId, Worker>, candidates: seq<WorkerId>, found: Option<WorkerId>)
    requires forall c :: c in candidates ==> c in workers
  {
    match found
    case None => forall c :: c in candidates ==> workers[c].load < 0.0
    case Some(f) => exists i :: LastMost(workers, candidates, i) && candidates[i] == f && workers[f].load >= 0.0
  }

  /** The candidate after `last`, cyclically; the first one if `last` is none of them. */
  function NextOf(candidates: seq<WorkerId>, last: Option<WorkerId>): (r: WorkerId)
    requires candidates != []
    ensures r in candidates
  {
    if last.Some? && last.value in candidates && IndexOf(candidates, last.value) + 1 < |candidates|
    then candidates[IndexOf(candidates, last.value) + 1]
    else candidates[0]
  }

  function WeightsOf(workers: map<WorkerId, Worker>): map<WorkerId, int> {
    map c | c in workers :: WeightOf(workers[c].load)
  }

  /** What each strategy answers, and what it remembers afterwards; `random` is the place a random draw gives. */
  ghost predicate Chosen(kind: Kind, before: Memory, after: Memory, workers: map<WorkerId, Worker>,
                         candidates: seq<WorkerId>, random: nat, found: Option<WorkerId>)
    requires random < |candidates| && forall c :: c in candidates ==> c in workers
  {
    match kind
    case LeastUsed => IsLeast(workers, candidates, found) && after == before
    case MostUsed => IsMost(workers, candidates, found) && after == before
    case LastUsed =>
      && found == (if before.lastUsed.Some? && before.lastUsed.value in candidates
                   then before.lastUsed else Some(candidates[0]))
      && after == before.(lastUsed := found)
    case RoundRobin => found == Some(NextOf(candidates, before.latestUsed)) && after == before.(latestUsed := found)
    case RandomlyPick => found == Some(candidates[random]) && after == before
    case WeightRobin =>
      && found.Some? && Call(before.servers, candidates, WeightsOf(workers), after.servers, found.value)
      && after == before.(servers := after.servers)
  }

  /** The only ways to find nobody: every load is 1 or more, or every load is negative. */
  ghost predicate FindsNobody(kind: Kind, workers: map<WorkerId, Worker>, candidates: seq<WorkerId>)
    requires forall c :: c in candidates ==> c in workers
  {
    (kind == LeastUsed && forall c :: c in candidates ==> workers[c].load >= 1.0) ||
    (kind == MostUsed && forall c :: c in candidates ==> workers[c].load < 0.0)
  }

  lemma CallPicksCandidate(before: seq<Server>, candidates: seq<WorkerId>, weights: map<WorkerId, int>,
                           after: seq<Server>, picked: WorkerId)
    requires forall c :: c in candidates ==> c in weights
    requires Call(before, candidates, weights, after, picked)
    ensures picked in candidates
  {
    var kept := KeptOnly(Refreshed(before, candidates, weights), candidates);
    var k :| Round(kept, after, k) && after[k].name == picked;
    var s := kept[k];
    assert s in kept && s.name == picked;
  }

  /** Whatever the strategy, it answers a candidate, or finds nobody in the two cases. */
  lemma ChosenFinds(kind: Kind, before: Memory, after: Memory, workers: map<WorkerId, Worker>,
                    candidates: seq<WorkerId>, random: nat, found: Option<WorkerId>)
    requires random < |candidates| && forall c :: c in candidates ==> c in workers
    requires Chosen(kind, before, after, workers, candidates, random, found)
    ensures found == None <==> FindsNobody(kind, workers, candidates)
    ensures found.Some? ==> found.value in candidates
  {
    var first := candidates[0];
    assert first in candidates;
    if kind == WeightRobin {
      CallPicksCandidate(before.servers, candidates, WeightsOf(workers), after.servers, found.value);
    }
    if kind == MostUsed && found.Some? {
      var i :| LastMost(workers, candidates, i) && candidates[i] == found.value;
      assert found.value in candidates;
    }
  }

  class Allocator {
    const kind: Kind
    var lastUsed: Option<WorkerId>
    var latestUsed: Option<WorkerId>
    const robin: WeightRobinStrategy

    function Remembers(): Memory
      reads this, robin
    {
      Memory(lastUsed, latestUsed, robin.servers)
    }

    constructor (kind: Kind)
      ensures this.kind == kind && lastUsed == None && latestUsed == None
      ensures fresh(robin) && robin.servers == []
    {
      this.kind := kind;
      lastUsed, latestUsed := None, None;
      robin := new WeightRobinStrategy();
    }

    method AllocateLeast(workers: map<WorkerId, Worker>, candidates: seq<WorkerId>) returns (found: Option<WorkerId>)
      requires forall c :: c in candidates ==> c in workers
      ensures IsLeast(workers, candidates, found)
    {
      var least := 1.0;
      found := None;
      for i := 0 to |candidates|
        invariant least <= 1.0
        invariant found == None ==> least == 1.0
        invariant forall j :: 0 <= j < i ==> least <= workers[candidates[j]].load
        invariant found.Some? ==> found.value in candidates[..i] && workers[found.value].load == least < 1.0
        invariant found.Some? ==>
                    forall j :: 0 <= j < IndexOf(candidates, found.value) ==> workers[candidates[j]].load > least
      {
        var id := candidates[i];
        if workers[id].load < least {
          least := workers[id].load;
          found := Some(id);
          assert IndexOf(candidates, id) >= i;
        }
      }
    }

    method AllocateMost(workers: map<WorkerId, Worker>, candidates: seq<WorkerId>) returns (found: Option<WorkerId>)
      requires forall c :: c in candidates ==> c in workers
      ensures IsMost(workers, candidates, found)
    {
      var most := 0.0;
      ghost var at := -1;
      found := None;
      for i := 0 to |candidates|
        invariant most >= 0.0
        invariant found == None ==> most == 0.0 && forall j :: 0 <= j < i ==> workers[candidates[j]].load < 0.0
        invariant found.Some? ==> LastMost(workers, candidates[..i], at) && candidates[at] == found.value
        invariant found.Some? ==> workers[found.value].load == most
      {
        var id := candidates[i];
        if workers[id].load >= most {
          most := workers[id].load;
          found := Some(id);
          at := i;
        }
      }
      assert candidates[..|candidates|] == candidates;
    }

    /** Stays with the worker it used last for as long as that worker is a candidate. */
    method AllocateLast(workers: map<WorkerId, Worker>, candidates: seq<WorkerId>) returns (found: WorkerId)
      requires candidates != [] && forall c :: c in candidates ==> c in workers
      modifies this`lastUsed
      ensures lastUsed == Some(found) && found in candidates
      ensures found == if old(lastUsed).Some? && old(lastUsed).value in candidates
                       then old(lastUsed).value else candidates[0]
    {
      if lastUsed == None || lastUsed.value !in workers || IndexOf(candidates, lastUsed.value) == -1 {
        lastUsed := Some(candidates[0]);
      }
      found := lastUsed.value;
    }

    /** Takes the candidate after the one it used last, cyclically. */
    method AllocateRound(candidates: seq<WorkerId>) returns (found: WorkerId)
      requires candidates != []
      modifies this`latestUsed
      ensures latestUsed == Some(found) && found == NextOf(candidates, old(latestUsed))
    {
      var i := if latestUsed == None then -1 else IndexOf(candidates, latestUsed.value);
      if i == -1 {
        latestUsed := Some(candidates[0]);
      } else {
        latestUsed := Some(if i == |candidates| - 1 then candidates[0] else candidates[i + 1]);
      }
      found := latestUsed.value;
    }

    /** `random` is the outcome of the draw of `randomlyPick`. */
    method Allocate(workers: map<WorkerId, Worker>, candidates: seq<WorkerId>, random: nat)
      returns (found: Option<WorkerId>)
      requires random < |candidates| && forall c :: c in candidates ==> c in workers
      modifies this, robin
      ensures Chosen(kind, old(Remembers()), Remembers(), workers, candidates, random, found)
    {
      match kind
      case LeastUsed => found := AllocateLeast(workers, candidates);
      case MostUsed => found := AllocateMost(workers, candidates);
      case LastUsed =>
        var id := AllocateLast(workers, candidates);
        found := Some(id);
      case RoundRobin =>
        var id := AllocateRound(candidates);
        found := Some(id);
      case RandomlyPick => found := Some(candidates[random]);
      case WeightRobin =>
        var id := robin.Allocate(WeightsOf(workers), candidates);
        found := Some(id);
    }
  }

  // Taking turns

  /** `picks` are what round robin answers, one call after the other, to the same candidates. */
  ghost predicate RoundRobinRun(candidates: seq<WorkerId>, before: Option<WorkerId>, picks: seq<WorkerId>)
    requires candidates != []
  {
    forall i :: 0 <= i < |picks| ==> TurnAt(candidates, before, picks, i)
  }

  /** Pick `i` goes on after the one before it. */
  predicate TurnAt(candidates: seq<WorkerId>, before: Option<WorkerId>, picks: seq<WorkerId>, i: int)
    requires candidates != [] && 0 <= i < |picks|
  {
    picks[i] == NextOf(candidates, if i == 0 then before else Some(picks[i - 1]))
  }

  /** Place `k` of a circle of `n`, counted on past its end once. */
  function Wrap(k: nat, n: nat): nat {
    if k < n then k else k - n
  }

  lemma PlaceOf(candidates: seq<WorkerId>, k: nat)
    requires NoDup(candidates) && k < |candidates|
    ensures IndexOf(candidates, candidates[k]) == k
  {}

  /** From one pick on, the next ones are the next candidates around the circle. */
  lemma {:induction false} TurnAfter(
      candidates: seq<WorkerId>, before: Option<WorkerId>, picks: seq<WorkerId>, i: nat, k: nat, j: nat)
    requires candidates != [] && NoDup(candidates) && RoundRobinRun(candidates, before, picks)
    requires i + j < |picks| && j < |candidates| && k < |candidates| && picks[i] == candidates[k]
    ensures picks[i + j] == candidates[Wrap(k + j, |candidates|)]
    decreases j
  {
    if j > 0 {
      TurnAfter(candidates, before, picks, i, k, j - 1);
      assert TurnAt(candidates, before, picks, i + j);
      PlaceOf(candidates, Wrap(k + j - 1, |candidates|));
    }
  }

  lemma PickIsCandidate(candidates: seq<WorkerId>, before: Option<WorkerId>, picks: seq<WorkerId>, i: nat)
    requires candidates != [] && RoundRobinRun(candidates, before, picks) && i < |picks|
    ensures picks[i] in candidates
  {
    var next := NextOf(candidates, if i == 0 then before else Some(picks[i - 1]));
    assert next in candidates;
    assert TurnAt(candidates, before, picks, i);
  }

  /** Round robin is fair: among any `n` picks in a row from `n` candidates, each candidate comes exactly once. */
  lemma EachOnce(candidates: seq<WorkerId>, before: Option<WorkerId>, picks: seq<WorkerId>, i: nat, c: WorkerId)
    returns (j: nat)
    requires candidates != [] && NoDup(candidates) && RoundRobinRun(candidates, before, picks)
    requires i + |candidates| <= |picks| && c in candidates
    ensures i <= j < i + |candidates|
    ensures forall k :: i <= k < i + |candidates| ==> (picks[k] == c <==> k == j)
  {
    var n := |candidates|;
    PickIsCandidate(candidates, before, picks, i);
    var k, at := IndexOf(candidates, picks[i]), IndexOf(candidates, c);
    j := i + if at >= k then at - k else at + n - k;
    forall y | i <= y < i + n ensures picks[y] == c <==> y == j {
      TurnAfter(candidates, before, picks, i, k, y - i);
      PlaceOf(candidates, Wrap(k + (y - i), n));
    }
  }

  /** The first turn goes to whoever comes after the worker used last, or to the first candidate if that is none of them. */
  lemma FirstTurn(candidates: seq<WorkerId>, last: WorkerId, k: nat)
    requires candidates != [] && NoDup(candidates) && k < |candidates|
    ensures NextOf(candidates, None) == candidates[0]
    ensures last !in candidates ==> NextOf(candidates, Some(last)) == candidates[0]
    ensures NextOf(candidates, Some(candidates[k])) == candidates[if k == |candidates| - 1 then 0 else k + 1]
  {
    PlaceOf(candidates, k);
  }

  /**
   `picks` are what a strategy answers to the same candidates, one call after the other, whatever the loads and draws are
   at each call; `after` is what it remembers then.
   */
  ghost predicate Answers(kind: Kind, candidates: seq<WorkerId>, before: Memory, picks: seq<WorkerId>, after: Memory)
    decreases |picks|
  {
    if picks == [] then after == before
    else
      var n := |picks| - 1;
      exists mid, workers, random: nat ::
        && Answers(kind, candidates, before, picks[..n], mid)
        && random < |candidates| && (forall c :: c in candidates ==> c in workers)
        && Chosen(kind, mid, after, workers, candidates, random, Some(picks[n]))
  }

  /** What round robin remembers makes its answers such a run, so that they are fair. */
  lemma {:induction false} RoundRobinTakesTurns(
      candidates: seq<WorkerId>, before: Memory, picks: seq<WorkerId>, after: Memory)
    requires candidates != [] && Answers(RoundRobin, candidates, before, picks, after)
    ensures RoundRobinRun(candidates, before.latestUsed, picks)
    ensures after == before.(latestUsed := if picks == [] then before.latestUsed else Some(picks[|picks| - 1]))
    decreases |picks|
  {
    if picks != [] {
      var n := |picks| - 1;
      var mid, workers, random: nat :|
        && Answers(RoundRobin, candidates, before, picks[..n], mid)
        && random < |candidates| && (forall c :: c in candidates ==> c in workers)
        && Chosen(RoundRobin, mid, after, workers, candidates, random, Some(picks[n]));
      RoundRobinTakesTurns(candidates, before, picks[..n], mid);
      OneMoreTurn(candidates, before.latestUsed, picks[..n], picks[n]);
      assert picks == picks[..n] + [picks[n]];
    }
  }

  lemma OneMoreTurn(candidates: seq<WorkerId>, before: Option<WorkerId>, picks: seq<WorkerId>, next: WorkerId)
    requires candidates != [] && RoundRobinRun(candidates, before, picks)
    requires next == NextOf(candidates, if picks == [] then before else Some(picks[|picks| - 1]))
    ensures RoundRobinRun(candidates, before, picks + [next])
  {
    var r := picks + [next];
    forall i | 0 <= i < |r| ensures TurnAt(candidates, before, r, i) {
      if i < |picks| {
        assert TurnAt(candidates, before, picks, i);
      }
    }
  }

  /** Last-used stays with one candidate for as long as the candidates stay the same. */
  lemma {:induction false} LastUsedStays(candidates: seq<WorkerId>, before: Memory, picks: seq<WorkerId>, after: Memory)
    requires candidates != [] && Answers(LastUsed, candidates, before, picks, after)
    ensures picks != [] ==> after == before.(lastUsed := Some(picks[0])) && picks[0] in candidates
    ensures forall i :: 0 <= i < |picks| ==> picks[i] == picks[0]
    ensures picks != [] && before.lastUsed.Some? && before.lastUsed.value in candidates ==> Some(picks[0]) == before.lastUsed
    decreases |picks|
  {
    if picks != [] {
      var n := |picks| - 1;
      var mid, workers, random: nat :|
        && Answers(LastUsed, candidates, before, picks[..n], mid)
        && random < |candidates| && (forall c :: c in candidates ==> c in workers)
        && Chosen(LastUsed, mid, after, workers, candidates, random, Some(picks[n]));
      LastUsedStays(candidates, before, picks[..n], mid);
      var first := candidates[0];
      assert first in candidates;
      if n > 0 {
        assert picks[..n][0] == picks[0];
      }
      forall i | 0 <= i < |picks| ensures picks[i] == picks[0] {
        if i < n {
          assert picks[..n][i] == picks[i];
        }
      }
    }
  }
}
