/** How weighted round robin shares its picks over a whole run. */
module WeightRobinFairness {
  import opened Common
  import opened WorkerTypes
  import opened WeightRobin

  /** `last` is what `picks` calls with the same candidates and weights leave, from a fresh start. */
  ghost predicate SteadyRun(candidates: seq<WorkerId>, weights: map<WorkerId, int>,
                            picks: seq<WorkerId>, last: seq<Server>)
    requires forall c :: c in candidates ==> c in weights
    decreases |picks|
  {
    if picks == [] then last == []
    else
      var n := |picks| - 1;
      exists before ::
        SteadyRun(candidates, weights, picks[..n], before) && Call(before, candidates, weights, last, picks[n])
  }

  /** One server for each candidate, in the same order, with its weight. */
  ghost predicate Settled(servers: seq<Server>, candidates: seq<WorkerId>, weights: map<WorkerId, int>)
    requires forall c :: c in candidates ==> c in weights
  {
    |servers| == |candidates| &&
    forall i :: 0 <= i < |servers| ==> servers[i].name == candidates[i] && servers[i].weight == weights[candidates[i]]
  }

  lemma {:induction false} FirstMaxExists(servers: seq<Server>, n: nat) returns (k: nat)
    requires 0 < n <= |servers|
    ensures FirstMaxOf(servers, n, k)
    decreases n
  {
    if n == 1 {
      k := 0;
    } else {
      k := FirstMaxExists(servers, n - 1);
      if servers[k].curWeight < servers[n - 1].curWeight {
        k := n - 1;
      }
    }
  }

  lemma CallExists(before: seq<Server>, candidates: seq<WorkerId>, weights: map<WorkerId, int>)
    returns (after: seq<Server>, picked: WorkerId)
    requires |candidates| > 0 && forall c :: c in candidates ==> c in weights
    ensures Call(before, candidates, weights, after, picked)
  {
    var kept := KeptOnly(Refreshed(before, candidates, weights), candidates);
    KnowsCandidates(before, candidates, weights);
    var k := FirstMaxExists(Bumped(kept), |kept|);
    after := Charged(Bumped(kept), k, TotalWeight(kept));
    picked := after[k].name;
    assert Round(kept, after, k);
  }

  lemma OneMoreCall(candidates: seq<WorkerId>, weights: map<WorkerId, int>, picks: seq<WorkerId>,
                    before: seq<Server>, after: seq<Server>, picked: WorkerId)
    requires forall c :: c in candidates ==> c in weights
    requires SteadyRun(candidates, weights, picks, before) && Call(before, candidates, weights, after, picked)
    ensures SteadyRun(candidates, weights, picks + [picked], after)
  {
    assert (picks + [picked])[..|picks|] == picks;
  }

  /** There are runs of any length: with a candidate to pick, a call always comes to an answer. */
  lemma {:induction false} RunExists(candidates: seq<WorkerId>, weights: map<WorkerId, int>, n: nat)
    returns (picks: seq<WorkerId>, last: seq<Server>)
    requires |candidates| > 0 && forall c :: c in candidates ==> c in weights
    ensures |picks| == n && SteadyRun(candidates, weights, picks, last)
    decreases n
  {
    if n == 0 {
      picks, last := [], [];
    } else {
      var earlier, before := RunExists(candidates, weights, n - 1);
      var after, picked := CallExists(before, candidates, weights);
      OneMoreCall(candidates, weights, earlier, before, after, picked);
      picks, last := earlier + [picked], after;
    }
  }

  // Refreshing a settled list changes nothing

  lemma {:induction false} FirstRefresh(candidates: seq<WorkerId>, weights: map<WorkerId, int>)
    requires NoDup(candidates) && forall c :: c in candidates ==> c in weights
    ensures Settled(Refreshed([], candidates, weights), candidates, weights)
    ensures forall s :: s in Refreshed([], candidates, weights) ==> s.curWeight == 0
    decreases |candidates|
  {
    if candidates != [] {
      var n := |candidates| - 1;
      FirstRefresh(candidates[..n], weights);
      var p := Refreshed([], candidates[..n], weights);
      assert IndexOfName(p, candidates[n]) == -1;
    }
  }

  lemma {:induction false} RefreshSettled(
      servers: seq<Server>, candidates: seq<WorkerId>, weights: map<WorkerId, int>, n: nat)
    requires NoDup(candidates) && forall c :: c in candidates ==> c in weights
    requires Settled(servers, candidates, weights) && n <= |candidates|
    ensures Refreshed(servers, candidates[..n], weights) == servers
  {
    if n > 0 {
      RefreshSettled(servers, candidates, weights, n - 1);
      assert candidates[..n][..n - 1] == candidates[..n - 1];
      var i := IndexOfName(servers, candidates[n - 1]);
      assert servers[n - 1].name == candidates[n - 1];
      assert i == n - 1;
    }
  }

  lemma {:induction false} KeepAll(servers: seq<Server>, candidates: seq<WorkerId>)
    requires forall s :: s in servers ==> s.name in candidates
    ensures KeptOnly(servers, candidates) == servers
  {
    if servers != [] {
      assert servers[0] in servers;
      KeepAll(servers[1..], candidates);
    }
  }

  lemma SettledKept(servers: seq<Server>, candidates: seq<WorkerId>, weights: map<WorkerId, int>)
    requires NoDup(candidates) && forall c :: c in candidates ==> c in weights
    requires servers == [] || Settled(servers, candidates, weights)
    ensures var r := KeptOnly(Refreshed(servers, candidates, weights), candidates);
            && Settled(r, candidates, weights)
            && SumOfCurrent(r) == SumOfCurrent(servers)
            && forall i :: 0 <= i < |r| ==> r[i].curWeight == (if servers == [] then 0 else servers[i].curWeight)
  {
    var r := Refreshed(servers, candidates, weights);
    if servers == [] {
      FirstRefresh(candidates, weights);
      ZeroSum(r);
    } else {
      RefreshSettled(servers, candidates, weights, |candidates|);
      assert candidates[..|candidates|] == candidates;
    }
    KeepAll(r, candidates);
  }

  // Sums

  lemma {:induction false} ZeroSum(servers: seq<Server>)
    requires forall s :: s in servers ==> s.curWeight == 0
    ensures SumOfCurrent(servers) == 0
    decreases |servers|
  {
    if servers != [] {
      assert servers[|servers| - 1] in servers;
      ZeroSum(servers[..|servers| - 1]);
    }
  }

  lemma {:induction false} NonNegativeSum(servers: seq<Server>, i: nat)
    requires i < |servers| && forall s :: s in servers ==> s.curWeight >= 0
    ensures SumOfCurrent(servers) >= servers[i].curWeight
    decreases |servers|
  {
    var n := |servers| - 1;
    assert servers[n] in servers;
    if i < n {
      NonNegativeSum(servers[..n], i);
    } else if n > 0 {
      assert servers[..n][0] in servers[..n];
      NonNegativeSum(servers[..n], 0);
    }
  }

  lemma {:induction false} NonPositiveSum(servers: seq<Server>)
    requires forall s :: s in servers ==> s.curWeight <= 0
    ensures SumOfCurrent(servers) <= 0
    decreases |servers|
  {
    if servers != [] {
      assert servers[|servers| - 1] in servers;
      NonPositiveSum(servers[..|servers| - 1]);
    }
  }

  lemma {:induction false} BumpedSum(servers: seq<Server>)
    ensures SumOfCurrent(Bumped(servers)) == SumOfCurrent(servers) + TotalWeight(servers)
    decreases |servers|
  {
    if servers != [] {
      var n := |servers| - 1;
      assert Bumped(servers)[..n] == Bumped(servers[..n]);
      BumpedSum(servers[..n]);
    }
  }

  lemma {:induction false} ChargedSum(servers: seq<Server>, k: nat, total: int)
    requires k < |servers|
    ensures SumOfCurrent(Charged(servers, k, total)) == SumOfCurrent(servers) - total
    decreases |servers|
  {
    var n := |servers| - 1;
    if k < n {
      assert Charged(servers, k, total)[..n] == Charged(servers[..n], k, total);
      ChargedSum(servers[..n], k, total);
    } else {
      assert Charged(servers, k, total)[..n] == servers[..n];
    }
  }

  /** A round conserves the sum of the current weights. */
  lemma RoundConservesSum(before: seq<Server>, after: seq<Server>, k: int)
    requires Round(before, after, k)
    ensures SumOfCurrent(after) == SumOfCurrent(before)
  {
    BumpedSum(before);
    ChargedSum(Bumped(before), k, TotalWeight(before));
  }

  // Conservation with any candidates and weights

  function Dropped(servers: seq<Server>, candidates: seq<WorkerId>): (r: seq<Server>)
    ensures forall s :: s in r <==> s in servers && s.name !in candidates
  {
    if servers == [] then []
    else Dropped(servers[..|servers| - 1], candidates) +
         (if servers[|servers| - 1].name in candidates then [] else [servers[|servers| - 1]])
  }

  lemma SumOfOne(a: seq<Server>, s: Server)
    ensures SumOfCurrent(a + [s]) == SumOfCurrent(a) + s.curWeight
    ensures a + [] == a
  {
    assert (a + [s])[..|a|] == a;
  }

  lemma {:induction false} KeptOnlyLast(servers: seq<Server>, s: Server, candidates: seq<WorkerId>)
    ensures KeptOnly(servers + [s], candidates) ==
            KeptOnly(servers, candidates) + (if s.name in candidates then [s] else [])
  {
    if servers != [] {
      assert (servers + [s])[1..] == servers[1..] + [s];
      KeptOnlyLast(servers[1..], s, candidates);
    }
  }

  lemma {:induction false} SumSplits(servers: seq<Server>, candidates: seq<WorkerId>)
    ensures SumOfCurrent(servers) ==
            SumOfCurrent(KeptOnly(servers, candidates)) + SumOfCurrent(Dropped(servers, candidates))
    decreases |servers|
  {
    if servers != [] {
      var n := |servers| - 1;
      assert servers == servers[..n] + [servers[n]];
      KeptOnlyLast(servers[..n], servers[n], candidates);
      SumSplits(servers[..n], candidates);
      SumOfOne(KeptOnly(servers[..n], candidates), servers[n]);
      SumOfOne(Dropped(servers[..n], candidates), servers[n]);
    }
  }

  lemma {:induction false} RefreshKeepsSum(servers: seq<Server>, candidates: seq<WorkerId>, weights: map<WorkerId, int>)
    requires forall c :: c in candidates ==> c in weights
    ensures SumOfCurrent(Refreshed(servers, candidates, weights)) == SumOfCurrent(servers)
    decreases |candidates|
  {
    if candidates != [] {
      var n := |candidates| - 1;
      RefreshKeepsSum(servers, candidates[..n], weights);
      var p := Refreshed(servers, candidates[..n], weights);
      var i := IndexOfName(p, candidates[n]);
      if i == -1 {
        SumOfOne(p, Server(candidates[n], 0, weights[candidates[n]]));
      } else {
        SameCurrentSameSum(p, p[i := p[i].(weight := weights[candidates[n]])]);
      }
    }
  }

  lemma {:induction false} SameCurrentSameSum(a: seq<Server>, b: seq<Server>)
    requires |a| == |b| && forall i :: 0 <= i < |a| ==> a[i].curWeight == b[i].curWeight
    ensures SumOfCurrent(a) == SumOfCurrent(b)
    decreases |a|
  {
    if a != [] {
      SameCurrentSameSum(a[..|a| - 1], b[..|b| - 1]);
    }
  }

  /**
   With any weights and any new candidates a call changes the sum of the current weights by exactly what
   the servers it drops take with them.
   */
  lemma CallConservesSum(before: seq<Server>, candidates: seq<WorkerId>, weights: map<WorkerId, int>,
                         after: seq<Server>, picked: WorkerId)
    requires forall c :: c in candidates ==> c in weights
    requires Call(before, candidates, weights, after, picked)
    ensures SumOfCurrent(after) ==
            SumOfCurrent(before) - SumOfCurrent(Dropped(Refreshed(before, candidates, weights), candidates))
    ensures SumOfCurrent(after) == SumOfCurrent(before) <==>
            SumOfCurrent(Dropped(Refreshed(before, candidates, weights), candidates)) == 0
  {
    var r := Refreshed(before, candidates, weights);
    var k :| Round(KeptOnly(r, candidates), after, k) && after[k].name == picked;
    RoundConservesSum(KeptOnly(r, candidates), after, k);
    SumSplits(r, candidates);
    RefreshKeepsSum(before, candidates, weights);
  }

  /** One call of a run in which candidates and weights change freely, with the servers it leaves. */
  datatype Turn = Turn(candidates: seq<WorkerId>, weights: map<WorkerId, int>, picked: WorkerId, after: seq<Server>)

  function ServersAfter(turns: seq<Turn>): seq<Server> {
    if turns == [] then [] else turns[|turns| - 1].after
  }

  ghost predicate VaryingRun(turns: seq<Turn>)
    decreases |turns|
  {
    turns != [] ==>
      var t := turns[|turns| - 1];
      && VaryingRun(turns[..|turns| - 1])
      && (forall c :: c in t.candidates ==> c in t.weights)
      && Call(ServersAfter(turns[..|turns| - 1]), t.candidates, t.weights, t.after, t.picked)
  }

  /** The current weights that dropped servers took with them over the run. */
  ghost function TakenAway(turns: seq<Turn>): int
    requires VaryingRun(turns)
    decreases |turns|
  {
    if turns == [] then 0
    else
      var t := turns[|turns| - 1];
      var servers := Refreshed(ServersAfter(turns[..|turns| - 1]), t.candidates, t.weights);
      TakenAway(turns[..|turns| - 1]) + SumOfCurrent(Dropped(servers, t.candidates))
  }

  ghost predicate UniqueNames(servers: seq<Server>) {
    forall i, j :: 0 <= i < j < |servers| ==> servers[i].name != servers[j].name
  }

  lemma {:induction false} RefreshedUnique(servers: seq<Server>, candidates: seq<WorkerId>, weights: map<WorkerId, int>)
    requires UniqueNames(servers) && forall c :: c in candidates ==> c in weights
    ensures UniqueNames(Refreshed(servers, candidates, weights))
    decreases |candidates|
  {
    if candidates != [] {
      RefreshedUnique(servers, candidates[..|candidates| - 1], weights);
    }
  }

  lemma {:induction false} KeptUnique(servers: seq<Server>, candidates: seq<WorkerId>)
    requires UniqueNames(servers)
    ensures UniqueNames(KeptOnly(servers, candidates))
  {
    if servers != [] {
      KeptUnique(servers[1..], candidates);
      forall s | s in KeptOnly(servers[1..], candidates) ensures s.name != servers[0].name {
        assert s in servers[1..];
      }
    }
  }

  lemma CallUnique(before: seq<Server>, candidates: seq<WorkerId>, weights: map<WorkerId, int>,
                   after: seq<Server>, picked: WorkerId)
    requires UniqueNames(before) && forall c :: c in candidates ==> c in weights
    requires Call(before, candidates, weights, after, picked)
    ensures UniqueNames(after)
  {
    var kept := KeptOnly(Refreshed(before, candidates, weights), candidates);
    var k :| Round(kept, after, k) && after[k].name == picked;
    RefreshedUnique(before, candidates, weights);
    KeptUnique(Refreshed(before, candidates, weights), candidates);
    assert forall i :: 0 <= i < |after| ==> after[i].name == kept[i].name;
  }

  /**
   Over a whole run with any candidates and weights no server is listed twice, and the current weights sum to minus
   what dropped servers took with them: to 0 if and only if they took 0 in all.
   */
  lemma {:induction false} RunConservesSum(turns: seq<Turn>)
    requires VaryingRun(turns)
    ensures SumOfCurrent(ServersAfter(turns)) == -TakenAway(turns)
    ensures SumOfCurrent(ServersAfter(turns)) == 0 <==> TakenAway(turns) == 0
    ensures UniqueNames(ServersAfter(turns))
    decreases |turns|
  {
    if turns != [] {
      var t := turns[|turns| - 1];
      var before := ServersAfter(turns[..|turns| - 1]);
      RunConservesSum(turns[..|turns| - 1]);
      CallConservesSum(before, t.candidates, t.weights, t.after, t.picked);
      CallUnique(before, t.candidates, t.weights, t.after, t.picked);
    }
  }

  // Fairness

  function SumOfWeights(candidates: seq<WorkerId>, weights: map<WorkerId, int>): int
    requires forall c :: c in candidates ==> c in weights
    decreases |candidates|
  {
    if candidates == [] then 0
    else SumOfWeights(candidates[..|candidates| - 1], weights) + weights[candidates[|candidates| - 1]]
  }

  lemma {:induction false} TotalIsSum(servers: seq<Server>, candidates: seq<WorkerId>, weights: map<WorkerId, int>)
    requires forall c :: c in candidates ==> c in weights
    requires Settled(servers, candidates, weights)
    ensures TotalWeight(servers) == SumOfWeights(candidates, weights)
    decreases |servers|
  {
    if servers != [] {
      var n := |servers| - 1;
      TotalIsSum(servers[..n], candidates[..n], weights);
    }
  }

  function Count(picks: seq<WorkerId>, c: WorkerId): nat
    decreases |picks|
  {
    if picks == [] then 0
    else Count(picks[..|picks| - 1], c) + if picks[|picks| - 1] == c then 1 else 0
  }

  /** What a server earned in `m` calls less what its `count` picks cost it; never a whole `total` in debt. */
  ghost predicate Stands(cur: int, total: int, m: nat, weight: int, count: nat) {
    cur > -total && cur == m * weight - total * count
  }

  ghost predicate Standing(servers: seq<Server>, candidates: seq<WorkerId>, weights: map<WorkerId, int>,
                           total: int, picks: seq<WorkerId>)
    requires forall c :: c in candidates ==> c in weights
  {
    && Settled(servers, candidates, weights)
    && SumOfCurrent(servers) == 0
    && forall i :: 0 <= i < |servers| ==>
         Stands(servers[i].curWeight, total, |picks|, weights[candidates[i]], Count(picks, candidates[i]))
  }

  lemma StandsOn(cur: int, total: int, m: nat, weight: int, count: nat, hit: bool)
    requires Stands(cur, total, m, weight, count) && total > 0 && weight >= 0
    requires hit ==> cur + weight > 0
    ensures Stands(cur + weight - (if hit then total else 0), total, m + 1, weight, count + if hit then 1 else 0)
  {
    assert (m + 1) * weight == m * weight + weight;
    assert total * (count + 1) == total * count + total;
  }

  /** The server that is picked had a positive weight before it paid. */
  lemma PickedPositive(before: seq<Server>, k: int)
    requires IsFirstMax(Bumped(before), k) && SumOfCurrent(before) == 0 && TotalWeight(before) > 0
    ensures Bumped(before)[k].curWeight > 0
  {
    BumpedSum(before);
    if Bumped(before)[k].curWeight <= 0 {
      NonPositiveSum(Bumped(before));
      assert false;
    }
  }

  lemma RoundStanding(before: seq<Server>, candidates: seq<WorkerId>, weights: map<WorkerId, int>, total: int,
                      picks: seq<WorkerId>, after: seq<Server>, k: int)
    requires NoDup(candidates) && forall c :: c in candidates ==> c in weights && weights[c] >= 0
    requires total == SumOfWeights(candidates, weights) > 0 && picks != []
    requires Standing(before, candidates, weights, total, picks[..|picks| - 1]) && Round(before, after, k)
    requires after[k].name == picks[|picks| - 1]
    ensures Standing(after, candidates, weights, total, picks)
  {
    TotalIsSum(before, candidates, weights);
    RoundConservesSum(before, after, k);
    PickedPositive(before, k);
    forall i | 0 <= i < |after|
      ensures Stands(after[i].curWeight, total, |picks|, weights[candidates[i]], Count(picks, candidates[i]))
    {
      assert candidates[i] in candidates;
      StandsOn(before[i].curWeight, total, |picks| - 1, weights[candidates[i]],
               Count(picks[..|picks| - 1], candidates[i]), i == k);
    }
  }

  /** A call starts its round from the standing the previous call left. */
  lemma CallStanding(servers: seq<Server>, candidates: seq<WorkerId>, weights: map<WorkerId, int>,
                     picks: seq<WorkerId>, after: seq<Server>)
    requires NoDup(candidates) && forall c :: c in candidates ==> c in weights && weights[c] >= 0
    requires SumOfWeights(candidates, weights) > 0 && picks != []
    requires if |picks| == 1 then servers == []
             else Standing(servers, candidates, weights, SumOfWeights(candidates, weights), picks[..|picks| - 1])
    requires Call(servers, candidates, weights, after, picks[|picks| - 1])
    ensures Standing(after, candidates, weights, SumOfWeights(candidates, weights), picks)
  {
    var before := KeptOnly(Refreshed(servers, candidates, weights), candidates);
    var k :| Round(before, after, k) && after[k].name == picks[|picks| - 1];
    SettledKept(servers, candidates, weights);
    RoundStanding(before, candidates, weights, SumOfWeights(candidates, weights), picks, after, k);
  }

  lemma {:induction false} RunStanding(candidates: seq<WorkerId>, weights: map<WorkerId, int>,
                                       picks: seq<WorkerId>, last: seq<Server>)
    requires NoDup(candidates) && forall c :: c in candidates ==> c in weights && weights[c] >= 0
    requires SumOfWeights(candidates, weights) > 0 && SteadyRun(candidates, weights, picks, last)
    requires picks != []
    ensures Standing(last, candidates, weights, SumOfWeights(candidates, weights), picks)
    decreases |picks|
  {
    var n := |picks| - 1;
    var before :| SteadyRun(candidates, weights, picks[..n], before) && Call(before, candidates, weights, last, picks[n]);
    if n > 0 {
      RunStanding(candidates, weights, picks[..n], before);
    }
    CallStanding(before, candidates, weights, picks, last);
  }

  /** No server is ever a full pick ahead of its share: after m calls it has fewer than m * w / W + 1 picks. */
  lemma NeverAFullPickAhead(candidates: seq<WorkerId>, weights: map<WorkerId, int>,
                            picks: seq<WorkerId>, last: seq<Server>, c: WorkerId)
    requires NoDup(candidates) && forall d :: d in candidates ==> d in weights && weights[d] >= 0
    requires SumOfWeights(candidates, weights) > 0 && SteadyRun(candidates, weights, picks, last)
    requires c in candidates
    ensures SumOfWeights(candidates, weights) * Count(picks, c) <
            |picks| * weights[c] + SumOfWeights(candidates, weights)
  {
    if picks != [] {
      RunStanding(candidates, weights, picks, last);
      var i :| 0 <= i < |candidates| && candidates[i] == c;
    }
  }

  lemma WholeRounds(total: int, q: nat, w: int, picked: int, cur: int)
    requires total > 0 && cur > -total && cur == (q * total) * w - total * picked
    ensures cur == total * (q * w - picked) && q * w - picked >= 0 && cur >= 0
  {
    var d := q * w - picked;
    assert (q * total) * w == total * (q * w);
    assert cur == total * d;
    if d < 0 {
      NegativeMultiple(total, d);
      assert false;
    }
  }

  lemma NegativeMultiple(total: int, d: int)
    requires total > 0 && d < 0
    ensures total * d <= -total
  {}

  lemma SettledShares(candidates: seq<WorkerId>, weights: map<WorkerId, int>, total: int, q: nat,
                      picks: seq<WorkerId>, last: seq<Server>)
    requires forall c :: c in candidates ==> c in weights
    requires total > 0 && |picks| == q * total && Standing(last, candidates, weights, total, picks)
    ensures forall i :: 0 <= i < |last| ==>
              last[i].curWeight == 0 && Count(picks, candidates[i]) == q * weights[candidates[i]]
  {
    forall i | 0 <= i < |last| ensures last[i].curWeight >= 0 {
      WholeRounds(total, q, weights[candidates[i]], Count(picks, candidates[i]), last[i].curWeight);
    }
    forall i | 0 <= i < |last|
      ensures last[i].curWeight == 0 && Count(picks, candidates[i]) == q * weights[candidates[i]]
    {
      NonNegativeSum(last, i);
      WholeRounds(total, q, weights[candidates[i]], Count(picks, candidates[i]), last[i].curWeight);
      ZeroProduct(total, q * weights[candidates[i]] - Count(picks, candidates[i]));
    }
  }

  /**
   Fairness: after q * W calls from a fresh start, where W > 0 is the sum of the weights, every candidate has
   been picked exactly q times its weight, and all current weights are back at 0.
   */
  lemma ExactShares(candidates: seq<WorkerId>, weights: map<WorkerId, int>,
                    picks: seq<WorkerId>, last: seq<Server>, q: nat)
    requires NoDup(candidates) && forall d :: d in candidates ==> d in weights && weights[d] >= 0
    requires SumOfWeights(candidates, weights) > 0 && SteadyRun(candidates, weights, picks, last)
    requires |picks| == q * SumOfWeights(candidates, weights)
    ensures forall c :: c in candidates ==> Count(picks, c) == q * weights[c]
    ensures forall s :: s in last ==> s.curWeight == 0
  {
    if picks == [] {
      ZeroProduct(SumOfWeights(candidates, weights), q);
    } else {
      RunStanding(candidates, weights, picks, last);
      SettledShares(candidates, weights, SumOfWeights(candidates, weights), q, picks, last);
    }
  }

  lemma ZeroProduct(total: int, d: int)
    requires total > 0
    ensures (total * d == 0 || d * total == 0) ==> d == 0
  {}
}
