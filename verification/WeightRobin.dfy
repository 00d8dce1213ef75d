/** Smooth weighted round robin: each pick goes to the server furthest behind its share. */
module WeightRobin {
  import opened Common
  import opened WorkerTypes

  datatype Server = Server(name: WorkerId, curWeight: int, weight: int)

  /** `parseInt((1 - load) * 100)`: truncation toward zero. */
  function WeightOf(load: real): int {
    var x := (1.0 - load) * 100.0;
    if x >= 0.0 then x.Floor else -((-x).Floor)
  }

  function IndexOfName(servers: seq<Server>, name: WorkerId): (i: int)
    ensures -1 <= i < |servers|
    ensures i >= 0 ==> servers[i].name == name && forall j :: 0 <= j < i ==> servers[j].name != name
    ensures i == -1 ==> forall j :: 0 <= j < |servers| ==> servers[j].name != name
  {
    if servers == [] then -1
    else if servers[0].name == name then 0
    else
      var j := IndexOfName(servers[1..], name);
      if j == -1 then
        assert forall k :: 1 <= k < |servers| ==> servers[k] == servers[1..][k - 1];
        -1
      else j + 1
  }

  // One allocation as a function

  /** A candidate is known already and gets its new weight, or is appended. */
  function WithCandidate(servers: seq<Server>, name: WorkerId, weight: int): seq<Server> {
    var i := IndexOfName(servers, name);
    if i == -1 then servers + [Server(name, 0, weight)] else servers[i := servers[i].(weight := weight)]
  }

  function Refreshed(servers: seq<Server>, candidates: seq<WorkerId>, weights: map<WorkerId, int>): seq<Server>
    requires forall c :: c in candidates ==> c in weights
    decreases |candidates|
  {
    if candidates == [] then servers
    else
      var n := |candidates| - 1;
      WithCandidate(Refreshed(servers, candidates[..n], weights), candidates[n], weights[candidates[n]])
  }

  function KeptOnly(servers: seq<Server>, candidates: seq<WorkerId>): (r: seq<Server>)
    ensures forall s :: s in r <==> s in servers && s.name in candidates
  {
    if servers == [] then []
    else (if servers[0].name in candidates then [servers[0]] else []) + KeptOnly(servers[1..], candidates)
  }

  lemma KeptStep(servers: seq<Server>, i: nat, candidates: seq<WorkerId>)
    requires i < |servers|
    ensures KeptOnly(servers[i..], candidates) ==
            (if servers[i].name in candidates then [servers[i]] else []) + KeptOnly(servers[i + 1..], candidates)
  {
    assert servers[i..][1..] == servers[i + 1..];
  }

  function TotalWeight(servers: seq<Server>): int {
    if servers == [] then 0 else TotalWeight(servers[..|servers| - 1]) + servers[|servers| - 1].weight
  }

  lemma TotalOfPrefix(servers: seq<Server>, i: nat)
    requires i < |servers|
    ensures TotalWeight(servers[..i + 1]) == TotalWeight(servers[..i]) + servers[i].weight
  {
    assert servers[..i + 1][..i] == servers[..i];
  }

  function SumOfCurrent(servers: seq<Server>): int {
    if servers == [] then 0 else SumOfCurrent(servers[..|servers| - 1]) + servers[|servers| - 1].curWeight
  }

  function Bumped(servers: seq<Server>): (r: seq<Server>)
    ensures |r| == |servers|
    ensures forall i :: 0 <= i < |r| ==> r[i] == servers[i].(curWeight := servers[i].curWeight + servers[i].weight)
  {
    seq(|servers|, i requires 0 <= i < |servers| => servers[i].(curWeight := servers[i].curWeight + servers[i].weight))
  }

  function BumpedOne(s: Server): Server {
    s.(curWeight := s.curWeight + s.weight)
  }

  /** The first `i` of `kept` are bumped. */
  ghost predicate BumpedUpTo(kept: seq<Server>, servers: seq<Server>, i: nat) {
    && |servers| == |kept|
    && forall j :: 0 <= j < |kept| ==> servers[j] == if j < i then BumpedOne(kept[j]) else kept[j]
  }

  lemma BumpedEnd(kept: seq<Server>, servers: seq<Server>)
    requires BumpedUpTo(kept, servers, |kept|)
    ensures servers == Bumped(kept)
  {}

  lemma BumpedStep(kept: seq<Server>, servers: seq<Server>, i: nat, index: int, total: int)
    requires i < |kept| && BumpedUpTo(kept, servers, i) && total == TotalWeight(kept[..i])
    requires if i == 0 then index == -1 else FirstMaxOf(servers, i, index)
    ensures var b := BumpedOne(servers[i]);
            && BumpedUpTo(kept, servers[i := b], i + 1) && total + b.weight == TotalWeight(kept[..i + 1])
            && FirstMaxOf(servers[i := b], i + 1,
                          if index == -1 || servers[index].curWeight < b.curWeight then i else index)
  {
    TotalOfPrefix(kept, i);
    MaxStep(servers, BumpedOne(servers[i]), i, index);
  }

  /** The first of the first `n` servers that has the greatest current weight among them. */
  ghost predicate FirstMaxOf(servers: seq<Server>, n: nat, k: int) {
    && 0 <= k < n <= |servers|
    && (forall i :: 0 <= i < n ==> servers[i].curWeight <= servers[k].curWeight)
    && (forall i :: 0 <= i < k ==> servers[i].curWeight < servers[k].curWeight)
  }

  lemma MaxStep(servers: seq<Server>, s: Server, i: nat, k: int)
    requires i < |servers| && (if i == 0 then k == -1 else FirstMaxOf(servers, i, k))
    ensures FirstMaxOf(servers[i := s], i + 1, if k == -1 || servers[k].curWeight < s.curWeight then i else k)
  {}

  ghost predicate IsFirstMax(servers: seq<Server>, k: int) {
    FirstMaxOf(servers, |servers|, k)
  }

  function Charged(servers: seq<Server>, k: nat, total: int): seq<Server>
    requires k < |servers|
  {
    servers[k := servers[k].(curWeight := servers[k].curWeight - total)]
  }

  /** `after` and `k` come from `before` by one round: bump everybody, charge the first maximum. */
  ghost predicate Round(before: seq<Server>, after: seq<Server>, k: int) {
    IsFirstMax(Bumped(before), k) && after == Charged(Bumped(before), k, TotalWeight(before))
  }

  /** One allocation: refresh, drop whoever is no candidate, one round. */
  ghost predicate Call(before: seq<Server>, candidates: seq<WorkerId>, weights: map<WorkerId, int>,
                       after: seq<Server>, picked: WorkerId)
    requires forall c :: c in candidates ==> c in weights
  {
    exists k :: Round(KeptOnly(Refreshed(before, candidates, weights), candidates), after, k) && after[k].name == picked
  }

  class WeightRobinStrategy {
    var servers: seq<Server>

    constructor ()
      ensures servers == []
    {
      servers := [];
    }

    method Allocate(weights: map<WorkerId, int>, candidates: seq<WorkerId>) returns (picked: WorkerId)
      requires |candidates| > 0 && forall c :: c in candidates ==> c in weights
      modifies this
      ensures picked in candidates
      ensures Call(old(servers), candidates, weights, servers, picked)
    {
      Refresh(weights, candidates);
      KnowsCandidates(old(servers), candidates, weights);
      DropAbsent(candidates);
      ghost var kept := servers;
      var index := Pick();
      picked := servers[index].name;
      assert kept[index] in kept;
      assert Round(KeptOnly(Refreshed(old(servers), candidates, weights), candidates), servers, index);
    }

    /** Gives every candidate its weight of the moment. */
    method Refresh(weights: map<WorkerId, int>, candidates: seq<WorkerId>)
      requires forall c :: c in candidates ==> c in weights
      modifies this
      ensures servers == Refreshed(old(servers), candidates, weights)
    {
      for n := 0 to |candidates|
        invariant servers == Refreshed(old(servers), candidates[..n], weights)
      {
        var id := candidates[n];
        assert candidates[..n + 1][..n] == candidates[..n];
        var index := IndexOfName(servers, id);
        if index == -1 {
          servers := servers + [Server(id, 0, weights[id])];
        } else {
          servers := servers[index := servers[index].(weight := weights[id])];
        }
      }
      assert candidates[..|candidates|] == candidates;
    }

    /** The first half of a round: everybody is bumped, and the first maximum is found on the way. */
    method BumpAll() returns (index: int, total: int)
      requires servers != []
      modifies this
      ensures servers == Bumped(old(servers)) && total == TotalWeight(old(servers)) && IsFirstMax(servers, index)
    {
      ghost var kept := servers;
      index, total := -1, 0;
      var i := 0;
      while i < |servers|
        invariant 0 <= i <= |kept| && BumpedUpTo(kept, servers, i)
        invariant total == TotalWeight(kept[..i])
        invariant if i == 0 then index == -1 else FirstMaxOf(servers, i, index)
      {
        BumpedStep(kept, servers, i, index, total);
        var bumped := servers[i].(curWeight := servers[i].curWeight + servers[i].weight);
        if index == -1 || servers[index].curWeight < bumped.curWeight {
          index := i;
        }
        servers := servers[i := bumped];
        total := total + bumped.weight;
        i := i + 1;
      }
      assert kept[..i] == kept;
      BumpedEnd(kept, servers);
    }

    /** One round over the servers that are left. */
    method Pick() returns (index: int)
      requires servers != []
      modifies this
      ensures Round(old(servers), servers, index)
      ensures servers[index].name == old(servers)[index].name
    {
      var total;
      index, total := BumpAll();
      servers := servers[index := servers[index].(curWeight := servers[index].curWeight - total)];
    }

    /** Walks down the list and splices out the servers that are no candidates any longer. */
    method DropAbsent(candidates: seq<WorkerId>)
      modifies this
      ensures servers == KeptOnly(old(servers), candidates)
    {
      ghost var was := servers;
      var i := |servers| - 1;
      while i >= 0
        invariant -1 <= i < |was|
        invariant servers == was[..i + 1] + KeptOnly(was[i + 1..], candidates)
      {
        Splice(was, i, KeptOnly(was[i + 1..], candidates));
        KeptStep(was, i, candidates);
        if servers[i].name !in candidates {
          servers := servers[..i] + servers[i + 1..];
        }
        i := i - 1;
      }
      assert was[0..] == was;
    }
  }

  // What refreshing knows

  lemma {:induction false} RefreshedKnows(
      servers: seq<Server>, candidates: seq<WorkerId>, weights: map<WorkerId, int>, c: WorkerId)
    requires forall d :: d in candidates ==> d in weights
    requires c in candidates
    ensures IndexOfName(Refreshed(servers, candidates, weights), c) >= 0
    decreases |candidates|
  {
    var n := |candidates| - 1;
    var p := Refreshed(servers, candidates[..n], weights);
    var r := WithCandidate(p, candidates[n], weights[candidates[n]]);
    if c == candidates[n] {
      var i := IndexOfName(p, c);
      assert r[if i == -1 then |p| else i].name == c;
    } else {
      assert c in candidates[..n];
      RefreshedKnows(servers, candidates[..n], weights, c);
      assert r[IndexOfName(p, c)].name == c;
    }
  }

  /** A non-empty list of candidates leaves a non-empty list of servers. */
  lemma KnowsCandidates(servers: seq<Server>, candidates: seq<WorkerId>, weights: map<WorkerId, int>)
    requires candidates != [] && forall c :: c in candidates ==> c in weights
    ensures KeptOnly(Refreshed(servers, candidates, weights), candidates) != []
  {
    var r := Refreshed(servers, candidates, weights);
    RefreshedKnows(servers, candidates, weights, candidates[0]);
    assert r[IndexOfName(r, candidates[0])] in KeptOnly(r, candidates);
  }

  // What the weights are

  /** A weight is the worker's free capacity in percent, cut to a whole number toward zero. */
  lemma WeightIsFreeShare(load: real)
    ensures var free := (1.0 - load) * 100.0;
            if load <= 1.0 then 0.0 <= WeightOf(load) as real <= free < WeightOf(load) as real + 1.0
            else WeightOf(load) as real - 1.0 < free <= WeightOf(load) as real <= 0.0
  {}

  /** A worker with less load never weighs less. */
  lemma LessLoadMoreWeight(load: real, less: real)
    requires less <= load
    ensures WeightOf(less) >= WeightOf(load)
  {
    WeightIsFreeShare(load);
    WeightIsFreeShare(less);
  }

  // What a call begins with

  /** The current weight that a server list has for a name, 0 if it has none. */
  function CurrentOf(servers: seq<Server>, name: WorkerId): int {
    var i := IndexOfName(servers, name);
    if i == -1 then 0 else servers[i].curWeight
  }

  lemma WithCandidateIs(servers: seq<Server>, name: WorkerId, weight: int, other: WorkerId)
    ensures var r := WithCandidate(servers, name, weight);
            && CurrentOf(r, other) == CurrentOf(servers, other)
            && (IndexOfName(r, name) >= 0 && r[IndexOfName(r, name)].weight == weight)
            && (other != name ==>
                  && (IndexOfName(r, other) >= 0 <==> IndexOfName(servers, other) >= 0)
                  && (IndexOfName(servers, other) >= 0 ==>
                        r[IndexOfName(r, other)].weight == servers[IndexOfName(servers, other)].weight))
  {
    var r := WithCandidate(servers, name, weight);
    var i, j, k, l := IndexOfName(servers, other), IndexOfName(r, other), IndexOfName(servers, name), IndexOfName(r, name);
    assert forall x :: 0 <= x < |servers| ==> r[x].name == servers[x].name;
    assert r[if k == -1 then |servers| else k].name == name;
  }

  /** A refresh gives every candidate its weight of the moment, and keeps the current weights: new ones start at 0. */
  lemma {:induction false} RefreshedIs(
      servers: seq<Server>, candidates: seq<WorkerId>, weights: map<WorkerId, int>, c: WorkerId)
    requires forall d :: d in candidates ==> d in weights
    ensures var r := Refreshed(servers, candidates, weights);
            && CurrentOf(r, c) == CurrentOf(servers, c)
            && (c in candidates ==> IndexOfName(r, c) >= 0 && r[IndexOfName(r, c)].weight == weights[c])
    decreases |candidates|
  {
    if candidates != [] {
      var n := |candidates| - 1;
      RefreshedIs(servers, candidates[..n], weights, c);
      WithCandidateIs(Refreshed(servers, candidates[..n], weights), candidates[n], weights[candidates[n]], c);
      assert candidates == candidates[..n] + [candidates[n]];
    }
  }
}
