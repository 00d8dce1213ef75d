/** The matchers: which of the available workers suit a client's preference. */
module Matcher {
  import opened Common
  import opened WorkerTypes

  predicate IspApplicable(supported: seq<Name>, preferred: Option<Name>) {
    (preferred.Some? && preferred.value in supported) || |supported| == 0
  }

  predicate RegionSuited(supported: seq<Name>, preferred: Option<Name>) {
    preferred.Some? && preferred.value in supported
  }

  predicate Applicable(w: Worker, p: Preference) {
    IspApplicable(w.info.capacity.isps, p.isp)
  }

  predicate Suited(w: Worker, p: Preference) {
    RegionSuited(w.info.capacity.regions, p.region)
  }

  predicate Contains(have: seq<Name>, want: seq<Name>) {
    forall f :: f in want ==> f in have
  }

  /** The worker can encode and decode everything the client names. */
  predicate Codes(w: Worker, wanted: VideoFormats) {
    var v := w.info.capacity.video;
    v.Some? && Contains(v.value.encode, wanted.encode) && Contains(v.value.decode, wanted.decode)
  }

  predicate Analyses(w: Worker, algorithm: Name) {
    algorithm in w.info.capacity.algorithms
  }

  /** The three ways in which a purpose's matcher reads the preference. */
  datatype Rule = ByRegion | ByFormatAndRegion | ByAlgorithm | Everyone

  function RuleOf(purpose: Purpose): Rule {
    match purpose
    case Portal | Webrtc | Streaming | Audio => ByRegion
    case Video => ByFormatAndRegion
    case Analytics => ByAlgorithm
    case _ => Everyone
  }

  /** A candidate the rule does not rule out, before regions are looked at. */
  predicate Admits(rule: Rule, w: Worker, p: Preference) {
    match rule
    case ByRegion => Applicable(w, p)
    case ByFormatAndRegion => p.video.Some? ==> Codes(w, p.video.value) && Applicable(w, p)
    case ByAlgorithm => p.algorithm.Some? ==> Analyses(w, p.algorithm.value)
    case Everyone => true
  }

  predicate RanksByRegion(rule: Rule, p: Preference) {
    rule == ByRegion || (rule == ByFormatAndRegion && p.video.Some?)
  }

  /** The admitted candidates, in order; with `sweet`, only those in the preferred region. */
  function Kept(rule: Rule, p: Preference, workers: map<WorkerId, Worker>, candidates: seq<WorkerId>, sweet: bool)
    : (r: seq<WorkerId>)
    requires forall c :: c in candidates ==> c in workers
    ensures forall c :: c in r <==> c in candidates && Admits(rule, workers[c], p) && (sweet ==> Suited(workers[c], p))
    decreases |candidates|
  {
    if candidates == [] then []
    else
      var n := |candidates| - 1;
      var c := candidates[n];
      Kept(rule, p, workers, candidates[..n], sweet) +
      if Admits(rule, workers[c], p) && (sweet ==> Suited(workers[c], p)) then [c] else []
  }

  /** What a matcher answers: everybody admitted, or, if the rule ranks, those of the region if there are any. */
  function Matched(rule: Rule, p: Preference, workers: map<WorkerId, Worker>, candidates: seq<WorkerId>)
    : (r: seq<WorkerId>)
    requires forall c :: c in candidates ==> c in workers
    ensures forall c :: c in r ==> c in candidates && Admits(rule, workers[c], p)
  {
    if RanksByRegion(rule, p) && Kept(rule, p, workers, candidates, true) != []
    then Kept(rule, p, workers, candidates, true)
    else Kept(rule, p, workers, candidates, false)
  }

  lemma KeptStep(rule: Rule, p: Preference, workers: map<WorkerId, Worker>, candidates: seq<WorkerId>,
                 i: nat, sweet: bool)
    requires i < |candidates| && forall c :: c in candidates ==> c in workers
    ensures var c := candidates[i];
            Kept(rule, p, workers, candidates[..i + 1], sweet) ==
            Kept(rule, p, workers, candidates[..i], sweet) +
            if Admits(rule, workers[c], p) && (sweet ==> Suited(workers[c], p)) then [c] else []
  {
    assert candidates[..i + 1][..i] == candidates[..i];
  }

  /** What the next candidate does to those kept so far, with `sweet` once one in the preferred region was found. */
  lemma RankStep(rule: Rule, p: Preference, workers: map<WorkerId, Worker>, candidates: seq<WorkerId>,
                 i: nat, found: bool)
    requires i < |candidates| && forall c :: c in candidates ==> c in workers
    requires found <==> Kept(rule, p, workers, candidates[..i], true) != []
    ensures var c := candidates[i];
            var kept, next := Kept(rule, p, workers, candidates[..i], found), candidates[..i + 1];
            if !Admits(rule, workers[c], p) then
              Kept(rule, p, workers, next, found) == kept && (Kept(rule, p, workers, next, true) != [] <==> found)
            else if Suited(workers[c], p) then
              Kept(rule, p, workers, next, true) == (if found then kept else []) + [c]
            else
              && Kept(rule, p, workers, next, found) == (if found then kept else kept + [c])
              && (Kept(rule, p, workers, next, true) != [] <==> found)
  {
    KeptStep(rule, p, workers, candidates, i, true);
    KeptStep(rule, p, workers, candidates, i, false);
  }

  method FormatContain(listA: seq<Name>, listB: seq<Name>) returns (ok: bool)
    ensures ok <==> Contains(listA, listB)
  {
    var count := 0;
    for i := 0 to |listB|
      invariant 0 <= count <= i
      invariant count == i <==> forall j :: 0 <= j < i ==> listB[j] in listA
    {
      if listB[i] in listA {
        count := count + 1;
      }
    }
    ok := count == |listB|;
  }

  /** The loop of the webrtc and audio matchers, over candidates that `rule` may admit. */
  method MatchByRegion(rule: Rule, p: Preference, workers: map<WorkerId, Worker>, candidates: seq<WorkerId>)
    returns (result: seq<WorkerId>)
    requires RanksByRegion(rule, p) && forall c :: c in candidates ==> c in workers
    requires forall c :: c in candidates ==> (Admits(rule, workers[c], p) <==> Applicable(workers[c], p))
    ensures result == Matched(rule, p, workers, candidates)
  {
    result := [];
    var foundSweet := false;
    for i := 0 to |candidates|
      invariant result == Kept(rule, p, workers, candidates[..i], foundSweet)
      invariant foundSweet <==> Kept(rule, p, workers, candidates[..i], true) != []
    {
      var id := candidates[i];
      assert id in candidates;
      RankStep(rule, p, workers, candidates, i, foundSweet);
      var capacity := workers[id].info.capacity;
      if IspApplicable(capacity.isps, p.isp) {
        if RegionSuited(capacity.regions, p.region) {
          if !foundSweet {
            foundSweet := true;
            result := [id];
          } else {
            result := result + [id];
          }
        } else {
          if !foundSweet {
            result := result + [id];
          }
        }
      }
    }
    assert candidates[..|candidates|] == candidates;
  }

  /** The filter of the video matcher. */
  method AvailableForVideo(wanted: VideoFormats, workers: map<WorkerId, Worker>, candidates: seq<WorkerId>)
    returns (r: seq<WorkerId>)
    requires forall c :: c in candidates ==> c in workers
    ensures r == Coders(wanted, workers, candidates)
  {
    r := [];
    for i := 0 to |candidates|
      invariant r == Coders(wanted, workers, candidates[..i])
    {
      assert candidates[..i + 1][..i] == candidates[..i];
      var encodeOk, decodeOk := false, false;
      var video := workers[candidates[i]].info.capacity.video;
      if video.Some? {
        encodeOk := FormatContain(video.value.encode, wanted.encode);
        decodeOk := FormatContain(video.value.decode, wanted.decode);
      }
      if encodeOk && decodeOk {
        r := r + [candidates[i]];
      }
    }
    assert candidates[..|candidates|] == candidates;
  }

  function Coders(wanted: VideoFormats, workers: map<WorkerId, Worker>, candidates: seq<WorkerId>): (r: seq<WorkerId>)
    requires forall c :: c in candidates ==> c in workers
    ensures forall c :: c in r ==> c in candidates && Codes(workers[c], wanted)
    decreases |candidates|
  {
    if candidates == [] then []
    else
      var n := |candidates| - 1;
      Coders(wanted, workers, candidates[..n]) + if Codes(workers[candidates[n]], wanted) then [candidates[n]] else []
  }

  /** Filtering by format first and then ranking is ranking with the combined test. */
  lemma {:induction false} FilterThenRank(p: Preference, workers: map<WorkerId, Worker>,
                                          candidates: seq<WorkerId>, sweet: bool)
    requires p.video.Some? && forall c :: c in candidates ==> c in workers
    ensures Kept(ByFormatAndRegion, p, workers, candidates, sweet) ==
            Kept(ByFormatAndRegion, p, workers, Coders(p.video.value, workers, candidates), sweet)
    decreases |candidates|
  {
    if candidates != [] {
      var n := |candidates| - 1;
      var coders := Coders(p.video.value, workers, candidates[..n]);
      FilterThenRank(p, workers, candidates[..n], sweet);
      if Codes(workers[candidates[n]], p.video.value) {
        KeptLast(ByFormatAndRegion, p, workers, coders, candidates[n], sweet);
      } else {
        assert coders + [] == coders;
      }
    }
  }

  lemma KeptLast(rule: Rule, p: Preference, workers: map<WorkerId, Worker>, candidates: seq<WorkerId>,
                 c: WorkerId, sweet: bool)
    requires c in workers && forall d :: d in candidates ==> d in workers
    ensures Kept(rule, p, workers, candidates + [c], sweet) ==
            Kept(rule, p, workers, candidates, sweet) +
            if Admits(rule, workers[c], p) && (sweet ==> Suited(workers[c], p)) then [c] else []
  {
    assert (candidates + [c])[..|candidates|] == candidates;
  }

  /** The match of a purpose, as its matcher computes it. */
  method Match(purpose: Purpose, p: Preference, workers: map<WorkerId, Worker>, candidates: seq<WorkerId>)
    returns (result: seq<WorkerId>)
    requires forall c :: c in candidates ==> c in workers
    ensures result == Matched(RuleOf(purpose), p, workers, candidates)
  {
    match RuleOf(purpose)
    case ByRegion => result := MatchByRegion(ByRegion, p, workers, candidates);
    case ByFormatAndRegion =>
      if p.video == None {
        AdmitsAll(ByFormatAndRegion, p, workers, candidates);
        return candidates;
      }
      var available := AvailableForVideo(p.video.value, workers, candidates);
      result := MatchByRegion(ByFormatAndRegion, p, workers, available);
      FilterThenRank(p, workers, candidates, true);
      FilterThenRank(p, workers, candidates, false);
    case ByAlgorithm =>
      if p.algorithm == None {
        AdmitsAll(ByAlgorithm, p, workers, candidates);
        return candidates;
      }
      result := Kept(ByAlgorithm, p, workers, candidates, false);
    case Everyone =>
      AdmitsAll(Everyone, p, workers, candidates);
      result := candidates;
  }

  lemma {:induction false} AdmitsAll(rule: Rule, p: Preference, workers: map<WorkerId, Worker>,
                                     candidates: seq<WorkerId>)
    requires forall c :: c in candidates ==> c in workers && Admits(rule, workers[c], p)
    ensures Kept(rule, p, workers, candidates, false) == candidates
    decreases |candidates|
  {
    if candidates != [] {
      var n := |candidates| - 1;
      var before, c := candidates[..n], candidates[n];
      assert candidates == before + [c];
      assert c in candidates;
      AdmitsAll(rule, p, workers, before);
    }
  }

  /** Some admitted candidate is of the preferred region. */
  ghost predicate SomebodySuited(rule: Rule, p: Preference, workers: map<WorkerId, Worker>, candidates: seq<WorkerId>)
    requires forall c :: c in candidates ==> c in workers
  {
    exists c :: c in candidates && Admits(rule, workers[c], p) && Suited(workers[c], p)
  }

  /**
   The match is exact: it holds precisely the admitted candidates, or, when the rule ranks by region and some admitted
   candidate is of the preferred one, precisely those that are.
   */
  lemma MatchIsBest(rule: Rule, p: Preference, workers: map<WorkerId, Worker>, candidates: seq<WorkerId>)
    requires forall c :: c in candidates ==> c in workers
    ensures var ranked := RanksByRegion(rule, p) && SomebodySuited(rule, p, workers, candidates);
            forall c :: c in Matched(rule, p, workers, candidates) <==>
                        c in candidates && Admits(rule, workers[c], p) && (ranked ==> Suited(workers[c], p))
  {
    var sweet := Kept(rule, p, workers, candidates, true);
    assert sweet != [] <==> SomebodySuited(rule, p, workers, candidates) by {
      if sweet != [] {
        var c := sweet[0];
        assert c in sweet;
      }
    }
  }

  /** The client's ISP is one of those the worker names, or the worker names none. */
  ghost predicate ServesIsp(w: Worker, p: Preference) {
    w.info.capacity.isps == [] || exists isp :: p.isp == Some(isp) && isp in w.info.capacity.isps
  }

  /** The client's region is one of those the worker names. */
  ghost predicate InRegion(w: Worker, p: Preference) {
    exists region :: p.region == Some(region) && region in w.info.capacity.regions
  }

  /** Each purpose in its own terms: who may be matched at all. */
  ghost predicate MayServe(purpose: Purpose, w: Worker, p: Preference) {
    match purpose
    case Portal | Webrtc | Streaming | Audio => ServesIsp(w, p)
    case Video =>
      p.video.Some? ==>
        && ServesIsp(w, p) && w.info.capacity.video.Some?
        && (forall f :: f in p.video.value.encode ==> f in w.info.capacity.video.value.encode)
        && (forall f :: f in p.video.value.decode ==> f in w.info.capacity.video.value.decode)
    case Analytics => p.algorithm.Some? ==> p.algorithm.value in w.info.capacity.algorithms
    case _ => true
  }

  /** A region is looked at for clients' media only, and for video only if formats are named. */
  ghost predicate LooksAtRegion(purpose: Purpose, p: Preference) {
    purpose in {Portal, Webrtc, Streaming, Audio} || (purpose == Video && p.video.Some?)
  }

  /**
   For every purpose: a candidate is matched if and only if it may serve the client and is in the client's region, unless
   regions do not matter for the purpose or no candidate that may serve is in it.
   */
  lemma MatchedIff(purpose: Purpose, p: Preference, workers: map<WorkerId, Worker>, candidates: seq<WorkerId>, c: WorkerId)
    requires (forall d :: d in candidates ==> d in workers) && c in candidates
    ensures c in Matched(RuleOf(purpose), p, workers, candidates) <==>
              MayServe(purpose, workers[c], p) &&
              (InRegion(workers[c], p) || !LooksAtRegion(purpose, p) ||
               !exists d :: d in candidates && MayServe(purpose, workers[d], p) && InRegion(workers[d], p))
  {
    MatchIsBest(RuleOf(purpose), p, workers, candidates);
    forall d | d in candidates
      ensures Admits(RuleOf(purpose), workers[d], p) <==> MayServe(purpose, workers[d], p)
      ensures Suited(workers[d], p) <==> InRegion(workers[d], p)
    {}
  }

  /** Matched candidates keep their order: those of the first `i` candidates come before those of the next ones. */
  lemma {:induction false} KeptInOrder(rule: Rule, p: Preference, workers: map<WorkerId, Worker>, candidates: seq<WorkerId>,
                                       sweet: bool, i: nat, j: nat)
    requires i <= j <= |candidates| && forall c :: c in candidates ==> c in workers
    ensures Kept(rule, p, workers, candidates[..i], sweet) <= Kept(rule, p, workers, candidates[..j], sweet)
    decreases j
  {
    if i < j {
      KeptInOrder(rule, p, workers, candidates, sweet, i, j - 1);
      KeptGrows(rule, p, workers, candidates, sweet, j - 1);
      InOrder(Kept(rule, p, workers, candidates[..i], sweet), Kept(rule, p, workers, candidates[..j - 1], sweet),
              Kept(rule, p, workers, candidates[..j], sweet));
    }
  }

  lemma InOrder(a: seq<WorkerId>, b: seq<WorkerId>, c: seq<WorkerId>)
    requires a <= b <= c
    ensures a <= c
  {}

  lemma KeptGrows(rule: Rule, p: Preference, workers: map<WorkerId, Worker>, candidates: seq<WorkerId>,
                  sweet: bool, k: nat)
    requires k < |candidates| && forall c :: c in candidates ==> c in workers
    ensures Kept(rule, p, workers, candidates[..k], sweet) <= Kept(rule, p, workers, candidates[..k + 1], sweet)
  {
    KeptStep(rule, p, workers, candidates, k, sweet);
  }
}
