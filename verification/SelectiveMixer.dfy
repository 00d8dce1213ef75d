/** The audio mixer that mixes only the k loudest streams, following the rank reports of the native ranker. */
module SelectiveMixer {
  import opened Common

  type Owner = int
  type Stream = int

  /** The id `''` that fills an empty place of the rank. */
  const NOBODY: Stream := 0

  datatype Input = Input(owner: Owner, codec: int)

  /** An input of the native mixer: how it decodes and which of the k multicasters feeds it. */
  datatype Feed = Feed(codec: int, slot: nat)

  type Inputs = map<Stream, Input>
  type Feeds = map<(Owner, Stream), Feed>

  datatype Mix = Mix(inputs: Inputs, feeds: Feeds, rank: seq<Stream>)

  function Key(inputs: Inputs, id: Stream): (Owner, Stream)
    requires id in inputs
  {
    (inputs[id].owner, id)
  }

  // What a report does

  function Unfeed(inputs: Inputs, feeds: Feeds, was: Stream, becomes: Stream): Feeds {
    if was != becomes && was in inputs then feeds - {Key(inputs, was)} else feeds
  }

  /** The first pass over the first `n` places: what no longer keeps its place goes out. */
  function Cleared(m: Mix, changes: seq<Stream>, n: nat): Feeds
    requires n <= |m.rank| == |changes|
  {
    if n == 0 then m.feeds else Unfeed(m.inputs, Cleared(m, changes, n - 1), m.rank[n - 1], changes[n - 1])
  }

  /** The places among the first `n` that change hands, in order. */
  function Changed(rank: seq<Stream>, changes: seq<Stream>, n: nat): (r: seq<nat>)
    requires n <= |rank| == |changes|
    ensures forall i :: i in r <==> 0 <= i < n && rank[i] != changes[i]
  {
    if n == 0 then [] else
      Changed(rank, changes, n - 1) + if rank[n - 1] != changes[n - 1] then [n - 1] else []
  }

  function Feeding(inputs: Inputs, feeds: Feeds, id: Stream, slot: nat): Feeds {
    if id in inputs then feeds[Key(inputs, id) := Feed(inputs[id].codec, slot)] else feeds
  }

  /** The second pass over the first `n` of the given places: the new ids come in, each from the slot of its place. */
  function Refilled(inputs: Inputs, feeds: Feeds, changes: seq<Stream>, places: seq<nat>, n: nat): Feeds
    requires n <= |places| && forall i :: i in places ==> i < |changes|
  {
    if n == 0 then feeds else
      assert places[n - 1] in places;
      Feeding(inputs, Refilled(inputs, feeds, changes, places, n - 1), changes[places[n - 1]], places[n - 1])
  }

  function OnRank(m: Mix, changes: seq<Stream>): Mix {
    if |changes| != |m.rank| then m else
      var places := Changed(m.rank, changes, |changes|);
      m.(feeds := Refilled(m.inputs, Cleared(m, changes, |changes|), changes, places, |places|), rank := changes)
  }

  function Add(m: Mix, owner: Owner, id: Stream, codec: int): Mix {
    if id in m.inputs then m else m.(inputs := m.inputs[id := Input(owner, codec)])
  }

  function Remove(m: Mix, owner: Owner, id: Stream): Mix {
    if id !in m.inputs then m
    else
      var i := IndexOf(m.rank, id);
      if i < 0 then m.(inputs := m.inputs - {id})
      else Mix(m.inputs - {id}, m.feeds - {(owner, id)}, m.rank[i := NOBODY])
  }

  // Exactness

  /** The ids of a report are registered and no id has two places; `''` may come as often as it likes. */
  ghost predicate Mixable(inputs: Inputs, changes: seq<Stream>) {
    && (forall i :: 0 <= i < |changes| && changes[i] != NOBODY ==> changes[i] in inputs)
    && (forall i, j :: 0 <= i < j < |changes| && changes[i] != NOBODY ==> changes[i] != changes[j])
  }

  /** The place is empty, or its stream is mixed, fed by the slot of that place. */
  predicate Served(m: Mix, i: nat)
    requires i < |m.rank|
  {
    var id := m.rank[i];
    id != NOBODY ==>
      && id in m.inputs && Key(m.inputs, id) in m.feeds
      && m.feeds[Key(m.inputs, id)] == Feed(m.inputs[id].codec, i)
  }

  /** The mixer's inputs are exactly the streams of the rank, each fed by the slot of its own place. */
  ghost predicate Exact(m: Mix) {
    && NOBODY !in m.inputs
    && (forall i :: 0 <= i < |m.rank| ==> Served(m, i))
    && (forall k :: k in m.feeds ==> k.1 in m.rank && k.1 in m.inputs && k == Key(m.inputs, k.1))
  }

  /** Two places fed by different slots cannot belong to the same stream. */
  lemma ExactMixable(m: Mix)
    requires Exact(m)
    ensures Mixable(m.inputs, m.rank)
  {
    forall i, j | 0 <= i < j < |m.rank| && m.rank[i] != NOBODY ensures m.rank[i] != m.rank[j] {
      assert Served(m, i) && Served(m, j);
    }
    forall i | 0 <= i < |m.rank| && m.rank[i] != NOBODY ensures m.rank[i] in m.inputs {
      assert Served(m, i);
    }
  }

  /** The first pass takes away exactly the inputs of the streams that lose their place. */
  lemma {:induction false} ClearedIs(m: Mix, changes: seq<Stream>, n: nat)
    requires n <= |m.rank| == |changes|
    ensures forall k :: k in Cleared(m, changes, n) ==> k in m.feeds && Cleared(m, changes, n)[k] == m.feeds[k]
    ensures forall i :: 0 <= i < n && m.rank[i] != changes[i] && m.rank[i] in m.inputs
                        ==> Key(m.inputs, m.rank[i]) !in Cleared(m, changes, n)
    ensures forall k :: k in m.feeds && k !in Cleared(m, changes, n)
                        ==> exists i :: 0 <= i < n && m.rank[i] != changes[i] && m.rank[i] == k.1
  {
    if n > 0 {
      ClearedIs(m, changes, n - 1);
      assert m.rank[n - 1] != changes[n - 1] || Cleared(m, changes, n) == Cleared(m, changes, n - 1);
    }
  }

  /** The second pass leaves every other stream alone. */
  lemma {:induction false} RefilledKeeps(inputs: Inputs, feeds: Feeds, changes: seq<Stream>,
      places: seq<nat>, n: nat, k: (Owner, Stream))
    requires n <= |places| && forall i :: i in places ==> i < |changes|
    requires forall j :: 0 <= j < n ==> places[j] in places && changes[places[j]] != k.1
    ensures var r := Refilled(inputs, feeds, changes, places, n);
            (k in r <==> k in feeds) && (k in feeds ==> r[k] == feeds[k])
  {
    if n > 0 {
      RefilledKeeps(inputs, feeds, changes, places, n - 1, k);
      assert places[n - 1] in places;
    }
  }

  /** An id that has only the place `places[j]` ends up fed by that slot. */
  lemma {:induction false} RefilledAt(inputs: Inputs, feeds: Feeds, changes: seq<Stream>,
      places: seq<nat>, n: nat, j: nat)
    requires j < n <= |places| && (forall i :: i in places ==> i < |changes|)
    requires places[j] in places && changes[places[j]] in inputs
    requires forall i :: 0 <= i < |changes| && i != places[j] ==> changes[i] != changes[places[j]]
    ensures var r := Refilled(inputs, feeds, changes, places, n);
            var id := changes[places[j]];
            Key(inputs, id) in r && r[Key(inputs, id)] == Feed(inputs[id].codec, places[j])
  {
    assert places[n - 1] in places;
    if j < n - 1 {
      RefilledAt(inputs, feeds, changes, places, n - 1, j);
    }
  }

  /** Whatever the second pass adds belongs to one of the places. */
  lemma {:induction false} RefilledOnly(inputs: Inputs, feeds: Feeds, changes: seq<Stream>,
      places: seq<nat>, n: nat, k: (Owner, Stream))
    requires n <= |places| && forall i :: i in places ==> i < |changes|
    requires k in Refilled(inputs, feeds, changes, places, n)
    ensures k in feeds || (k.1 in changes && k.1 in inputs && k == Key(inputs, k.1))
  {
    if n > 0 {
      assert places[n - 1] in places;
      if k in Refilled(inputs, feeds, changes, places, n - 1) {
        RefilledOnly(inputs, feeds, changes, places, n - 1, k);
      }
    }
  }

  /** After a report every place is served by its own slot. */
  lemma PlaceServed(m: Mix, changes: seq<Stream>, i: nat)
    requires Exact(m) && Mixable(m.inputs, changes) && |changes| == |m.rank| && i < |changes|
    ensures Served(OnRank(m, changes), i)
  {
    var id := changes[i];
    if id != NOBODY {
      var places := Changed(m.rank, changes, |changes|);
      var cleared := Cleared(m, changes, |changes|);
      if m.rank[i] == id {
        ExactMixable(m);
        ClearedIs(m, changes, |changes|);
        assert Served(m, i);
        assert Key(m.inputs, id) in cleared;
        RefilledKeeps(m.inputs, cleared, changes, places, |places|, Key(m.inputs, id));
      } else {
        var j := IndexOf(places, i);
        RefilledAt(m.inputs, cleared, changes, places, |places|, j);
      }
    }
  }

  /** After a report nothing is mixed that is not in the rank. */
  lemma InputRanked(m: Mix, changes: seq<Stream>, k: (Owner, Stream))
    requires Exact(m) && |changes| == |m.rank| && k in OnRank(m, changes).feeds
    ensures k.1 in changes && k.1 in m.inputs && k == Key(m.inputs, k.1)
  {
    var places := Changed(m.rank, changes, |changes|);
    var cleared := Cleared(m, changes, |changes|);
    RefilledOnly(m.inputs, cleared, changes, places, |places|, k);
    if k in cleared {
      ClearedIs(m, changes, |changes|);
      var i := IndexOf(m.rank, k.1);
      assert m.rank[i] == changes[i];
    }
  }

  /**
   Two passes are enough, even when ids trade places: a report leaves the mixer exact if and only if it is ignored for
   its length or its ids are registered and distinct.
   */
  lemma ReportExactIff(m: Mix, changes: seq<Stream>)
    requires Exact(m)
    ensures Exact(OnRank(m, changes)) <==> |changes| != |m.rank| || Mixable(m.inputs, changes)
  {
    if |changes| == |m.rank| {
      var r := OnRank(m, changes);
      if Mixable(m.inputs, changes) {
        forall i | 0 <= i < |r.rank| ensures Served(r, i) {
          PlaceServed(m, changes, i);
        }
        forall k | k in r.feeds ensures k.1 in r.rank && k.1 in r.inputs && k == Key(r.inputs, k.1) {
          InputRanked(m, changes, k);
        }
      } else if Exact(r) {
        ExactMixable(r);
      }
    }
  }

  lemma AddExactIff(m: Mix, owner: Owner, id: Stream, codec: int)
    requires Exact(m)
    ensures Exact(Add(m, owner, id, codec)) <==> id != NOBODY
  {
    var r := Add(m, owner, id, codec);
    if id != NOBODY && id !in m.inputs {
      forall i | 0 <= i < |r.rank| ensures Served(r, i) {
        assert Served(m, i);
      }
    }
  }

  /** A removal leaves the mixer exact unless it names the wrong owner for a stream that is being mixed. */
  lemma RemoveExactIff(m: Mix, owner: Owner, id: Stream)
    requires Exact(m)
    ensures Exact(Remove(m, owner, id)) <==> id !in m.inputs || id !in m.rank || owner == m.inputs[id].owner
  {
    var r := Remove(m, owner, id);
    if id in m.inputs {
      ExactMixable(m);
      var at := IndexOf(m.rank, id);
      if at >= 0 && owner != m.inputs[id].owner {
        assert Served(m, at);
        assert Key(m.inputs, id) in r.feeds;
        assert !Exact(r);
      } else {
        forall i | 0 <= i < |r.rank| ensures Served(r, i) {
          assert Served(m, i);
        }
        forall k | k in r.feeds ensures k.1 in r.rank {
          var i := IndexOf(m.rank, k.1);
          assert r.rank[i] == k.1;
        }
      }
    }
  }

  // Whole runs

  datatype Op =
    | Report(changes: seq<Stream>)
    | AddInput(owner: Owner, id: Stream, codec: int)
    | RemoveInput(owner: Owner, id: Stream)

  function Next(m: Mix, op: Op): Mix {
    match op
    case Report(changes) => OnRank(m, changes)
    case AddInput(owner, id, codec) => Add(m, owner, id, codec)
    case RemoveInput(owner, id) => Remove(m, owner, id)
  }

  function Start(k: nat): Mix {
    Mix(map[], map[], seq(k, _ => NOBODY))
  }

  function Run(k: nat, ops: seq<Op>): Mix
    decreases |ops|
  {
    if ops == [] then Start(k) else Next(Run(k, ops[..|ops| - 1]), ops[|ops| - 1])
  }

  /** What the ranker and the audio node keep to. */
  ghost predicate Proper(m: Mix, op: Op) {
    match op
    case Report(changes) => |changes| != |m.rank| || Mixable(m.inputs, changes)
    case AddInput(_, id, _) => id != NOBODY
    case RemoveInput(owner, id) => id !in m.inputs || id !in m.rank || owner == m.inputs[id].owner
  }

  ghost predicate ProperRun(k: nat, ops: seq<Op>)
    decreases |ops|
  {
    ops != [] ==> ProperRun(k, ops[..|ops| - 1]) && Proper(Run(k, ops[..|ops| - 1]), ops[|ops| - 1])
  }

  ghost predicate ExactThroughout(k: nat, ops: seq<Op>)
    decreases |ops|
  {
    Exact(Run(k, ops)) && (ops != [] ==> ExactThroughout(k, ops[..|ops| - 1]))
  }

  /** The mixer is exact at every moment of a run if and only if every step of it is proper. */
  lemma {:induction false} MixingIsExactIff(k: nat, ops: seq<Op>)
    ensures ExactThroughout(k, ops) <==> ProperRun(k, ops)
    ensures |Run(k, ops).rank| == k
    decreases |ops|
  {
    if ops == [] {
      assert forall i :: 0 <= i < k ==> Served(Start(k), i);
    } else {
      var before := Run(k, ops[..|ops| - 1]);
      MixingIsExactIff(k, ops[..|ops| - 1]);
      if Exact(before) {
        match ops[|ops| - 1]
        case Report(changes) => ReportExactIff(before, changes);
        case AddInput(owner, id, codec) => AddExactIff(before, owner, id, codec);
        case RemoveInput(owner, id) => RemoveExactIff(before, owner, id);
      }
    }
  }

  // What is mixed, from the calls alone

  /** How `id` is registered after the calls: by the first `addInput` since it was removed last. */
  function Registered(ops: seq<Op>, id: Stream): Option<Input>
    decreases |ops|
  {
    if ops == [] then None
    else
      var before := Registered(ops[..|ops| - 1], id);
      match ops[|ops| - 1]
      case Report(_) => before
      case AddInput(owner, x, codec) => if x == id && before == None then Some(Input(owner, codec)) else before
      case RemoveInput(_, x) => if x == id then None else before
  }

  /** The last report of the right length, without the streams removed since. */
  function Loudest(k: nat, ops: seq<Op>): (r: seq<Stream>)
    ensures |r| == k
    decreases |ops|
  {
    if ops == [] then seq(k, _ => NOBODY)
    else
      var before := Loudest(k, ops[..|ops| - 1]);
      match ops[|ops| - 1]
      case Report(changes) => if |changes| == k then changes else before
      case AddInput(_, _, _) => before
      case RemoveInput(_, x) => seq(k, i requires 0 <= i < k => if before[i] == x then NOBODY else before[i])
  }

  lemma RemovedBlanks(m: Mix, owner: Owner, id: Stream)
    requires Exact(m)
    ensures var r := Remove(m, owner, id).rank;
            |r| == |m.rank| && forall i :: 0 <= i < |r| ==> r[i] == if m.rank[i] == id then NOBODY else m.rank[i]
  {
    ExactMixable(m);
    if id !in m.inputs {
      forall i | 0 <= i < |m.rank| ensures m.rank[i] != id || id == NOBODY {
        assert Served(m, i);
      }
    }
  }

  /**
   What is mixed follows from the calls: in every proper run the registry holds exactly what was added and not removed
   since, and the rank is the last report without what was removed since. With exactness that settles the native mixer.
   */
  lemma {:induction false} MixIs(k: nat, ops: seq<Op>)
    requires ProperRun(k, ops)
    ensures var m := Run(k, ops);
            && m.rank == Loudest(k, ops)
            && forall id :: (id in m.inputs <==> Registered(ops, id).Some?) &&
                            (id in m.inputs ==> m.inputs[id] == Registered(ops, id).value)
    decreases |ops|
  {
    if ops != [] {
      var before := Run(k, ops[..|ops| - 1]);
      MixIs(k, ops[..|ops| - 1]);
      MixingIsExactIff(k, ops[..|ops| - 1]);
      match ops[|ops| - 1]
      case RemoveInput(owner, id) => RemovedBlanks(before, owner, id);
      case _ =>
    }
  }

  /** So a loud stream is mixed from the slot of its place, as it was added. */
  lemma LoudIsMixed(k: nat, ops: seq<Op>, i: nat)
    requires ProperRun(k, ops) && i < k && Loudest(k, ops)[i] != NOBODY
    ensures var m, id := Run(k, ops), Loudest(k, ops)[i];
            && Registered(ops, id).Some?
            && var input := Registered(ops, id).value;
               (input.owner, id) in m.feeds && m.feeds[(input.owner, id)] == Feed(input.codec, i)
  {
    MixIs(k, ops);
    MixingIsExactIff(k, ops);
    assert Served(Run(k, ops), i);
  }

  /** The mixer object: the registry, the native mixer's inputs and the rank. */
  class SelectiveMixer {
    var inputs: Inputs
    var mixer: Feeds
    var currentRank: seq<Stream>

    function State(): Mix
      reads this
    {
      Mix(inputs, mixer, currentRank)
    }

    /** Three places unless a positive number is asked for. */
    constructor (k: int)
      ensures State() == Start(if k > 0 then k else 3)
    {
      inputs, mixer := map[], map[];
      currentRank := seq(if k > 0 then k else 3, _ => NOBODY);
    }

    method OnRankChange(changes: seq<Stream>)
      modifies this
      ensures State() == OnRank(old(State()), changes)
    {
      if |changes| != |currentRank| {
        return;
      }
      ghost var m := State();
      var pendingAddIndexes: seq<nat> := [];
      for i := 0 to |currentRank|
        invariant inputs == m.inputs && currentRank == m.rank
        invariant mixer == Cleared(m, changes, i)
        invariant pendingAddIndexes == Changed(m.rank, changes, i)
      {
        if currentRank[i] != changes[i] {
          var id := currentRank[i];
          if id in inputs {
            mixer := mixer - {(inputs[id].owner, id)};
          }
          pendingAddIndexes := pendingAddIndexes + [i];
        }
      }
      ghost var cleared := mixer;
      for j := 0 to |pendingAddIndexes|
        invariant inputs == m.inputs && currentRank == m.rank
        invariant mixer == Refilled(m.inputs, cleared, changes, pendingAddIndexes, j)
      {
        var i := pendingAddIndexes[j];
        assert i in pendingAddIndexes;
        var id := changes[i];
        if id in inputs {
          mixer := mixer[(inputs[id].owner, id) := Feed(inputs[id].codec, i)];
        }
      }
      currentRank := changes;
    }

    method AddInput(owner: Owner, id: Stream, codec: int) returns (added: bool)
      modifies this
      ensures State() == Add(old(State()), owner, id, codec)
      ensures added <==> id !in old(inputs)
    {
      added := id !in inputs;
      if added {
        inputs := inputs[id := Input(owner, codec)];
      }
    }

    method RemoveInput(owner: Owner, id: Stream)
      modifies this
      ensures State() == Remove(old(State()), owner, id)
    {
      if id in inputs {
        inputs := inputs - {id};
        var i := IndexOf(currentRank, id);
        if i >= 0 {
          mixer := mixer - {(owner, id)};
          currentRank := currentRank[i := NOBODY];
        }
      }
    }
  }
}
