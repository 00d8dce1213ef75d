/** What the link graph promises: destinations held by a source and the `audioFrom`/`videoFrom` fields say the same. */
module LinkAgreement {
  import opened Common
  import opened LinkGraph

  /** Connection `c` takes its track from `s`, at receiver `d`. */
  predicate Feeds(g: Graph, c: Id, s: Id, t: Track, d: Dest) {
    c in g && LinkedTo(g[c], t, s) && At(g[c], t).receiver == Some(d)
  }

  /** A field that names a connection names a registered 'in' connection that sends to this one's receiver. */
  predicate Backed(g: Graph, c: Id, t: Track)
    requires c in g
  {
    var from := At(g[c], t).from;
    from.Some? ==>
      && !g[c].incoming && At(g[c], t).receiver.Some?
      && from.value in g && g[from.value].incoming
      && At(g[c], t).receiver.value in At(g[from.value], t).dests
  }

  /** The destinations of `s` are distinct and each is the receiver of a connection that names `s`. */
  ghost predicate Accounted(g: Graph, s: Id, t: Track)
    requires s in g
  {
    && NoDup(At(g[s], t).dests)
    && forall d :: d in At(g[s], t).dests ==> exists c :: Feeds(g, c, s, t, d)
  }

  /** No two connections share a receiver. */
  ghost predicate OwnReceivers(g: Graph, t: Track) {
    forall c, e :: c in g && e in g && At(g[c], t).receiver.Some? && At(g[c], t).receiver == At(g[e], t).receiver ==> c == e
  }

  ghost predicate AgreesOn(g: Graph, t: Track) {
    && OwnReceivers(g, t)
    && (forall c :: c in g ==> Backed(g, c, t))
    && (forall s :: s in g ==> Accounted(g, s, t))
  }

  ghost predicate Agrees(g: Graph) {
    AgreesOn(g, Audio) && AgreesOn(g, Video)
  }

  /** The same agreement read from the source's end: who is served is exactly who asked. */
  lemma DestinationsExact(g: Graph, s: Id, t: Track, d: Dest)
    requires Agrees(g) && s in g
    ensures d in At(g[s], t).dests <==> exists c :: Feeds(g, c, s, t, d)
  {
    assert Accounted(g, s, t);
    if c :| Feeds(g, c, s, t, d) {
      assert Backed(g, c, t);
    }
  }

  // One track at a time

  /** Agreement on a track looks at that track and the directions only. */
  lemma SameTrack(g: Graph, h: Graph, t: Track)
    requires AgreesOn(g, t) && forall c :: c in h <==> c in g
    requires forall c :: c in g ==> At(h[c], t) == At(g[c], t) && h[c].incoming == g[c].incoming
    ensures AgreesOn(h, t)
  {
    forall c | c in h ensures Backed(h, c, t) {
      assert c in g && Backed(g, c, t);
      if At(g[c], t).from.Some? {
        var from := At(g[c], t).from.value;
        assert from in g && At(h[from], t) == At(g[from], t);
      }
    }
    forall s | s in h ensures Accounted(h, s, t) {
      assert s in g && Accounted(g, s, t);
      forall d | d in At(h[s], t).dests ensures exists c :: Feeds(h, c, s, t, d) {
        var c :| Feeds(g, c, s, t, d);
        assert Feeds(h, c, s, t, d);
      }
    }
    assert forall c :: c in h ==> c in g;
  }

  /** Nothing is asked for, the request is refused, or it links an 'out' connection that is free to an 'in' one. */
  predicate ProperSide(g: Graph, id: Id, t: Track, from: Option<Id>)
    requires id in g
  {
    || from == None || from.value !in g || At(g[id], t).receiver == None
    || (!g[id].incoming && g[from.value].incoming && At(g[id], t).from == None)
  }

  lemma LinkSideKeeps(g: Graph, id: Id, t: Track, from: Id)
    requires AgreesOn(g, t) && id in g && from in g && At(g[id], t).receiver.Some?
    requires !g[id].incoming && g[from].incoming && At(g[id], t).from == None
    ensures AgreesOn(LinkSide(g, id, t, Some(from)).0, t)
  {
    var h := LinkSide(g, id, t, Some(from)).0;
    var dest := At(g[id], t).receiver.value;
    assert Accounted(g, from, t);
    assert dest !in At(g[from], t).dests;
    forall c | c in h ensures Backed(h, c, t) {
      assert Backed(g, c, t);
    }
    forall s | s in h ensures Accounted(h, s, t) {
      assert Accounted(g, s, t);
      forall d | d in At(h[s], t).dests ensures exists c :: Feeds(h, c, s, t, d) {
        if s == from && d == dest {
          assert Feeds(h, id, s, t, d);
        } else {
          var c :| Feeds(g, c, s, t, d);
          assert Feeds(h, c, s, t, d);
        }
      }
    }
  }

  /** Linking a connection that is already linked leaves the old source's or a doubled destination behind. */
  lemma LinkSideBreaks(g: Graph, id: Id, t: Track, from: Id)
    requires AgreesOn(g, t) && id in g && from in g && At(g[id], t).receiver.Some?
    requires g[id].incoming || !g[from].incoming || At(g[id], t).from != None
    ensures !AgreesOn(LinkSide(g, id, t, Some(from)).0, t)
  {
    var h := LinkSide(g, id, t, Some(from)).0;
    var dest := At(g[id], t).receiver.value;
    assert Backed(g, id, t);
    if g[id].incoming || !g[from].incoming {
      assert !Backed(h, id, t);
    } else {
      var was := At(g[id], t).from.value;
      var l := At(g[was], t).dests;
      if was == from {
        var i := IndexOf(l, dest);
        assert At(h[from], t).dests == l + [dest];
        assert (l + [dest])[i] == (l + [dest])[|l|];
        assert !Accounted(h, from, t);
      } else {
        assert dest in At(h[was], t).dests;
        assert forall c :: !Feeds(h, c, was, t, dest);
        assert !Accounted(h, was, t);
      }
    }
  }

  lemma OtherTrackLinks(g: Graph, id: Id, t: Track, u: Track, from: Option<Id>)
    requires AgreesOn(g, u) && t != u && id in g
    ensures AgreesOn(LinkSide(g, id, t, from).0, u)
  {
    SameTrack(g, LinkSide(g, id, t, from).0, u);
  }

  lemma OtherTrackCuts(g: Graph, id: Id, t: Track, u: Track)
    requires AgreesOn(g, u) && t != u && id in g
    ensures AgreesOn(CutSide(g, id, t).0, u)
  {
    SameTrack(g, CutSide(g, id, t).0, u);
  }

  lemma LinkSideAgreesIff(g: Graph, id: Id, t: Track, from: Option<Id>)
    requires AgreesOn(g, t) && id in g
    ensures AgreesOn(LinkSide(g, id, t, from).0, t) <==> ProperSide(g, id, t, from)
  {
    if from.Some? && from.value in g && At(g[id], t).receiver.Some? {
      assert LinkSide(g, id, t, from).1;
      if !g[id].incoming && g[from.value].incoming && At(g[id], t).from == None {
        LinkSideKeeps(g, id, t, from.value);
      } else {
        LinkSideBreaks(g, id, t, from.value);
      }
    }
  }

  lemma CutSideKeeps(g: Graph, id: Id, t: Track)
    requires AgreesOn(g, t) && id in g && !g[id].incoming
    ensures CutSide(g, id, t).1 && AgreesOn(CutSide(g, id, t).0, t) && At(CutSide(g, id, t).0[id], t).from == None
  {
    var h := CutSide(g, id, t).0;
    assert Backed(g, id, t);
    if At(g[id], t).from.Some? {
      var from := At(g[id], t).from.value;
      var dest := At(g[id], t).receiver.value;
      forall c | c in h ensures Backed(h, c, t) {
        assert Backed(g, c, t);
      }
      forall s | s in h ensures Accounted(h, s, t) {
        assert Accounted(g, s, t);
        forall d | d in At(h[s], t).dests ensures exists c :: Feeds(h, c, s, t, d) {
          var c :| Feeds(g, c, s, t, d);
          assert Feeds(h, c, s, t, d);
        }
      }
    }
  }

  /** Whoever `id` still served would be a listener that was not cut off. */
  lemma CutFromSilences(g: Graph, id: Id, t: Track)
    requires AgreesOn(g, t) && id in g && g[id].incoming
    ensures At(CutFrom(g, id)[id], t).dests == []
  {
    assert Accounted(g, id, t);
    forall d | d in At(g[id], t).dests ensures d in Listeners(g, id, t, g.Keys) {
      var c :| Feeds(g, c, id, t, d);
    }
    MinusAll(At(g[id], t).dests, Listeners(g, id, t, g.Keys));
  }

  lemma CutFromAccounts(g: Graph, id: Id, t: Track, s: Id)
    requires AgreesOn(g, t) && id in g && g[id].incoming && s in g
    ensures Accounted(CutFrom(g, id), s, t)
  {
    var h := CutFrom(g, id);
    CutFromSilences(g, id, t);
    assert Accounted(g, s, t);
    forall d | d in At(h[s], t).dests ensures exists c :: Feeds(h, c, s, t, d) {
      var c :| Feeds(g, c, s, t, d);
      assert Feeds(h, c, s, t, d);
    }
  }

  lemma CutFromBacks(g: Graph, id: Id, t: Track, c: Id)
    requires AgreesOn(g, t) && id in g && g[id].incoming && c in g
    ensures Backed(CutFrom(g, id), c, t) && At(CutFrom(g, id)[c], t).from != Some(id)
  {
    assert Backed(g, c, t);
    assert Backed(g, id, t);
  }

  lemma CutFromAllBacked(g: Graph, id: Id, t: Track)
    requires AgreesOn(g, t) && id in g && g[id].incoming
    ensures forall c :: c in g ==> Backed(CutFrom(g, id), c, t) && At(CutFrom(g, id)[c], t).from != Some(id)
  {
    forall c | c in g ensures Backed(CutFrom(g, id), c, t) && At(CutFrom(g, id)[c], t).from != Some(id) {
      CutFromBacks(g, id, t, c);
    }
  }

  lemma CutFromAllAccounted(g: Graph, id: Id, t: Track)
    requires AgreesOn(g, t) && id in g && g[id].incoming
    ensures forall s :: s in g ==> Accounted(CutFrom(g, id), s, t)
  {
    forall s | s in g ensures Accounted(CutFrom(g, id), s, t) {
      CutFromAccounts(g, id, t, s);
    }
  }

  lemma CutFromReceivers(g: Graph, id: Id, t: Track)
    requires OwnReceivers(g, t) && id in g
    ensures OwnReceivers(CutFrom(g, id), t) && CutFrom(g, id).Keys == g.Keys
  {
    var h := CutFrom(g, id);
    forall c, e | c in h && e in h && At(h[c], t).receiver.Some? && At(h[c], t).receiver == At(h[e], t).receiver
      ensures c == e
    {
      assert At(h[c], t).receiver == At(g[c], t).receiver;
      assert At(h[e], t).receiver == At(g[e], t).receiver;
    }
  }

  lemma CutFromKeeps(g: Graph, id: Id, t: Track)
    requires AgreesOn(g, t) && id in g && g[id].incoming
    ensures AgreesOn(CutFrom(g, id), t)
    ensures At(CutFrom(g, id)[id], t).dests == [] && At(CutFrom(g, id)[id], t).from == None
    ensures forall c :: c in g ==> At(CutFrom(g, id)[c], t).from != Some(id)
  {
    assert Backed(g, id, t);
    CutFromReceivers(g, id, t);
    CutFromSilences(g, id, t);
    CutFromAllBacked(g, id, t);
    CutFromAllAccounted(g, id, t);
  }

  // Both tracks

  /** What a link request has to respect, side by side, the second only if the first went through. */
  predicate ProperLink(g: Graph, id: Id, audioFrom: Option<Id>, videoFrom: Option<Id>) {
    id in g ==>
      && ProperSide(g, id, Audio, audioFrom)
      && (LinkSide(g, id, Audio, audioFrom).1 ==> ProperSide(LinkSide(g, id, Audio, audioFrom).0, id, Video, videoFrom))
  }

  lemma StaysBroken(g: Graph, h: Graph, t: Track)
    requires !AgreesOn(g, t) && forall c :: c in h <==> c in g
    requires forall c :: c in g ==> At(h[c], t) == At(g[c], t) && h[c].incoming == g[c].incoming
    ensures !AgreesOn(h, t)
  {
    if AgreesOn(h, t) {
      SameTrack(h, g, t);
    }
  }

  lemma LinkVideoAgreesIff(g: Graph, id: Id, videoFrom: Option<Id>)
    requires AgreesOn(g, Video) && id in g
    ensures Agrees(LinkSide(g, id, Video, videoFrom).0) <==> AgreesOn(g, Audio) && ProperSide(g, id, Video, videoFrom)
  {
    LinkSideAgreesIff(g, id, Video, videoFrom);
    if AgreesOn(g, Audio) {
      OtherTrackLinks(g, id, Video, Audio, videoFrom);
    } else {
      StaysBroken(g, LinkSide(g, id, Video, videoFrom).0, Audio);
    }
  }

  /** A link request keeps agreement if and only if it links 'out' to 'in' connections that were cut off before. */
  lemma LinkAgreesIff(g: Graph, id: Id, audioFrom: Option<Id>, videoFrom: Option<Id>)
    requires Agrees(g)
    ensures Agrees(Link(g, id, audioFrom, videoFrom).0) <==> ProperLink(g, id, audioFrom, videoFrom)
  {
    if id in g {
      LinkSideAgreesIff(g, id, Audio, audioFrom);
      OtherTrackLinks(g, id, Audio, Video, audioFrom);
      if LinkSide(g, id, Audio, audioFrom).1 {
        LinkVideoAgreesIff(LinkSide(g, id, Audio, audioFrom).0, id, videoFrom);
      }
    }
  }

  /** Only 'in' connections are ever named. */
  lemma OutgoingServesNobody(g: Graph, id: Id, t: Track)
    requires AgreesOn(g, t) && id in g && !g[id].incoming
    ensures At(g[id], t).dests == [] && forall c :: c in g ==> At(g[c], t).from != Some(id)
  {
    assert Accounted(g, id, t);
    forall c | c in g ensures At(g[c], t).from != Some(id) {
      assert Backed(g, c, t);
    }
    assert forall d :: d !in At(g[id], t).dests;
    EmptyOrMember(At(g[id], t).dests);
  }

  /** On this track the connection serves nobody, listens to nobody, and nobody's field names it. */
  ghost predicate Apart(g: Graph, id: Id, t: Track) {
    id in g && At(g[id], t).dests == [] && At(g[id], t).from == None && forall c :: c in g ==> At(g[c], t).from != Some(id)
  }

  lemma CutToKeeps(g: Graph, id: Id)
    requires Agrees(g) && id in g && !g[id].incoming
    ensures CutTo(g, id).1 && Agrees(CutTo(g, id).0)
    ensures Apart(CutTo(g, id).0, id, Audio) && Apart(CutTo(g, id).0, id, Video)
  {
    var h := CutSide(g, id, Audio).0;
    CutSideKeeps(g, id, Audio);
    OtherTrackCuts(g, id, Audio, Video);
    CutSideKeeps(h, id, Video);
    OtherTrackCuts(h, id, Video, Audio);
    OutgoingServesNobody(CutTo(g, id).0, id, Audio);
    OutgoingServesNobody(CutTo(g, id).0, id, Video);
  }

  /** Cutting off never throws and leaves the connection with no link in either direction. */
  lemma CutOffKeeps(g: Graph, id: Id)
    requires Agrees(g)
    ensures var (h, ok) := CutOff(g, id);
            && (ok <==> id in g) && Agrees(h) && h.Keys == g.Keys
            && (id in g ==> Apart(h, id, Audio) && Apart(h, id, Video))
  {
    if id in g {
      if g[id].incoming {
        CutFromKeeps(g, id, Audio);
        CutFromKeeps(g, id, Video);
      } else {
        CutToKeeps(g, id);
      }
    }
  }

  lemma DeleteKeeps(g: Graph, id: Id, t: Track)
    requires AgreesOn(g, t) && Apart(g, id, t)
    ensures AgreesOn(g - {id}, t)
  {
    var h := g - {id};
    forall c | c in h ensures Backed(h, c, t) {
      assert Backed(g, c, t);
    }
    forall s | s in h ensures Accounted(h, s, t) {
      assert Accounted(g, s, t);
      forall d | d in At(h[s], t).dests ensures exists c :: Feeds(h, c, s, t, d) {
        var c :| Feeds(g, c, s, t, d);
        assert Feeds(h, c, s, t, d);
      }
    }
  }

  /** A removed connection is gone without a trace: removal succeeds exactly for registered ones and keeps agreement. */
  lemma RemoveKeeps(g: Graph, id: Id)
    requires Agrees(g)
    ensures var (h, ok) := Remove(g, id); (ok <==> id in g) && Agrees(h) && h.Keys == g.Keys - {id}
  {
    CutOffKeeps(g, id);
    if id in g {
      DeleteKeeps(CutOff(g, id).0, id, Audio);
      DeleteKeeps(CutOff(g, id).0, id, Video);
    }
  }

  /** A failed controller takes its connections with it and nothing else. */
  lemma {:induction false} RemoveEachKeeps(g: Graph, ids: seq<Id>)
    requires Agrees(g)
    ensures Agrees(RemoveEach(g, ids)) && forall c :: c in RemoveEach(g, ids) <==> c in g && c !in ids
    decreases |ids|
  {
    if ids != [] {
      RemoveEachKeeps(g, ids[..|ids| - 1]);
      RemoveKeeps(RemoveEach(g, ids[..|ids| - 1]), ids[|ids| - 1]);
      assert ids == ids[..|ids| - 1] + [ids[|ids| - 1]];
    }
  }

  lemma AddKeeps(g: Graph, id: Id, incoming: bool, controller: int, t: Track)
    requires AgreesOn(g, t)
    ensures AgreesOn(Add(g, id, incoming, controller), t)
  {
    var h := Add(g, id, incoming, controller);
    if id !in g {
      forall c | c in h ensures Backed(h, c, t) {
        assert c != id ==> Backed(g, c, t);
      }
      forall s | s in h ensures Accounted(h, s, t) {
        assert s != id ==> Accounted(g, s, t);
        forall d | d in At(h[s], t).dests ensures exists c :: Feeds(h, c, s, t, d) {
          var c :| Feeds(g, c, s, t, d);
          assert Feeds(h, c, s, t, d);
        }
      }
    }
  }

  /** Nobody else has this receiver, or the connection does not take it. */
  ghost predicate OwnReceiver(g: Graph, id: Id, t: Track, d: Dest) {
    Ready(g, id, t, d) == g || forall c :: c in g ==> At(g[c], t).receiver != Some(d)
  }

  lemma ReadyKeeps(g: Graph, id: Id, t: Track, d: Dest)
    requires AgreesOn(g, t) && forall c :: c in g ==> At(g[c], t).receiver != Some(d)
    ensures AgreesOn(Ready(g, id, t, d), t)
  {
    var h := Ready(g, id, t, d);
    forall c | c in h ensures Backed(h, c, t) {
      assert Backed(g, c, t);
    }
    forall s | s in h ensures Accounted(h, s, t) {
      assert Accounted(g, s, t);
      forall x | x in At(h[s], t).dests ensures exists c :: Feeds(h, c, s, t, x) {
        var c :| Feeds(g, c, s, t, x);
        assert Feeds(h, c, s, t, x);
      }
    }
  }

  lemma ReadyAgreesIff(g: Graph, id: Id, t: Track, d: Dest)
    requires Agrees(g)
    ensures Agrees(Ready(g, id, t, d)) <==> OwnReceiver(g, id, t, d)
  {
    var h := Ready(g, id, t, d);
    if h != g {
      SameTrack(g, h, if t == Audio then Video else Audio);
      if c :| c in g && At(g[c], t).receiver == Some(d) {
        assert At(h[c], t).receiver == At(h[id], t).receiver && c != id;
        assert !AgreesOn(h, t);
      } else {
        ReadyKeeps(g, id, t, d);
      }
    }
  }

  // Whole runs

  datatype Op =
    | AddConnection(id: Id, incoming: bool, controller: int)
    | BecomeReady(id: Id, t: Track, d: Dest)
    | Linkup(id: Id, audioFrom: Option<Id>, videoFrom: Option<Id>)
    | Cutoff(id: Id)
    | RemoveConnection(id: Id)

  function Next(g: Graph, op: Op): Graph {
    match op
    case AddConnection(id, incoming, controller) => Add(g, id, incoming, controller)
    case BecomeReady(id, t, d) => Ready(g, id, t, d)
    case Linkup(id, a, v) => Link(g, id, a, v).0
    case Cutoff(id) => CutOff(g, id).0
    case RemoveConnection(id) => Remove(g, id).0
  }

  function Run(ops: seq<Op>): Graph
    decreases |ops|
  {
    if ops == [] then map[] else Next(Run(ops[..|ops| - 1]), ops[|ops| - 1])
  }

  ghost predicate Proper(g: Graph, op: Op) {
    match op
    case BecomeReady(id, t, d) => OwnReceiver(g, id, t, d)
    case Linkup(id, a, v) => ProperLink(g, id, a, v)
    case _ => true
  }

  lemma NextAgreesIff(g: Graph, op: Op)
    requires Agrees(g)
    ensures Agrees(Next(g, op)) <==> Proper(g, op)
  {
    match op
    case AddConnection(id, incoming, controller) =>
      AddKeeps(g, id, incoming, controller, Audio);
      AddKeeps(g, id, incoming, controller, Video);
    case BecomeReady(id, t, d) => ReadyAgreesIff(g, id, t, d);
    case Linkup(id, a, v) => LinkAgreesIff(g, id, a, v);
    case Cutoff(id) => CutOffKeeps(g, id);
    case RemoveConnection(id) => RemoveKeeps(g, id);
  }

  ghost predicate ProperRun(ops: seq<Op>)
    decreases |ops|
  {
    ops != [] ==> ProperRun(ops[..|ops| - 1]) && Proper(Run(ops[..|ops| - 1]), ops[|ops| - 1])
  }

  ghost predicate AgreesThroughout(ops: seq<Op>)
    decreases |ops|
  {
    Agrees(Run(ops)) && (ops != [] ==> AgreesThroughout(ops[..|ops| - 1]))
  }

  /** Sources and fields agree at every moment of a run if and only if every link request in it is proper. */
  lemma {:induction false} GraphAgreesIff(ops: seq<Op>)
    ensures AgreesThroughout(ops) <==> ProperRun(ops)
    decreases |ops|
  {
    if ops == [] {
      assert Agrees(Run(ops));
    } else {
      GraphAgreesIff(ops[..|ops| - 1]);
      if AgreesThroughout(ops[..|ops| - 1]) {
        NextAgreesIff(Run(ops[..|ops| - 1]), ops[|ops| - 1]);
      }
    }
  }

  // What each call does to the fields

  /** The request goes through on this track: nothing is asked for, or the source is there and the receiver is ready. */
  predicate Linkable(g: Graph, id: Id, t: Track, from: Option<Id>)
    requires id in g
  {
    from == None || (from.value in g && At(g[id], t).receiver.Some?)
  }

  /** What a link request leaves in a track's field. */
  function Wanted(was: Option<Id>, from: Option<Id>): Option<Id> {
    if from == None then was else from
  }

  /** A track is linked exactly if it can be; then it names its source, and nothing else about any connection changes. */
  lemma LinkSideIs(g: Graph, id: Id, t: Track, from: Option<Id>)
    requires id in g
    ensures var (h, ok) := LinkSide(g, id, t, from);
            && (ok <==> Linkable(g, id, t, from)) && (!ok ==> h == g) && h.Keys == g.Keys
            && (ok ==> At(h[id], t).from == Wanted(At(g[id], t).from, from))
            && (forall c, u :: c in g && (c != id || u != t) ==> At(h[c], u).from == At(g[c], u).from)
            && (forall c, u :: c in g ==> At(h[c], u).receiver == At(g[c], u).receiver)
            && (forall c :: c in g ==> h[c].incoming == g[c].incoming && h[c].controller == g[c].controller)
  {}

  /** The two fields of a connection, and where it takes frames in. */
  predicate SameConn(c: Conn, d: Conn) {
    && c.incoming == d.incoming && c.controller == d.controller
    && c.audio.from == d.audio.from && c.video.from == d.video.from
    && c.audio.receiver == d.audio.receiver && c.video.receiver == d.video.receiver
  }

  /** Both tracks are tried in order, the second only if the first goes through. */
  lemma LinkIs(g: Graph, id: Id, audioFrom: Option<Id>, videoFrom: Option<Id>)
    ensures var (h, ok) := Link(g, id, audioFrom, videoFrom);
            && h.Keys == g.Keys && (forall c :: c in g && c != id ==> SameConn(h[c], g[c]))
            && (ok <==> id in g && Linkable(g, id, Audio, audioFrom) && Linkable(g, id, Video, videoFrom))
            && (id in g ==>
                  SameConn(h[id], g[id].(
                    audio := g[id].audio.(from := if Linkable(g, id, Audio, audioFrom)
                                                  then Wanted(g[id].audio.from, audioFrom) else g[id].audio.from),
                    video := g[id].video.(from := if ok then Wanted(g[id].video.from, videoFrom) else g[id].video.from))))
  {
    if id in g {
      LinkSideIs(g, id, Audio, audioFrom);
      LinkSideIs(LinkSide(g, id, Audio, audioFrom).0, id, Video, videoFrom);
    }
  }

  /** The field of a track once connection `id` is cut off. */
  function CutField(g: Graph, id: Id, c: Id, t: Track): Option<Id>
    requires c in g
  {
    if c == id || At(g[c], t).from == Some(id) then None else At(g[c], t).from
  }

  /** What a cut-off of `id` leaves of connection `c`, destinations aside. */
  ghost predicate CutConn(g: Graph, h: Graph, id: Id, c: Id)
    requires c in g && c in h
  {
    SameConn(h[c], g[c].(audio := g[c].audio.(from := CutField(g, id, c, Audio)),
                         video := g[c].video.(from := CutField(g, id, c, Video))))
  }

  lemma CutFromIs(g: Graph, id: Id, c: Id)
    requires Agrees(g) && id in g && g[id].incoming && c in g
    ensures c in CutFrom(g, id) && CutConn(g, CutFrom(g, id), id, c)
  {
    assert Backed(g, c, Audio) && Backed(g, c, Video) && Backed(g, id, Audio) && Backed(g, id, Video);
  }

  lemma CutToIs(g: Graph, id: Id, c: Id)
    requires Agrees(g) && id in g && !g[id].incoming && c in g
    ensures c in CutTo(g, id).0 && CutConn(g, CutTo(g, id).0, id, c)
  {
    assert Backed(g, c, Audio) && Backed(g, c, Video) && Backed(g, id, Audio) && Backed(g, id, Video);
  }

  /** In an agreeing graph a cut-off clears the fields of the connection and those that name it, and no others. */
  lemma CutOffIs(g: Graph, id: Id)
    requires Agrees(g) && id in g
    ensures var h := CutOff(g, id).0; h.Keys == g.Keys && forall c :: c in g ==> CutConn(g, h, id, c)
  {
    CutOffKeeps(g, id);
    forall c | c in g ensures CutConn(g, CutOff(g, id).0, id, c) {
      if g[id].incoming {
        CutFromIs(g, id, c);
      } else {
        CutToIs(g, id, c);
      }
    }
  }

  /** A new connection is unlinked; it becomes ready once per track; removal leaves the others cut off from it. */
  lemma EntriesAre(g: Graph, op: Op, c: Id)
    requires Agrees(g) && !op.Linkup? && !op.Cutoff?
    ensures var h := Next(g, op);
            && (c in h <==> (c in g && op != RemoveConnection(c)) || (op.AddConnection? && op.id == c))
            && (c in h && c !in g ==> h[c] == Conn(op.incoming, op.controller, UNLINKED, UNLINKED))
            && (c in h && c in g ==>
                  match op
                  case BecomeReady(id, t, d) =>
                    if c == id && At(g[c], t).receiver == None
                    then h[c] == Put(g[c], t, At(g[c], t).(receiver := Some(d))) else h[c] == g[c]
                  case RemoveConnection(id) => h[c] == if id in g then CutOff(g, id).0[c] else g[c]
                  case _ => h[c] == g[c])
  {
    if op.RemoveConnection? {
      RemoveKeeps(g, op.id);
      CutOffKeeps(g, op.id);
      if op.id in g {
        CutOffIs(g, op.id);
      }
    }
  }

  /** A track of `id` that cannot be cut off: it names a registered 'in' connection, but its own receiver is missing. */
  predicate Stuck(g: Graph, id: Id, t: Track)
    requires id in g
  {
    At(g[id], t).from.Some? && At(g[id], t).from.value in g && g[At(g[id], t).from.value].incoming &&
    At(g[id], t).receiver == None
  }

  /**
   In any graph at all, a cut-off fails exactly for an unknown connection and for an 'out' connection with a stuck track;
   a stuck audio track leaves everything as it was. So nothing is stuck in an agreeing graph.
   */
  lemma CutOffFailsIff(g: Graph, id: Id)
    ensures CutOff(g, id).1 <==> id in g && (g[id].incoming || !(Stuck(g, id, Audio) || Stuck(g, id, Video)))
    ensures id !in g || (!g[id].incoming && Stuck(g, id, Audio)) ==> CutOff(g, id).0 == g
    ensures Agrees(g) && id in g ==> !Stuck(g, id, Audio) && !Stuck(g, id, Video)
  {
    if Agrees(g) && id in g {
      assert Backed(g, id, Audio) && Backed(g, id, Video);
    }
  }
}
