/**
 The connections of one agent and who sends to whom, as a value: each entry carries what the registry keeps about the
 connection and, per track, the destinations held by the connection object itself.
 */
module LinkGraph {
  import opened Common

  type Id = int
  type Dest = int

  datatype Track = Audio | Video

  /** `from`: the connection linked to; `receiver`: where this connection takes frames in, once it is ready. */
  datatype Side = Side(from: Option<Id>, receiver: Option<Dest>, dests: seq<Dest>)

  datatype Conn = Conn(incoming: bool, controller: int, audio: Side, video: Side)

  type Graph = map<Id, Conn>

  function At(c: Conn, t: Track): Side {
    if t == Audio then c.audio else c.video
  }

  function Put(c: Conn, t: Track, s: Side): Conn {
    if t == Audio then c.(audio := s) else c.(video := s)
  }

  /** A destination list without any occurrence of the given ones. */
  function Minus(s: seq<Dest>, gone: set<Dest>): (r: seq<Dest>)
    ensures forall d :: d in r <==> d in s && d !in gone
    ensures NoDup(s) ==> NoDup(r)
  {
    if s == [] then []
    else if s[0] in gone then Minus(s[1..], gone)
    else [s[0]] + Minus(s[1..], gone)
  }

  lemma {:induction false} MinusAll(s: seq<Dest>, gone: set<Dest>)
    requires forall d :: d in s ==> d in gone
    ensures Minus(s, gone) == []
  {
    if s != [] {
      var first := s[0];
      assert first in s;
      MinusAll(s[1..], gone);
    }
  }

  // The operations

  const UNLINKED := Side(None, None, [])

  function Add(g: Graph, id: Id, incoming: bool, controller: int): Graph {
    if id in g then g else g[id := Conn(incoming, controller, UNLINKED, UNLINKED)]
  }

  /** The connection object gets its receiver; it keeps the first one. */
  function Ready(g: Graph, id: Id, t: Track, d: Dest): Graph {
    if id in g && At(g[id], t).receiver == None
    then g[id := Put(g[id], t, At(g[id], t).(receiver := Some(d)))]
    else g
  }

  /** One round of the link loop; the second result says whether the loop goes on. */
  function LinkSide(g: Graph, id: Id, t: Track, from: Option<Id>): (Graph, bool)
    requires id in g
  {
    if from == None then (g, true)
    else if from.value !in g || At(g[id], t).receiver == None then (g, false)
    else
      var s := At(g[from.value], t);
      var h := g[from.value := Put(g[from.value], t, s.(dests := s.dests + [At(g[id], t).receiver.value]))];
      (h[id := Put(h[id], t, At(h[id], t).(from := from))], true)
  }

  function Link(g: Graph, id: Id, audioFrom: Option<Id>, videoFrom: Option<Id>): (Graph, bool) {
    if id !in g then (g, false)
    else
      var (h, ok) := LinkSide(g, id, Audio, audioFrom);
      if ok then LinkSide(h, id, Video, videoFrom) else (h, false)
  }

  predicate LinkedTo(c: Conn, t: Track, id: Id) {
    !c.incoming && At(c, t).from == Some(id)
  }

  /** The receivers of those connections among `done` that take their track from `id`. */
  function Listeners(g: Graph, id: Id, t: Track, done: set<Id>): set<Dest> {
    set x | x in done && x in g && LinkedTo(g[x], t, id) && At(g[x], t).receiver.Some? :: At(g[x], t).receiver.value
  }

  function Unlinked(c: Conn, t: Track, id: Id): Side {
    if LinkedTo(c, t, id) then At(c, t).(from := None) else At(c, t)
  }

  /** The source keeps the track's other destinations. */
  function Quieter(g: Graph, id: Id, t: Track, done: set<Id>): Side
    requires id in g
  {
    At(g[id], t).(dests := Minus(At(g[id], t).dests, Listeners(g, id, t, done)))
  }

  /** What has become of connection `x` after `cutOffFrom` has been through the connections in `done`. */
  function CutEntry(g: Graph, id: Id, done: set<Id>, x: Id): Conn
    requires id in g && x in g
  {
    if x == id then g[id].(audio := Quieter(g, id, Audio, done), video := Quieter(g, id, Video, done))
    else if x in done then g[x].(audio := Unlinked(g[x], Audio, id), video := Unlinked(g[x], Video, id))
    else g[x]
  }

  function CutSome(g: Graph, id: Id, done: set<Id>): Graph
    requires id in g && g[id].incoming
  {
    map x | x in g :: CutEntry(g, id, done, x)
  }

  function CutFrom(g: Graph, id: Id): Graph {
    if id in g && g[id].incoming then CutSome(g, id, g.Keys) else g
  }

  /** One half of `cutOffTo`; it throws (second result false) when the receiver is missing. */
  function CutSide(g: Graph, id: Id, t: Track): (Graph, bool)
    requires id in g
  {
    var from := At(g[id], t).from;
    if from == None || from.value !in g || !g[from.value].incoming then (g, true)
    else if At(g[id], t).receiver == None then (g, false)
    else
      var s := At(g[from.value], t);
      var h := g[from.value := Put(g[from.value], t, s.(dests := Minus(s.dests, {At(g[id], t).receiver.value})))];
      (h[id := Put(h[id], t, At(h[id], t).(from := None))], true)
  }

  function CutTo(g: Graph, id: Id): (Graph, bool) {
    if id !in g || g[id].incoming then (g, true)
    else
      var (h, ok) := CutSide(g, id, Audio);
      if ok then CutSide(h, id, Video) else (h, false)
  }

  function CutOff(g: Graph, id: Id): (Graph, bool) {
    if id !in g then (g, false)
    else if g[id].incoming then (CutFrom(g, id), true)
    else CutTo(g, id)
  }

  function Remove(g: Graph, id: Id): (Graph, bool) {
    var (h, ok) := CutOff(g, id);
    if ok then (h - {id}, true) else (h, false)
  }

  /** The connections are removed one after the other. */
  function RemoveEach(g: Graph, ids: seq<Id>): Graph
    decreases |ids|
  {
    if ids == [] then g else Remove(RemoveEach(g, ids[..|ids| - 1]), ids[|ids| - 1]).0
  }
}
