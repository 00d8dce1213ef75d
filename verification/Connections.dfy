/** The connection registry of an agent: one map, changed in place by the methods below. */
module Connections {
  import opened Common
  import opened LinkGraph

  lemma {:induction false} MinusTwice(s: seq<Dest>, a: set<Dest>, b: set<Dest>)
    ensures Minus(Minus(s, a), b) == Minus(s, a + b)
  {
    if s != [] {
      MinusTwice(s[1..], a, b);
    }
  }

  lemma {:induction false} MinusNothing(s: seq<Dest>)
    ensures Minus(s, {}) == s
  {
    if s != [] {
      MinusNothing(s[1..]);
    }
  }

  /** One track of one round of `cutOffFrom`. */
  function Cut(h: Graph, id: Id, t: Track, x: Id): Graph
    requires id in h && x in h
  {
    if !LinkedTo(h[x], t, id) then h
    else
      var s := At(h[id], t);
      var r := At(h[x], t).receiver;
      var k := if r == None then h else h[id := Put(h[id], t, s.(dests := Minus(s.dests, {r.value})))];
      k[x := Put(k[x], t, At(k[x], t).(from := None))]
  }

  lemma ListenersStep(g: Graph, id: Id, t: Track, done: set<Id>, x: Id)
    requires x in g
    ensures Listeners(g, id, t, done + {x}) ==
            Listeners(g, id, t, done) +
            if LinkedTo(g[x], t, id) && At(g[x], t).receiver.Some? then {At(g[x], t).receiver.value} else {}
  {
    if LinkedTo(g[x], t, id) && At(g[x], t).receiver.Some? {
      assert At(g[x], t).receiver.value in Listeners(g, id, t, done + {x});
    }
    forall y | y in done && y in g && LinkedTo(g[y], t, id) && At(g[y], t).receiver.Some?
      ensures At(g[y], t).receiver.value in Listeners(g, id, t, done + {x}) {}
  }

  lemma QuieterStep(g: Graph, id: Id, t: Track, done: set<Id>, x: Id)
    requires id in g && x in g
    ensures Quieter(g, id, t, done + {x}) ==
            if LinkedTo(g[x], t, id) && At(g[x], t).receiver.Some?
            then Quieter(g, id, t, done).(dests := Minus(Quieter(g, id, t, done).dests, {At(g[x], t).receiver.value}))
            else Quieter(g, id, t, done)
  {
    ListenersStep(g, id, t, done, x);
    if LinkedTo(g[x], t, id) && At(g[x], t).receiver.Some? {
      MinusTwice(At(g[id], t).dests, Listeners(g, id, t, done), {At(g[x], t).receiver.value});
    } else {
      assert Listeners(g, id, t, done) + {} == Listeners(g, id, t, done);
    }
  }

  /** One round changes the source's and the listener's entry only, each by one track. */
  lemma CutEntries(h: Graph, id: Id, t: Track, x: Id)
    requires id in h && x in h && id != x
    ensures var r := Cut(h, id, t, x);
            && r.Keys == h.Keys && (forall y :: y in h && y != id && y != x ==> r[y] == h[y])
            && r[x] == Put(h[x], t, Unlinked(h[x], t, id))
            && r[id] == if LinkedTo(h[x], t, id) && At(h[x], t).receiver.Some?
                        then Put(h[id], t, At(h[id], t).(dests := Minus(At(h[id], t).dests, {At(h[x], t).receiver.value})))
                        else h[id]
  {}

  lemma CutSomeStep(g: Graph, id: Id, done: set<Id>, x: Id)
    requires id in g && g[id].incoming && x in g && x !in done
    ensures CutSome(g, id, done + {x}) == Cut(Cut(CutSome(g, id, done), id, Audio, x), id, Video, x)
  {
    var h := CutSome(g, id, done);
    var r := CutSome(g, id, done + {x});
    QuieterStep(g, id, Audio, done, x);
    QuieterStep(g, id, Video, done, x);
    if x == id {
      assert forall y :: y in g ==> CutEntry(g, id, done + {x}, y) == CutEntry(g, id, done, y);
      assert r == h;
    } else {
      var k := Cut(h, id, Audio, x);
      CutEntries(h, id, Audio, x);
      CutEntries(k, id, Video, x);
      assert h[x] == g[x] && h[id] == CutEntry(g, id, done, id);
      var l := Cut(k, id, Video, x);
      assert l[id] == CutEntry(g, id, done + {x}, id);
      assert l[x] == CutEntry(g, id, done + {x}, x);
      forall y | y in r ensures l[y] == r[y] {}
    }
  }

  lemma CutNone(g: Graph, id: Id)
    requires id in g && g[id].incoming
    ensures CutSome(g, id, {}) == g
  {
    assert Listeners(g, id, Audio, {}) == {} && Listeners(g, id, Video, {}) == {};
    MinusNothing(g[id].audio.dests);
    MinusNothing(g[id].video.dests);
    assert forall x :: x in g ==> CutEntry(g, id, {}, x) == g[x];
  }

  class Connections {
    var connections: Graph

    constructor ()
      ensures connections == map[]
    {
      connections := map[];
    }

    method AddConnection(id: Id, controller: int, incoming: bool) returns (ok: bool)
      modifies this
      ensures connections == Add(old(connections), id, incoming, controller)
      ensures ok <==> id !in old(connections)
    {
      ok := id !in connections;
      if ok {
        connections := connections[id := Conn(incoming, controller, UNLINKED, UNLINKED)];
      }
    }

    method CutTrack(id: Id, t: Track, x: Id)
      requires id in connections && x in connections
      modifies this
      ensures connections == Cut(old(connections), id, t, x)
    {
      var c := connections[x];
      if !c.incoming && At(c, t).from == Some(id) {
        if At(c, t).receiver.Some? {
          var s := At(connections[id], t);
          connections := connections[id := Put(connections[id], t, s.(dests := Minus(s.dests, {At(c, t).receiver.value})))];
        }
        c := connections[x];
        connections := connections[x := Put(c, t, At(c, t).(from := None))];
      }
    }

    method CutOffFrom(id: Id)
      modifies this
      ensures connections == CutFrom(old(connections), id)
    {
      if id !in connections || !connections[id].incoming {
        return;
      }
      ghost var g := connections;
      ghost var done: set<Id> := {};
      var left := connections.Keys;
      CutNone(g, id);
      while left != {}
        invariant left + done == g.Keys && left !! done
        invariant connections == CutSome(g, id, done)
        decreases left
      {
        ghost var some := Member(left);
        var x :| x in left;
        CutSomeStep(g, id, done, x);
        CutTrack(id, Audio, x);
        CutTrack(id, Video, x);
        left := left - {x};
        done := done + {x};
      }
      assert done == g.Keys;
    }

    method CutOneSide(id: Id, t: Track) returns (ok: bool)
      requires id in connections
      modifies this
      ensures (connections, ok) == CutSide(old(connections), id, t)
    {
      var from := At(connections[id], t).from;
      ok := true;
      if from.Some? && from.value in connections && connections[from.value].incoming {
        var dest := At(connections[id], t).receiver;
        if dest == None {
          return false;
        }
        var s := At(connections[from.value], t);
        connections := connections[from.value := Put(connections[from.value], t, s.(dests := Minus(s.dests, {dest.value})))];
        connections := connections[id := Put(connections[id], t, At(connections[id], t).(from := None))];
      }
    }

    method CutOffTo(id: Id) returns (ok: bool)
      modifies this
      ensures (connections, ok) == CutTo(old(connections), id)
    {
      ok := true;
      if id in connections && !connections[id].incoming {
        ok := CutOneSide(id, Audio);
        if ok {
          ok := CutOneSide(id, Video);
        }
      }
    }

    method CutoffConnection(id: Id) returns (ok: bool)
      modifies this
      ensures (connections, ok) == CutOff(old(connections), id)
    {
      if id !in connections {
        return false;
      }
      if connections[id].incoming {
        CutOffFrom(id);
        ok := true;
      } else {
        ok := CutOffTo(id);
      }
    }

    method RemoveConnection(id: Id) returns (ok: bool)
      modifies this
      ensures (connections, ok) == Remove(old(connections), id)
    {
      ok := CutoffConnection(id);
      if ok {
        connections := connections - {id};
      }
    }

    method LinkTrack(id: Id, t: Track, from: Option<Id>) returns (ok: bool)
      requires id in connections
      modifies this
      ensures (connections, ok) == LinkSide(old(connections), id, t, from)
    {
      if from == None {
        return true;
      }
      if from.value !in connections {
        return false;
      }
      var dest := At(connections[id], t).receiver;
      if dest == None {
        return false;
      }
      var s := At(connections[from.value], t);
      connections := connections[from.value := Put(connections[from.value], t, s.(dests := s.dests + [dest.value]))];
      connections := connections[id := Put(connections[id], t, At(connections[id], t).(from := from))];
      ok := true;
    }

    /** The tracks are linked in order; the first refusal ends the request and leaves what was linked before it. */
    method LinkupConnection(id: Id, audioFrom: Option<Id>, videoFrom: Option<Id>) returns (ok: bool)
      modifies this
      ensures (connections, ok) == Link(old(connections), id, audioFrom, videoFrom)
    {
      if id !in connections {
        return false;
      }
      ok := LinkTrack(id, Audio, audioFrom);
      if ok {
        ok := LinkTrack(id, Video, videoFrom);
      }
    }

    /** Removes the connections of the failed controllers, one after the other. */
    method OnFaultDetected(failed: set<int>) returns (removed: seq<Id>)
      modifies this
      ensures connections == RemoveEach(old(connections), removed)
      ensures forall id :: id in removed <==> id in old(connections) && old(connections)[id].controller in failed
    {
      removed := [];
      ghost var g := connections;
      var left := connections.Keys;
      while left != {}
        invariant left <= g.Keys
        invariant forall id :: id in left ==> id in connections && connections[id].controller == g[id].controller
        invariant connections == RemoveEach(g, removed)
        invariant forall id :: id in removed <==> id in g && id !in left && g[id].controller in failed
        decreases left
      {
        ghost var some := Member(left);
        var id :| id in left;
        left := left - {id};
        if connections[id].controller in failed {
          RemoveLeavesControllers(connections, id);
          assert (removed + [id])[..|removed|] == removed;
          var ok := RemoveConnection(id);
          removed := removed + [id];
        }
      }
    }
  }

  lemma RemoveLeavesControllers(g: Graph, id: Id)
    ensures var h := Remove(g, id).0;
            forall c :: c in g && c != id ==> c in h && h[c].controller == g[c].controller
  {}
}
