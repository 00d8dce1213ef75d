/**
 The messages of one portal session: numbered, buffered for a while, kept pending while the client is away, and handed
 over to the next connection when the client logs in again.
 */
module ReconnectBuffer {
  import opened Common

  type Payload = int

  /** `time` is missing once a hand-over has deleted it. */
  datatype Message = Message(payload: Payload, number: nat, time: Option<int>)

  /** What was numbered, and when. */
  datatype Stamp = Stamp(payload: Payload, time: int)

  /**
   `emitted` is what the sockets of the session have been given; `log` lists every message ever numbered, message
   `n` at index `n - 1`.
   */
  datatype Session = Session(
    connected: bool, lastNumber: nat, buffer: seq<Message>, pending: seq<Payload>, emitted: seq<Payload>, log: seq<Stamp>)

  const OPENED := Session(true, 0, [], [], [], [])

  /** The front of the buffer goes while it is older than `keep`; a message without a time never is. */
  function Evicted(keep: int, now: int, buffer: seq<Message>): (r: seq<Message>)
    ensures |r| <= |buffer|
  {
    if buffer == [] then []
    else if buffer[0].time.Some? && now - buffer[0].time.value > keep then Evicted(keep, now, buffer[1..])
    else buffer
  }

  function Send(keep: int, s: Session, p: Payload, now: int): Session {
    Session(
      s.connected, s.lastNumber + 1, Evicted(keep, now, s.buffer + [Message(p, s.lastNumber + 1, Some(now))]),
      if s.connected then s.pending else s.pending + [p],
      if s.connected then s.emitted + [p] else s.emitted,
      s.log + [Stamp(p, now)])
  }

  function SendAll(keep: int, s: Session, ps: seq<Payload>, now: int): Session
    decreases |ps|
  {
    if ps == [] then s else Send(keep, SendAll(keep, s, ps[..|ps| - 1], now), ps[|ps| - 1], now)
  }

  function Untimed(buffer: seq<Message>): (r: seq<Message>)
    ensures |r| == |buffer| && forall i :: 0 <= i < |r| ==> r[i] == buffer[i].(time := None)
  {
    seq(|buffer|, i requires 0 <= i < |buffer| => buffer[i].(time := None))
  }

  /**
   The new connection takes everything over. A client of protocol 1.2 is handed the buffer in the answer; to any other
   the pending messages are sent, as new messages.
   */
  function Relogin(keep: int, handsBuffer: bool, s: Session, now: int): Session {
    var t := s.(connected := true, buffer := Untimed(s.buffer));
    if handsBuffer then t else SendAll(keep, t, t.pending, now).(pending := [])
  }

  datatype Event = Sent(p: Payload, now: int) | Disconnected(now: int) | Relogged(now: int)

  function Next(keep: int, handsBuffer: bool, s: Session, ev: Event): Session {
    match ev
    case Sent(p, now) => Send(keep, s, p, now)
    case Disconnected(_) => s.(connected := false)
    case Relogged(now) => Relogin(keep, handsBuffer, s, now)
  }

  function RunFrom(keep: int, handsBuffer: bool, s: Session, evs: seq<Event>): Session
    decreases |evs|
  {
    if evs == [] then s
    else Next(keep, handsBuffer, RunFrom(keep, handsBuffer, s, evs[..|evs| - 1]), evs[|evs| - 1])
  }

  function Run(keep: int, handsBuffer: bool, evs: seq<Event>): Session {
    RunFrom(keep, handsBuffer, OPENED, evs)
  }

  predicate Monotone(evs: seq<Event>) {
    forall i, j :: 0 <= i < j < |evs| ==> evs[i].now <= evs[j].now
  }

  // What the buffer holds

  /** The buffered messages are the last ones of the log, under their own numbers and, if they have one, their own time. */
  predicate Contiguous(s: Session) {
    && s.lastNumber == |s.log| && |s.buffer| <= |s.log|
    && forall i :: 0 <= i < |s.buffer| ==>
         var n := |s.log| - |s.buffer| + i;
         && s.buffer[i].number == n + 1 && s.buffer[i].payload == s.log[n].payload
         && (s.buffer[i].time.Some? ==> s.buffer[i].time.value == s.log[n].time)
  }

  /** Whatever has left the buffer is too old to be kept. */
  predicate Retains(keep: int, s: Session, now: int) {
    && |s.buffer| <= |s.log|
    && forall n :: 0 <= n < |s.log| - |s.buffer| ==> now - s.log[n].time > keep
  }

  lemma {:induction false} EvictedIsSuffix(keep: int, now: int, buffer: seq<Message>) returns (k: nat)
    ensures k <= |buffer| && Evicted(keep, now, buffer) == buffer[k..]
    ensures forall i :: 0 <= i < k ==> buffer[i].time.Some? && now - buffer[i].time.value > keep
    ensures k < |buffer| ==> buffer[k].time.Some? ==> now - buffer[k].time.value <= keep
  {
    if buffer != [] && buffer[0].time.Some? && now - buffer[0].time.value > keep {
      var j := EvictedIsSuffix(keep, now, buffer[1..]);
      k := j + 1;
      assert buffer[1..][j..] == buffer[k..];
      assert forall i :: 1 <= i < k ==> buffer[i] == buffer[1..][i - 1];
    } else {
      k := 0;
    }
  }

  /** The session with one more message, before anything is evicted. */
  function Grown(s: Session, p: Payload, now: int): Session {
    s.(lastNumber := s.lastNumber + 1, buffer := s.buffer + [Message(p, s.lastNumber + 1, Some(now))],
       log := s.log + [Stamp(p, now)])
  }

  lemma GrownContiguous(s: Session, p: Payload, now: int)
    requires Contiguous(s)
    ensures Contiguous(Grown(s, p, now))
  {}

  lemma SuffixContiguous(s: Session, k: nat, t: Session)
    requires Contiguous(s) && k <= |s.buffer|
    requires t.buffer == s.buffer[k..] && t.log == s.log && t.lastNumber == s.lastNumber
    ensures Contiguous(t)
  {
    assert forall i :: 0 <= i < |t.buffer| ==> t.buffer[i] == s.buffer[k + i];
  }

  lemma SendContiguous(keep: int, s: Session, p: Payload, now: int)
    requires Contiguous(s)
    ensures Contiguous(Send(keep, s, p, now))
  {
    var g := Grown(s, p, now);
    var k := EvictedIsSuffix(keep, now, g.buffer);
    GrownContiguous(s, p, now);
    SuffixContiguous(g, k, Send(keep, s, p, now));
  }

  lemma SendRetains(keep: int, s: Session, p: Payload, now: int, before: int)
    requires Contiguous(s) && Retains(keep, s, before) && before <= now
    ensures Retains(keep, Send(keep, s, p, now), now)
  {
    var grown := s.buffer + [Message(p, s.lastNumber + 1, Some(now))];
    var k := EvictedIsSuffix(keep, now, grown);
    var r := Send(keep, s, p, now);
    var first := |s.log| - |s.buffer|;
    forall n | 0 <= n < |r.log| - |r.buffer| ensures now - r.log[n].time > keep {
      if n < first {
        assert before - s.log[n].time > keep;
      } else {
        assert grown[n - first].time.Some? && grown[n - first].time.value == r.log[n].time;
      }
    }
  }

  lemma SendKeeps(keep: int, s: Session, p: Payload, now: int, before: int)
    requires Contiguous(s) && Retains(keep, s, before) && before <= now
    ensures Contiguous(Send(keep, s, p, now)) && Retains(keep, Send(keep, s, p, now), now)
  {
    SendContiguous(keep, s, p, now);
    SendRetains(keep, s, p, now, before);
  }

  lemma {:induction false} SendAllKeeps(keep: int, s: Session, ps: seq<Payload>, now: int)
    requires Contiguous(s) && Retains(keep, s, now)
    ensures Contiguous(SendAll(keep, s, ps, now)) && Retains(keep, SendAll(keep, s, ps, now), now)
    decreases |ps|
  {
    if ps != [] {
      SendAllKeeps(keep, s, ps[..|ps| - 1], now);
      SendKeeps(keep, SendAll(keep, s, ps[..|ps| - 1], now), ps[|ps| - 1], now, now);
    }
  }

  lemma NextKeeps(keep: int, handsBuffer: bool, s: Session, ev: Event, before: int)
    requires Contiguous(s) && Retains(keep, s, before) && before <= ev.now
    ensures var r := Next(keep, handsBuffer, s, ev); Contiguous(r) && Retains(keep, r, ev.now)
  {
    match ev
    case Sent(p, now) => SendKeeps(keep, s, p, now, before);
    case Disconnected(_) =>
    case Relogged(now) =>
      var t := s.(connected := true, buffer := Untimed(s.buffer));
      SendAllKeeps(keep, t, t.pending, now);
  }

  /**
   Over any sends, disconnections and relogins with a clock that does not go back, the buffer is an unbroken run of
   messages ending with the last one numbered, and every message of the last `keep` units of time is in it.
   */
  lemma {:induction false} RecentMessagesAreKept(keep: int, handsBuffer: bool, evs: seq<Event>, now: int)
    requires Monotone(evs) && (evs != [] ==> evs[|evs| - 1].now <= now)
    ensures Contiguous(Run(keep, handsBuffer, evs)) && Retains(keep, Run(keep, handsBuffer, evs), now)
    decreases |evs|
  {
    if evs != [] {
      var last := evs[|evs| - 1];
      RecentMessagesAreKept(keep, handsBuffer, evs[..|evs| - 1], last.now);
      NextKeeps(keep, handsBuffer, Run(keep, handsBuffer, evs[..|evs| - 1]), last, last.now);
    }
  }

  // What leaves the buffer

  predicate AllTimed(buffer: seq<Message>) {
    forall i :: 0 <= i < |buffer| ==> buffer[i].time.Some?
  }

  predicate InOrder(buffer: seq<Message>) {
    forall i, j :: 0 <= i < j < |buffer| && buffer[i].time.Some? && buffer[j].time.Some?
                   ==> buffer[i].time.value <= buffer[j].time.value
  }

  lemma GrownTimed(s: Session, p: Payload, now: int)
    requires AllTimed(s.buffer) && InOrder(s.buffer)
    requires forall i :: 0 <= i < |s.buffer| ==> s.buffer[i].time.value <= now
    ensures AllTimed(Grown(s, p, now).buffer) && InOrder(Grown(s, p, now).buffer)
  {}

  lemma SuffixTimed(buffer: seq<Message>, k: nat)
    requires AllTimed(buffer) && InOrder(buffer) && k <= |buffer|
    ensures AllTimed(buffer[k..]) && InOrder(buffer[k..])
  {}

  lemma SuffixDecides(keep: int, buffer: seq<Message>, k: nat, i: nat, now: int)
    requires AllTimed(buffer) && InOrder(buffer) && k <= |buffer| && i < |buffer|
    requires forall j :: 0 <= j < k ==> now - buffer[j].time.value > keep
    requires k < |buffer| ==> now - buffer[k].time.value <= keep
    ensures i >= k <==> now - buffer[i].time.value <= keep
  {}

  /** While every message has its time, a send leaves exactly the messages that are not too old. */
  lemma SendEvictsExactly(keep: int, s: Session, p: Payload, now: int)
    requires Contiguous(s) && AllTimed(s.buffer) && InOrder(s.buffer)
    requires forall i :: 0 <= i < |s.buffer| ==> s.buffer[i].time.value <= now
    ensures var r := Send(keep, s, p, now);
            && AllTimed(r.buffer) && InOrder(r.buffer)
            && forall n :: |s.log| - |s.buffer| <= n <= |s.log| ==>
                 (n >= |r.log| - |r.buffer| <==> now - r.log[n].time <= keep)
  {
    var g := Grown(s, p, now);
    var k := EvictedIsSuffix(keep, now, g.buffer);
    GrownContiguous(s, p, now);
    GrownTimed(s, p, now);
    SuffixTimed(g.buffer, k);
    forall n | |s.log| - |s.buffer| <= n <= |s.log|
      ensures n >= |g.log| - |g.buffer[k..]| <==> now - g.log[n].time <= keep
    {
      EvictedAt(keep, g, k, n, now);
    }
  }

  lemma EvictedAt(keep: int, g: Session, k: nat, n: nat, now: int)
    requires Contiguous(g) && AllTimed(g.buffer) && InOrder(g.buffer)
    requires k <= |g.buffer| && |g.log| - |g.buffer| <= n < |g.log|
    requires forall j :: 0 <= j < k ==> now - g.buffer[j].time.value > keep
    requires k < |g.buffer| ==> now - g.buffer[k].time.value <= keep
    ensures n >= |g.log| - (|g.buffer| - k) <==> now - g.log[n].time <= keep
  {
    var i := n - (|g.log| - |g.buffer|);
    assert g.buffer[i].time.value == g.log[n].time;
    SuffixDecides(keep, g.buffer, k, i, now);
  }

  /** Where in the log the buffer begins. */
  function Front(s: Session): int {
    |s.log| - |s.buffer|
  }

  function Numbers(buffer: seq<Message>): (r: set<nat>)
    ensures forall i :: 0 <= i < |buffer| ==> buffer[i].number in r
  {
    set m | m in buffer :: m.number
  }

  /** The numbers of all messages that some relogin of the run found in the buffer. */
  function FoundByRelogins(keep: int, handsBuffer: bool, evs: seq<Event>): set<nat>
    decreases |evs|
  {
    if evs == [] then {}
    else
      FoundByRelogins(keep, handsBuffer, evs[..|evs| - 1]) +
      if evs[|evs| - 1].Relogged? then Numbers(Run(keep, handsBuffer, evs[..|evs| - 1]).buffer) else {}
  }

  /** Only messages of `found` have lost their time; they are all still there, behind a front that has none either. */
  ghost predicate Stuck(s: Session, found: set<nat>) {
    && Contiguous(s)
    && (forall i :: 0 <= i < |s.buffer| && s.buffer[i].time == None ==> s.buffer[i].number in found)
    && (forall n :: n in found ==> Front(s) < n <= |s.log|)
    && (found != {} ==> s.buffer != [] && s.buffer[0].time == None)
  }

  lemma SendStuck(keep: int, s: Session, found: set<nat>, p: Payload, now: int)
    requires Stuck(s, found)
    ensures Stuck(Send(keep, s, p, now), found)
  {
    var grown := s.buffer + [Message(p, s.lastNumber + 1, Some(now))];
    var k := EvictedIsSuffix(keep, now, grown);
    var r := Send(keep, s, p, now);
    SendContiguous(keep, s, p, now);
    assert |r.buffer| == |grown| - k;
    forall i | 0 <= i < |r.buffer| && r.buffer[i].time == None ensures r.buffer[i].number in found {
      assert r.buffer[i] == grown[k + i] == s.buffer[k + i];
    }
    if found != {} {
      assert grown[0] == s.buffer[0] && k == 0;
    }
  }

  lemma {:induction false} SendAllStuck(keep: int, s: Session, found: set<nat>, ps: seq<Payload>, now: int)
    requires Stuck(s, found)
    ensures Stuck(SendAll(keep, s, ps, now), found)
    decreases |ps|
  {
    if ps != [] {
      SendAllStuck(keep, s, found, ps[..|ps| - 1], now);
      SendStuck(keep, SendAll(keep, s, ps[..|ps| - 1], now), found, ps[|ps| - 1], now);
    }
  }

  lemma UntimedStuck(s: Session, found: set<nat>)
    requires Stuck(s, found)
    ensures Stuck(s.(connected := true, buffer := Untimed(s.buffer)), found + Numbers(s.buffer))
  {
    var t := s.(connected := true, buffer := Untimed(s.buffer));
    var all := found + Numbers(s.buffer);
    forall i | 0 <= i < |t.buffer| ensures t.buffer[i].number in all {
      assert s.buffer[i].number in Numbers(s.buffer);
    }
  }

  lemma NextStuck(keep: int, handsBuffer: bool, s: Session, found: set<nat>, ev: Event)
    requires Stuck(s, found)
    ensures Stuck(Next(keep, handsBuffer, s, ev), found + if ev.Relogged? then Numbers(s.buffer) else {})
  {
    assert found + {} == found;
    match ev
    case Sent(p, now) => SendStuck(keep, s, found, p, now);
    case Disconnected(_) =>
    case Relogged(now) => ReloginStuck(keep, handsBuffer, s, found, now);
  }

  lemma ReloginStuck(keep: int, handsBuffer: bool, s: Session, found: set<nat>, now: int)
    requires Stuck(s, found)
    ensures Stuck(Relogin(keep, handsBuffer, s, now), found + Numbers(s.buffer))
  {
    var t := s.(connected := true, buffer := Untimed(s.buffer));
    UntimedStuck(s, found);
    SendAllStuck(keep, t, found + Numbers(s.buffer), t.pending, now);
  }

  lemma {:induction false} RunStuck(keep: int, handsBuffer: bool, evs: seq<Event>)
    ensures Stuck(Run(keep, handsBuffer, evs), FoundByRelogins(keep, handsBuffer, evs))
    decreases |evs|
  {
    if evs != [] {
      var prefix := evs[..|evs| - 1];
      RunStuck(keep, handsBuffer, prefix);
      NextStuck(keep, handsBuffer, Run(keep, handsBuffer, prefix), FoundByRelogins(keep, handsBuffer, prefix),
                evs[|evs| - 1]);
    }
  }

  /** Later messages have later times, none after `now`. */
  predicate LogInOrder(s: Session, now: int) {
    && (forall a, b :: 0 <= a < b < |s.log| ==> s.log[a].time <= s.log[b].time)
    && (forall a :: 0 <= a < |s.log| ==> s.log[a].time <= now)
  }

  lemma {:induction false} SendAllInOrder(keep: int, s: Session, ps: seq<Payload>, now: int)
    requires LogInOrder(s, now)
    ensures LogInOrder(SendAll(keep, s, ps, now), now)
    decreases |ps|
  {
    if ps != [] {
      SendAllInOrder(keep, s, ps[..|ps| - 1], now);
    }
  }

  lemma {:induction false} RunInOrder(keep: int, handsBuffer: bool, evs: seq<Event>, now: int)
    requires Monotone(evs) && (evs != [] ==> evs[|evs| - 1].now <= now)
    ensures LogInOrder(Run(keep, handsBuffer, evs), now)
    decreases |evs|
  {
    if evs != [] {
      var s := Run(keep, handsBuffer, evs[..|evs| - 1]);
      var last := evs[|evs| - 1];
      RunInOrder(keep, handsBuffer, evs[..|evs| - 1], last.now);
      if last.Relogged? && !handsBuffer {
        SendAllInOrder(keep, s.(connected := true, buffer := Untimed(s.buffer)), s.pending, last.now);
      }
    }
  }

  /** The buffer holds the messages of the last `keep` units of time and no others. */
  ghost predicate ExactlyTheRecent(keep: int, s: Session, now: int) {
    forall n :: 0 <= n < |s.log| ==> (n >= Front(s) <==> now - s.log[n].time <= keep)
  }

  /** The front that a send leaves is recent, or has no time. */
  lemma SendFront(keep: int, s: Session, p: Payload, now: int)
    requires Contiguous(s)
    ensures var r := Send(keep, s, p, now);
            && r.log == s.log + [Stamp(p, now)]
            && (r.buffer != [] && r.buffer[0].time.Some? ==> now - r.log[Front(r)].time <= keep)
  {
    var k := EvictedIsSuffix(keep, now, s.buffer + [Message(p, s.lastNumber + 1, Some(now))]);
    SendContiguous(keep, s, p, now);
  }

  /** All messages with these numbers are recent. */
  ghost predicate AllRecent(keep: int, s: Session, numbers: set<nat>, now: int) {
    forall n :: n in numbers ==> 0 < n <= |s.log| && now - s.log[n - 1].time <= keep
  }

  /** A front with a time is recent, and so is all that follows; a front without one decides for itself. */
  lemma FrontDecidesIff(keep: int, r: Session, found: set<nat>, now: int)
    requires Stuck(r, found) && LogInOrder(r, now) && Retains(keep, r, now)
    requires r.buffer != [] && r.buffer[0].time.Some? ==> now - r.log[Front(r)].time <= keep
    ensures ExactlyTheRecent(keep, r, now) <==> AllRecent(keep, r, found, now)
  {
    if AllRecent(keep, r, found, now) {
      forall n | Front(r) <= n < |r.log| ensures now - r.log[n].time <= keep {
        var f := Front(r);
        assert r.buffer[0].number == f + 1;
        assert r.log[f].time <= r.log[n].time;
      }
    }
    if ExactlyTheRecent(keep, r, now) {
      forall n | n in found ensures 0 < n <= |r.log| && now - r.log[n - 1].time <= keep {
        var at := n - 1;
        assert Front(r) <= at < |r.log|;
      }
    }
  }

  /**
   With a clock that does not go back, a send leaves exactly the recent messages in the buffer if and only if every
   message that an earlier relogin found there is recent.
   */
  lemma BufferIsExactlyTheRecentIff(keep: int, handsBuffer: bool, evs: seq<Event>, p: Payload, now: int)
    requires Monotone(evs) && (evs != [] ==> evs[|evs| - 1].now <= now)
    ensures var r := Run(keep, handsBuffer, evs + [Sent(p, now)]);
            ExactlyTheRecent(keep, r, now) <==> AllRecent(keep, r, FoundByRelogins(keep, handsBuffer, evs), now)
  {
    var found := FoundByRelogins(keep, handsBuffer, evs);
    var s := Run(keep, handsBuffer, evs);
    assert (evs + [Sent(p, now)])[..|evs|] == evs;
    RecentMessagesAreKept(keep, handsBuffer, evs, now);
    RunStuck(keep, handsBuffer, evs);
    RunInOrder(keep, handsBuffer, evs, now);
    SendDecidesIff(keep, s, found, p, now);
  }

  lemma SendDecidesIff(keep: int, s: Session, found: set<nat>, p: Payload, now: int)
    requires Stuck(s, found) && LogInOrder(s, now) && Retains(keep, s, now)
    ensures var r := Send(keep, s, p, now); ExactlyTheRecent(keep, r, now) <==> AllRecent(keep, r, found, now)
  {
    SendKeeps(keep, s, p, now, now);
    SendStuck(keep, s, found, p, now);
    SendFront(keep, s, p, now);
    FrontDecidesIff(keep, Send(keep, s, p, now), found, now);
  }

  /** A front message without a time stops all eviction: the buffer only grows, whatever the clock says. */
  lemma {:induction false} UntimedFrontBlocks(keep: int, handsBuffer: bool, s: Session, evs: seq<Event>)
    returns (r: Session)
    requires s.buffer != [] && s.buffer[0].time == None
    ensures r == RunFrom(keep, handsBuffer, s, evs)
    ensures r.buffer != [] && r.buffer[0].time == None && r.buffer[0].number == s.buffer[0].number
    ensures |r.buffer| - |s.buffer| == r.lastNumber - s.lastNumber >= 0
    decreases |evs|
  {
    r := RunFrom(keep, handsBuffer, s, evs);
    if evs != [] {
      var q := UntimedFrontBlocks(keep, handsBuffer, s, evs[..|evs| - 1]);
      if evs[|evs| - 1].Relogged? {
        var t := q.(connected := true, buffer := Untimed(q.buffer));
        SendAllGrows(keep, t, t.pending, evs[|evs| - 1].now);
      }
    }
  }

  lemma {:induction false} SendAllGrows(keep: int, s: Session, ps: seq<Payload>, now: int)
    requires s.buffer != [] && s.buffer[0].time == None
    ensures var r := SendAll(keep, s, ps, now);
            && r.buffer != [] && r.buffer[0] == s.buffer[0]
            && |r.buffer| - |s.buffer| == r.lastNumber - s.lastNumber >= 0
    decreases |ps|
  {
    if ps != [] {
      SendAllGrows(keep, s, ps[..|ps| - 1], now);
    }
  }

  /** One relogin with a message in the buffer is enough: from then on the buffer never shrinks again. */
  lemma ReloginStopsEviction(keep: int, handsBuffer: bool, s: Session, now: int, evs: seq<Event>)
    requires s.buffer != []
    ensures var t := Relogin(keep, handsBuffer, s, now);
            var r := RunFrom(keep, handsBuffer, t, evs);
            && |t.buffer| - |s.buffer| == t.lastNumber - s.lastNumber
            && |r.buffer| - |t.buffer| == r.lastNumber - t.lastNumber >= 0
  {
    var u := s.(connected := true, buffer := Untimed(s.buffer));
    SendAllGrows(keep, u, u.pending, now);
    var r := UntimedFrontBlocks(keep, handsBuffer, Relogin(keep, handsBuffer, s, now), evs);
  }

  // What reaches the client

  /** The payloads the session was asked to send, in order. */
  function Asked(evs: seq<Event>): seq<Payload>
    decreases |evs|
  {
    if evs == [] then []
    else Asked(evs[..|evs| - 1]) + if evs[|evs| - 1].Sent? then [evs[|evs| - 1].p] else []
  }

  lemma {:induction false} SendAllEmits(keep: int, s: Session, ps: seq<Payload>, now: int)
    requires s.connected
    ensures var r := SendAll(keep, s, ps, now); r.connected && r.emitted == s.emitted + ps && r.pending == s.pending
    decreases |ps|
  {
    if ps == [] {
      assert s.emitted + ps == s.emitted;
    } else {
      SendAllEmits(keep, s, ps[..|ps| - 1], now);
      assert ps == ps[..|ps| - 1] + [ps[|ps| - 1]];
    }
  }

  /** To a client that is not handed the buffer every message is emitted once, in order, or is still pending. */
  lemma {:induction false} NothingLostOrRepeated(keep: int, evs: seq<Event>)
    ensures var s := Run(keep, false, evs);
            s.emitted + s.pending == Asked(evs) && (s.connected ==> s.pending == [])
    decreases |evs|
  {
    if evs != [] {
      var before := Run(keep, false, evs[..|evs| - 1]);
      NothingLostOrRepeated(keep, evs[..|evs| - 1]);
      match evs[|evs| - 1]
      case Sent(p, now) =>
        assert before.emitted + before.pending + [p] == before.emitted + (before.pending + [p]);
        assert before.connected ==> before.emitted + before.pending == before.emitted;
      case Disconnected(_) =>
      case Relogged(now) =>
        SendAllEmits(keep, before.(connected := true, buffer := Untimed(before.buffer)), before.pending, now);
    }
  }

  /** No disconnection since the last relogin. */
  function Online(evs: seq<Event>): bool
    decreases |evs|
  {
    if evs == [] then true
    else
      match evs[|evs| - 1]
      case Sent(_, _) => Online(evs[..|evs| - 1])
      case Disconnected(_) => false
      case Relogged(_) => true
  }

  /** What was asked while the client was away, since it was last handed what is pending. */
  function AskedAway(evs: seq<Event>): seq<Payload>
    decreases |evs|
  {
    if evs == [] then []
    else
      var before := AskedAway(evs[..|evs| - 1]);
      match evs[|evs| - 1]
      case Sent(p, _) => if Online(evs[..|evs| - 1]) then before else before + [p]
      case Disconnected(_) => before
      case Relogged(_) => []
  }

  function Stamps(ps: seq<Payload>, now: int): (r: seq<Stamp>)
    ensures |r| == |ps| && forall i :: 0 <= i < |r| ==> r[i] == Stamp(ps[i], now)
  {
    seq(|ps|, i requires 0 <= i < |ps| => Stamp(ps[i], now))
  }

  /** Every message of the session in the order of its number: what was asked, and what relogins send anew. */
  function Numbered(handsBuffer: bool, evs: seq<Event>): seq<Stamp>
    decreases |evs|
  {
    if evs == [] then []
    else
      var before := Numbered(handsBuffer, evs[..|evs| - 1]);
      match evs[|evs| - 1]
      case Sent(p, now) => before + [Stamp(p, now)]
      case Disconnected(_) => before
      case Relogged(now) => if handsBuffer then before else before + Stamps(AskedAway(evs[..|evs| - 1]), now)
  }

  lemma {:induction false} SendAllNumbers(keep: int, s: Session, ps: seq<Payload>, now: int)
    ensures var r := SendAll(keep, s, ps, now);
            r.log == s.log + Stamps(ps, now) && r.lastNumber == s.lastNumber + |ps| && r.connected == s.connected
    decreases |ps|
  {
    if ps == [] {
      assert s.log + Stamps(ps, now) == s.log;
    } else {
      var n := |ps| - 1;
      SendAllNumbers(keep, s, ps[..n], now);
      assert Stamps(ps, now) == Stamps(ps[..n], now) + [Stamp(ps[n], now)];
    }
  }

  /** The session is connected, and messages are numbered in order from 1 and timed, exactly as the calls say. */
  lemma {:induction false} NumberedIs(keep: int, handsBuffer: bool, evs: seq<Event>)
    ensures var s := Run(keep, handsBuffer, evs);
            && s.connected == Online(evs)
            && s.log == Numbered(handsBuffer, evs) && s.lastNumber == |Numbered(handsBuffer, evs)|
            && (!handsBuffer ==> s.pending == AskedAway(evs))
    decreases |evs|
  {
    if evs != [] {
      var before := Run(keep, handsBuffer, evs[..|evs| - 1]);
      NumberedIs(keep, handsBuffer, evs[..|evs| - 1]);
      if evs[|evs| - 1].Relogged? && !handsBuffer {
        var t := before.(connected := true, buffer := Untimed(before.buffer));
        SendAllNumbers(keep, t, before.pending, evs[|evs| - 1].now);
      }
    }
  }

  /** With protocol 1.2 nothing ever leaves the pending list, and nothing pending is ever emitted. */
  lemma {:induction false} PendingNeverDrains(keep: int, evs: seq<Event>)
    ensures var s := Run(keep, true, evs); |s.emitted| + |s.pending| == |s.log| == |Asked(evs)|
    ensures forall k :: 0 <= k <= |evs| ==> Run(keep, true, evs[..k]).pending <= Run(keep, true, evs).pending
    decreases |evs|
  {
    if evs != [] {
      var prefix := evs[..|evs| - 1];
      PendingNeverDrains(keep, prefix);
      forall k | 0 <= k <= |evs| ensures Run(keep, true, evs[..k]).pending <= Run(keep, true, evs).pending {
        if k < |evs| {
          assert prefix[..k] == evs[..k];
          assert Run(keep, true, prefix[..k]).pending <= Run(keep, true, prefix).pending;
        } else {
          assert evs[..k] == evs;
        }
      }
    } else {
      assert evs[..0] == evs;
    }
  }
}
