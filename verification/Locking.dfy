/** The lock every handler of a cluster manager node takes, and the snapshot gate built on it. */
module Locking {
  import opened Common

  // The lock as a value: who asked, who was granted, who waits, who has unlocked

  /** A call of `lock` by a request, or a call of `unlock` made on behalf of a request. */
  datatype Call = Lock(request: nat) | Unlock(request: nat)

  /**
   `asked` and `granted` list the requests in the order of their calls and of their grants; `released` holds those
   that unlocked. The code sees `locked` and `waiting` only: it does not look at who unlocks.
   */
  datatype LockState = LockState(locked: bool, waiting: seq<nat>, asked: seq<nat>, granted: seq<nat>, released: set<nat>)

  const OPEN := LockState(false, [], [], [], {})

  function AfterLock(s: LockState, r: nat): LockState {
    if !s.locked then s.(locked := true, asked := s.asked + [r], granted := s.granted + [r])
    else s.(waiting := s.waiting + [r], asked := s.asked + [r])
  }

  function AfterUnlock(s: LockState, r: nat): LockState {
    if |s.waiting| > 0 then
      s.(waiting := s.waiting[1..], granted := s.granted + [s.waiting[0]], released := s.released + {r})
    else s.(locked := false, released := s.released + {r})
  }

  function After(s: LockState, c: Call): LockState {
    match c
    case Lock(r) => AfterLock(s, r)
    case Unlock(r) => AfterUnlock(s, r)
  }

  function AfterAll(s: LockState, calls: seq<Call>): LockState
    decreases |calls|
  {
    if calls == [] then s else After(AfterAll(s, calls[..|calls| - 1]), calls[|calls| - 1])
  }

  /** The requests that were granted and have not unlocked yet: those inside. */
  function Inside(s: LockState): set<nat> {
    set r | r in s.granted && r !in s.released
  }

  /** Every call of `lock` is a request of its own; a request unlocks once, after it was granted. */
  predicate Permitted(s: LockState, c: Call) {
    match c
    case Lock(r) => r !in s.asked
    case Unlock(r) => r in Inside(s)
  }

  ghost predicate Disciplined(calls: seq<Call>)
    decreases |calls|
  {
    calls != [] ==>
      Disciplined(calls[..|calls| - 1]) && Permitted(AfterAll(OPEN, calls[..|calls| - 1]), calls[|calls| - 1])
  }

  /**
   Nobody is inside a free lock; a taken one has exactly one request inside, the one granted last. Nobody waits for a
   free lock, and grants come in the order of the requests, none skipped.
   */
  ghost predicate Exclusive(s: LockState) {
    && Inside(s) == (if s.locked && s.granted != [] then {s.granted[|s.granted| - 1]} else {})
    && (s.locked ==> s.granted != [])
    && (s.waiting != [] ==> s.locked)
    && s.granted + s.waiting == s.asked && NoDup(s.asked)
    && forall r :: r in s.released ==> r in s.granted
  }

  lemma LockExclusive(s: LockState, r: nat)
    requires Exclusive(s) && r !in s.asked
    ensures Exclusive(AfterLock(s, r))
  {
    var t := AfterLock(s, r);
    assert forall x :: x in s.granted ==> x in s.asked;
    assert t.granted + t.waiting == t.asked;
    assert forall x :: x in t.granted <==> x in s.granted || (!s.locked && x == r);
  }

  /** The next request in line was never granted before. */
  lemma NextIsNew(s: LockState)
    requires Exclusive(s) && s.waiting != []
    ensures s.waiting[0] !in s.granted
  {
    var next := s.waiting[0];
    assert s.asked[|s.granted|] == next;
    forall i | 0 <= i < |s.granted| ensures s.granted[i] != next {
      assert s.asked[i] == s.granted[i];
    }
  }

  lemma UnlockExclusive(s: LockState, r: nat)
    requires Exclusive(s) && r in Inside(s)
    ensures Exclusive(AfterUnlock(s, r))
  {
    var t := AfterUnlock(s, r);
    assert Inside(s) == {r};
    if s.waiting != [] {
      NextIsNew(s);
      assert s.waiting == [s.waiting[0]] + t.waiting;
      assert t.granted + t.waiting == t.asked;
      forall x ensures x in Inside(t) <==> x == s.waiting[0] {
        assert x in t.granted <==> x in s.granted || x == s.waiting[0];
        assert x in s.granted && x !in s.released <==> x in Inside(s);
      }
    } else {
      assert forall x :: x in Inside(t) ==> x in Inside(s) && x != r;
    }
  }

  /** While the lock is taken, an unlock keeps requests apart if and only if it is made by the one inside. */
  lemma UnlockKeepsIff(s: LockState, r: nat)
    requires Exclusive(s) && s.locked
    ensures Exclusive(AfterUnlock(s, r)) <==> r in Inside(s)
  {
    var last := s.granted[|s.granted| - 1];
    assert last in Inside(s);
    if r in Inside(s) {
      UnlockExclusive(s, r);
    } else {
      var t := AfterUnlock(s, r);
      assert last in Inside(t);
      if s.waiting != [] {
        NextIsNew(s);
        assert last != t.granted[|t.granted| - 1];
      }
    }
  }

  /** Hand-over: however requests come and go, each unlocking once, at most one is inside. */
  lemma {:induction false} HandOver(calls: seq<Call>)
    requires Disciplined(calls)
    ensures Exclusive(AfterAll(OPEN, calls)) && |Inside(AfterAll(OPEN, calls))| <= 1
    decreases |calls|
  {
    if calls != [] {
      var s := AfterAll(OPEN, calls[..|calls| - 1]);
      HandOver(calls[..|calls| - 1]);
      match calls[|calls| - 1]
      case Lock(r) => LockExclusive(s, r);
      case Unlock(r) => UnlockExclusive(s, r);
    }
  }

  class Mutex {
    var locked: bool
    /** The requests whose promise is not resolved yet, oldest first. */
    var waitingPromises: seq<nat>
    ghost var asked: seq<nat>
    ghost var granted: seq<nat>
    ghost var released: set<nat>

    ghost function State(): LockState
      reads this
    {
      LockState(locked, waitingPromises, asked, granted, released)
    }

    constructor ()
      ensures State() == OPEN
    {
      locked, waitingPromises := false, [];
      asked, granted, released := [], [], {};
    }

    /** Answers whether the promise is resolved at once. */
    method Acquire(request: nat) returns (resolved: bool)
      modifies this
      ensures State() == AfterLock(old(State()), request) && resolved == !old(locked)
    {
      asked := asked + [request];
      if !locked {
        locked := true;
        granted := granted + [request];
        return true;
      }
      waitingPromises := waitingPromises + [request];
      return false;
    }

    /** Answers the request whose promise it resolves, if any. */
    method Release(ghost caller: nat) returns (next: Option<nat>)
      modifies this
      ensures State() == AfterUnlock(old(State()), caller)
      ensures next == if old(waitingPromises) == [] then None else Some(old(waitingPromises)[0])
    {
      released := released + {caller};
      next := None;
      if |waitingPromises| > 0 {
        next := Some(waitingPromises[0]);
        granted := granted + [waitingPromises[0]];
        waitingPromises := waitingPromises[1..];
      } else {
        locked := false;
      }
    }
  }

  // The snapshot gate of a follower

  /**
   `open` is `isInstallSnapshot`, with the request that set it; `started` counts the granted requests whose
   continuation ran; `published` and `closed` list the requests that set the flag and those that were cleared.
   */
  datatype Gate = Gate(lock: LockState, open: Option<nat>, started: nat, published: seq<nat>, closed: seq<nat>)

  const CLOSED_GATE := Gate(OPEN, None, 0, [], [])

  datatype GateCall =
    | Ask(request: nat)           // installSnapshot is called
    | Continue                    // the promise of the oldest granted request runs on
    | TimerFires(request: nat)    // the 500 ms timer of a request that set the flag
    | SnapshotArrives

  /** The clearing unlocks for the request that is open, whoever clears. */
  function Clear(g: Gate): Gate {
    if g.open == None then g
    else g.(open := None, lock := AfterUnlock(g.lock, g.open.value), closed := g.closed + [g.open.value])
  }

  /** A continuation exists for every granted request that has not run on yet. */
  predicate CanContinue(g: Gate) {
    g.started < |g.lock.granted|
  }

  function GateAfter(g: Gate, c: GateCall): Gate {
    match c
    case Ask(r) => g.(lock := AfterLock(g.lock, r))
    case Continue =>
      if !CanContinue(g) then g
      else
        var r := g.lock.granted[g.started];
        if g.open == None then g.(open := Some(r), started := g.started + 1, published := g.published + [r])
        else g.(started := g.started + 1, lock := AfterUnlock(g.lock, r))
    case TimerFires(r) => if r in g.published then Clear(g) else g
    case SnapshotArrives => Clear(g)
  }

  function GateAfterAll(calls: seq<GateCall>): Gate
    decreases |calls|
  {
    if calls == [] then CLOSED_GATE else GateAfter(GateAfterAll(calls[..|calls| - 1]), calls[|calls| - 1])
  }

  /** Every call of `installSnapshot` is a request of its own. */
  ghost predicate OwnRequests(calls: seq<GateCall>)
    decreases |calls|
  {
    calls != [] ==>
      && OwnRequests(calls[..|calls| - 1])
      && (calls[|calls| - 1].Ask? ==> calls[|calls| - 1].request !in GateAfterAll(calls[..|calls| - 1]).lock.asked)
  }

  ghost predicate Balanced(g: Gate) {
    && Exclusive(g.lock)
    && g.published == g.closed + (if g.open == None then [] else [g.open.value])
    && (g.open.Some? ==> Inside(g.lock) == {g.open.value})
    && g.started <= |g.lock.granted| && g.published == g.lock.granted[..g.started]
    && (CanContinue(g) ==> g.open == None && g.lock.locked && g.started + 1 == |g.lock.granted|)
    && forall r :: r in g.lock.released <==> r in g.closed
  }

  lemma ClearBalanced(g: Gate)
    requires Balanced(g)
    ensures Balanced(Clear(g))
  {
    if g.open.Some? {
      var r := g.open.value;
      assert r in Inside(g.lock);
      UnlockExclusive(g.lock, r);
      var c := Clear(g);
      assert c.lock.granted[..g.started] == g.lock.granted[..g.started];
    }
  }

  lemma AskBalanced(g: Gate, r: nat)
    requires Balanced(g) && r !in g.lock.asked
    ensures Balanced(GateAfter(g, Ask(r)))
  {
    LockExclusive(g.lock, r);
    var t := AfterLock(g.lock, r);
    assert t.granted[..g.started] == g.lock.granted[..g.started];
    if !g.lock.locked {
      assert Inside(g.lock) == {};
    } else {
      assert Inside(t) == Inside(g.lock);
    }
  }

  lemma ContinueBalanced(g: Gate)
    requires Balanced(g)
    ensures Balanced(GateAfter(g, Continue))
  {
    if CanContinue(g) {
      TakeStep(g.lock.granted, g.started);
    }
  }

  /**
   The gate stays balanced, whichever timers fire. The lock is exclusive, as if every unlock were made by the request
   inside; an open request is the one inside; requests are opened in the order of their grants and closed, once each,
   in that order, the next one opening only after the last was closed; and there is no unlock but these closings. In
   particular the second branch of a continuation, which would unlock, is never taken.
   */
  lemma {:induction false} GateBalanced(calls: seq<GateCall>)
    requires OwnRequests(calls)
    ensures Balanced(GateAfterAll(calls))
    decreases |calls|
  {
    if calls != [] {
      var g := GateAfterAll(calls[..|calls| - 1]);
      GateBalanced(calls[..|calls| - 1]);
      match calls[|calls| - 1]
      case Ask(r) => AskBalanced(g, r);
      case Continue => ContinueBalanced(g);
      case TimerFires(_) => ClearBalanced(g);
      case SnapshotArrives => ClearBalanced(g);
    }
  }

  /** A request at a free gate is opened by its own continuation. */
  lemma FreeGateOpens(calls: seq<GateCall>, r: nat)
    requires OwnRequests(calls) && !GateAfterAll(calls).lock.locked && r !in GateAfterAll(calls).lock.asked
    ensures var g := GateAfterAll(calls);
            var h := GateAfter(GateAfter(g, Ask(r)), Continue);
            h.open == Some(r) && h.published == g.published + [r]
  {
    GateBalanced(calls);
    var g := GateAfterAll(calls);
    assert Inside(g.lock) == {} && g.open == None;
  }

  /** However an open request ends, the oldest one that waits is opened next; if none waits, the gate is free. */
  lemma NextInLine(calls: seq<GateCall>, end: GateCall)
    requires OwnRequests(calls) && GateAfterAll(calls).open.Some?
    requires end == SnapshotArrives || end == TimerFires(GateAfterAll(calls).open.value)
    ensures var g := GateAfterAll(calls);
            var h := GateAfter(g, end);
            && h.closed == g.closed + [g.open.value] && h.open == None
            && if g.lock.waiting == [] then !h.lock.locked else GateAfter(h, Continue).open == Some(g.lock.waiting[0])
  {
    GateBalanced(calls);
    var g := GateAfterAll(calls);
    assert g.published[|g.closed|] == g.open.value;
  }

  /** A timer that fires ends the open request, which is the timer's own if and only if that was not closed before. */
  lemma TimerEndsOwnIff(calls: seq<GateCall>, r: nat)
    requires OwnRequests(calls) && r in GateAfterAll(calls).published && GateAfterAll(calls).open.Some?
    ensures var g := GateAfterAll(calls);
            var h := GateAfter(g, TimerFires(r));
            && h.closed == g.closed + [g.published[|g.published| - 1]]
            && (h.closed == g.closed + [r] <==> r !in g.closed)
  {
    GateBalanced(calls);
    var g := GateAfterAll(calls);
    var o := g.open.value;
    assert o in Inside(g.lock);
    assert (g.closed + [o])[|g.closed|] == o && (g.closed + [r])[|g.closed|] == r;
    assert r in g.closed || r == o;
  }

  /** A timer outlives its request: request 1's timer ends request 2. */
  lemma TimerOutlivesRequest()
    ensures var calls := [Ask(1), Continue, SnapshotArrives, Ask(2), Continue];
            && OwnRequests(calls) && GateAfterAll(calls).open == Some(2)
            && GateAfterAll(calls + [TimerFires(1)]).closed == [1, 2]
  {
    var a, b, c := [Ask(1)], [Ask(1), Continue], [Ask(1), Continue, SnapshotArrives];
    var d := [Ask(1), Continue, SnapshotArrives, Ask(2)];
    var e := [Ask(1), Continue, SnapshotArrives, Ask(2), Continue];
    assert a[..0] == [] && b[..1] == a && c[..2] == b && d[..3] == c && e[..4] == d && (e + [TimerFires(1)])[..5] == e;
    assert GateAfterAll(a).lock == LockState(true, [], [1], [1], {});
    assert GateAfterAll(b) == Gate(LockState(true, [], [1], [1], {}), Some(1), 1, [1], []);
    assert GateAfterAll(c) == Gate(LockState(false, [], [1], [1], {1}), None, 1, [1], [1]);
    assert GateAfterAll(d) == Gate(LockState(true, [], [1, 2], [1, 2], {1}), None, 1, [1], [1]);
  }

  class SnapshotGate {
    const installSnapshotMutex: Mutex
    var isInstallSnapshot: bool
    /** The request that set the flag last. */
    ghost var opener: nat
    ghost var started: nat
    ghost var published: seq<nat>
    ghost var closed: seq<nat>

    ghost function State(): Gate
      reads this, installSnapshotMutex
    {
      Gate(installSnapshotMutex.State(), if isInstallSnapshot then Some(opener) else None, started, published, closed)
    }

    constructor ()
      ensures State() == CLOSED_GATE && fresh(installSnapshotMutex)
    {
      installSnapshotMutex := new Mutex();
      isInstallSnapshot := false;
      opener, started, published, closed := 0, 0, [], [];
    }

    method InstallSnapshot(request: nat)
      modifies installSnapshotMutex
      ensures State() == GateAfter(old(State()), Ask(request))
    {
      var resolved := installSnapshotMutex.Acquire(request);
    }

    /** What runs once the promise of `InstallSnapshot` is resolved; answers whether a request goes out. */
    method Granted() returns (send: bool)
      requires CanContinue(State())
      modifies this, installSnapshotMutex
      ensures State() == GateAfter(old(State()), Continue) && send == !old(isInstallSnapshot)
    {
      ghost var request := installSnapshotMutex.granted[started];
      started := started + 1;
      if !isInstallSnapshot {
        isInstallSnapshot := true;
        opener, published := request, published + [request];
        return true;
      }
      var next := installSnapshotMutex.Release(request);
      return false;
    }

    /** Both the timer of a request and an installed snapshot end the open request, if there is one. */
    method Close()
      modifies this, installSnapshotMutex
      ensures State() == Clear(old(State()))
    {
      if isInstallSnapshot {
        isInstallSnapshot := false;
        closed := closed + [opener];
        var next := installSnapshotMutex.Release(opener);
      }
    }
  }
}
