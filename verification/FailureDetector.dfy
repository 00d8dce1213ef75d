/** When the manager gives a worker up, over whole runs, and when its timer throws instead. */
module FailureDetector {
  import opened Common
  import opened WorkerTypes
  import opened SchedulerModel
  import opened ClusterManager

  /** The registry, and the purposes that `clusterInfo` holds. */
  datatype Detector = Detector(reg: Registry, known: set<Purpose>)

  /** What the registry of a manager goes through; `visited` is where a tick got to. */
  datatype Sign =
    | Joined(worker: WorkerId, purpose: Purpose)
    | KeptAlive(worker: WorkerId)
    | Left(worker: WorkerId)
    | Installed(data: Registry)
    | Ticked(visited: seq<WorkerId>)

  function AfterSign(d: Detector, sign: Sign, limit: nat): Detector {
    match sign
    case Joined(w, p) => Detector(d.reg[w := Registration(p, 0)], d.known + {p})
    case KeptAlive(w) => d.(reg := Heard(d.reg, w))
    case Left(w) => d.(reg := d.reg - {w})
    case Installed(data) => d.(reg := data)
    case Ticked(visited) => d.(reg := Visits(d.reg, visited, limit))
  }

  function AfterSigns(d: Detector, signs: seq<Sign>, limit: nat): Detector
    decreases |signs|
  {
    if signs == [] then d else AfterSign(AfterSigns(d, signs[..|signs| - 1], limit), signs[|signs| - 1], limit)
  }

  /** Every tick of the run is one that `checkAlive` can make where it stands. */
  ghost predicate Real(d: Detector, signs: seq<Sign>, limit: nat)
    decreases |signs|
  {
    signs != [] ==>
      var before := AfterSigns(d, signs[..|signs| - 1], limit);
      && Real(d, signs[..|signs| - 1], limit)
      && (signs[|signs| - 1].Ticked? ==> IsTick(before.reg, before.known, limit, signs[|signs| - 1].visited))
  }

  /** No tick of the run throws. */
  ghost predicate NeverThrows(d: Detector, signs: seq<Sign>, limit: nat)
    decreases |signs|
  {
    signs != [] ==>
      var before := AfterSigns(d, signs[..|signs| - 1], limit);
      && NeverThrows(d, signs[..|signs| - 1], limit)
      && (signs[|signs| - 1].Ticked? ==> !Throws(before.reg, before.known, limit, signs[|signs| - 1].visited))
  }

  /** Whenever a tick begins, every overdue worker is of a purpose that some worker joined for at this node. */
  ghost predicate DropsKnown(d: Detector, signs: seq<Sign>, limit: nat)
    decreases |signs|
  {
    signs != [] ==>
      var before := AfterSigns(d, signs[..|signs| - 1], limit);
      && DropsKnown(d, signs[..|signs| - 1], limit)
      && (signs[|signs| - 1].Ticked? ==> forall w :: !Fails(before.reg, before.known, limit, w))
  }

  /** The timer never throws if and only if every worker that is overdue at a tick is of a known purpose. */
  lemma {:induction false} NeverThrowsIff(d: Detector, signs: seq<Sign>, limit: nat)
    requires Real(d, signs, limit)
    ensures NeverThrows(d, signs, limit) <==> DropsKnown(d, signs, limit)
    decreases |signs|
  {
    if signs != [] {
      var before := AfterSigns(d, signs[..|signs| - 1], limit);
      NeverThrowsIff(d, signs[..|signs| - 1], limit);
      if signs[|signs| - 1].Ticked? {
        TickThrowsIff(before.reg, before.known, limit, signs[|signs| - 1].visited);
      }
    }
  }

  ghost predicate Knows(d: Detector) {
    forall w :: w in d.reg ==> d.reg[w].purpose in d.known
  }

  lemma VisitsKnow(d: Detector, visited: seq<WorkerId>, limit: nat)
    requires Knows(d) && NoDup(visited)
    ensures Knows(AfterSign(d, Ticked(visited), limit))
  {
    var r := Visits(d.reg, visited, limit);
    forall w | w in r ensures r[w].purpose in d.known {
      VisitsAt(d.reg, visited, limit, w);
    }
  }

  /** A manager that knows its purposes goes on knowing them and never throws, until it installs a snapshot. */
  lemma {:induction false} KnowingNeverThrows(d: Detector, signs: seq<Sign>, limit: nat)
    requires Knows(d) && Real(d, signs, limit) && forall x :: x in signs ==> !x.Installed?
    ensures Knows(AfterSigns(d, signs, limit)) && NeverThrows(d, signs, limit)
    decreases |signs|
  {
    if signs != [] {
      var before := AfterSigns(d, signs[..|signs| - 1], limit);
      assert signs[|signs| - 1] in signs;
      KnowingNeverThrows(d, signs[..|signs| - 1], limit);
      if signs[|signs| - 1].Ticked? {
        VisitsKnow(before, signs[|signs| - 1].visited, limit);
        TickThrowsIff(before.reg, before.known, limit, signs[|signs| - 1].visited);
      }
    }
  }

  /** How many ticks there were, and how many of them came to `w`. */
  function Ticks(signs: seq<Sign>): nat
    decreases |signs|
  {
    if signs == [] then 0 else Ticks(signs[..|signs| - 1]) + if signs[|signs| - 1].Ticked? then 1 else 0
  }

  function TicksTo(signs: seq<Sign>, w: WorkerId): nat
    decreases |signs|
  {
    if signs == [] then 0
    else
      var last := signs[|signs| - 1];
      TicksTo(signs[..|signs| - 1], w) + if last.Ticked? && w in last.visited then 1 else 0
  }

  /** Nothing is heard from `w` and no snapshot comes in, whatever the other workers do. */
  ghost predicate Silent(signs: seq<Sign>, w: WorkerId) {
    forall x :: x in signs ==> !x.Installed? && (x.Ticked? || x.worker != w)
  }

  /** Whether or not ticks throw: a silent worker is dropped by the tick number `limit` + 1 that comes to it. */
  lemma {:induction false} SilenceIsVisited(d: Detector, signs: seq<Sign>, limit: nat, w: WorkerId)
    requires w in d.reg && d.reg[w].aliveCount == 0 && Silent(signs, w) && Real(d, signs, limit)
    ensures var r := AfterSigns(d, signs, limit).reg;
            && (w in r <==> TicksTo(signs, w) <= limit)
            && (w in r ==> r[w] == Registration(d.reg[w].purpose, TicksTo(signs, w)))
    decreases |signs|
  {
    if signs != [] {
      var before := AfterSigns(d, signs[..|signs| - 1], limit);
      assert signs[|signs| - 1] in signs;
      SilenceIsVisited(d, signs[..|signs| - 1], limit, w);
      if signs[|signs| - 1].Ticked? {
        VisitsAt(before.reg, signs[|signs| - 1].visited, limit, w);
      }
    }
  }

  /**
   Exact failure detection, as long as drops are of known purposes: from a join or a keep-alive on, a silent worker
   stays registered for exactly `limit` ticks, during which its count is the number of those ticks; it is dropped at
   tick `limit` + 1.
   */
  lemma {:induction false} SilenceIsCounted(d: Detector, signs: seq<Sign>, limit: nat, w: WorkerId)
    requires w in d.reg && d.reg[w].aliveCount == 0 && Silent(signs, w) && Real(d, signs, limit)
    requires DropsKnown(d, signs, limit)
    ensures var r := AfterSigns(d, signs, limit).reg;
            && (w in r <==> Ticks(signs) <= limit)
            && (w in r ==> r[w] == Registration(d.reg[w].purpose, Ticks(signs)))
    decreases |signs|
  {
    if signs != [] {
      var before := AfterSigns(d, signs[..|signs| - 1], limit);
      assert signs[|signs| - 1] in signs;
      SilenceIsCounted(d, signs[..|signs| - 1], limit, w);
      if signs[|signs| - 1].Ticked? {
        VisitsAt(before.reg, signs[|signs| - 1].visited, limit, w);
        TickThrowsIff(before.reg, before.known, limit, signs[|signs| - 1].visited);
      }
    }
  }

  /** From the last contact on, be it a join or a keep-alive that found the worker registered. */
  lemma SilenceSinceContact(d: Detector, contact: Sign, signs: seq<Sign>, limit: nat, w: WorkerId)
    requires (contact == KeptAlive(w) && w in d.reg) || (contact.Joined? && contact.worker == w)
    requires Silent(signs, w) && Real(AfterSign(d, contact, limit), signs, limit)
    requires DropsKnown(AfterSign(d, contact, limit), signs, limit)
    ensures var r := AfterSigns(AfterSign(d, contact, limit), signs, limit).reg;
            && (w in r <==> Ticks(signs) <= limit)
            && (w in r ==> r[w].aliveCount == Ticks(signs))
  {
    SilenceIsCounted(AfterSign(d, contact, limit), signs, limit, w);
  }

  /** A manager that knows its purposes checks without throwing and goes on knowing them. */
  method CheckKnowing(manager: Manager) returns (thrown: bool)
    requires manager.Valid() && manager.KnowsPurposes()
    modifies manager
    ensures !thrown && manager.Valid() && manager.KnowsPurposes()
    ensures manager.workers == Tick(old(manager.workers), manager.checkAliveCount)
  {
    ghost var d := Detector(manager.workers, manager.clusterInfo.Keys);
    ghost var visited;
    thrown, visited := manager.CheckAlive();
    TickThrowsIff(d.reg, d.known, manager.checkAliveCount, visited);
    FullTick(d.reg, visited, manager.checkAliveCount);
  }

  /** A node that learned a worker from a snapshot only, and then serves, throws at the tick that should drop it. */
  method PromotedLeaderThrows(limit: nat, reserveTime: int, info: Info) returns (thrown: bool)
    ensures thrown
  {
    var manager := new Manager(reserveTime, limit);
    var snapshot := map[7 := Registration(Webrtc, limit)];
    manager.SetRuntimeData(snapshot, map[Webrtc := Add(EMPTY, 7, info)]);
    ghost var visited;
    ghost var known := manager.clusterInfo.Keys;
    thrown, visited := manager.CheckAlive();
    assert Fails(snapshot, known, limit, 7);
    TickThrowsIff(snapshot, known, limit, visited);
  }
}
