/** Log matching: a position of the log, with its term, determines the worker table, across terms and leaders. */
module LogMatching {
  import opened Common
  import opened WorkerTypes
  import opened ElectionModel
  import opened ElectionSafety
  import opened Replication

  /** A freshman accepts an entry that would have changed its table. */
  predicate Skips(s: Node, ev: Event) {
    && s.role == Follower && s.freshman && ev.Deliver? && ev.msg.AppendEntry?
    && FollowerOnAppendEntry(s, ev.msg.data, ev.msg.entry).commitId != s.commitId
    && Replay(s.table, ev.msg.entry) != s.table
  }

  predicate Installs(s: Node, ev: Event) {
    && s.role == Follower && ev.Deliver? && ev.msg.SnapshotReply?
    && ev.msg.followerId == ev.to && ev.msg.data.term >= s.term && ev.msg.data.commitId >= s.commitId
  }

  /** The nodes that have not skipped an entry since they started or installed a snapshot. */
  function Whole(start: System, evs: seq<Event>): set<int>
    decreases |evs|
  {
    if evs == [] then start.nodes.Keys
    else WholeAfter(Whole(start, evs[..|evs| - 1]), Run(start, evs[..|evs| - 1]), evs[|evs| - 1])
  }

  function WholeAfter(whole: set<int>, sys: System, ev: Event): set<int> {
    if !Enabled(sys, ev) then whole
    else if Skips(sys.nodes[Where(ev)], ev) then whole - {Where(ev)}
    else if Installs(sys.nodes[Where(ev)], ev) then whole + {Where(ev)}
    else whole
  }

  /** The step makes a node leader that is not whole. */
  predicate ElectsSkipper(whole: set<int>, sys: System, ev: Event) {
    && Enabled(sys, ev) && sys.nodes[Where(ev)].role != Leader && Next(sys, ev).nodes[Where(ev)].role == Leader
    && Where(ev) !in whole
  }

  ghost predicate NeverElectsSkipper(start: System, evs: seq<Event>)
    decreases |evs|
  {
    evs != [] ==>
      && NeverElectsSkipper(start, evs[..|evs| - 1])
      && !ElectsSkipper(Whole(start, evs[..|evs| - 1]), Run(start, evs[..|evs| - 1]), evs[|evs| - 1])
  }

  // The invariant

  type History = map<int, map<int, Table>>

  /** The table is the one that the history has for the node's log term and position; before any entry it is empty. */
  ghost predicate Exact(h: History, n: Node) {
    if n.prevLogTerm == DEFAULT_DATA then n.commitId == DEFAULT_DATA && n.table == map[]
    else At(h, n.prevLogTerm, n.commitId, n.table)
  }

  /** Where an entry hooks on, its leader's history says the same as that of the previous log term. */
  ghost predicate HooksOn(h: History, d: Mark) {
    if d.prevLogTerm == DEFAULT_DATA then d.prevLogIndex == DEFAULT_DATA
    else
      && d.prevLogTerm in h && d.prevLogIndex in h[d.prevLogTerm]
      && At(h, d.term, d.prevLogIndex, h[d.prevLogTerm][d.prevLogIndex])
  }

  ghost predicate RealTerms(sys: System) {
    && (forall i :: i in sys.nodes ==> sys.nodes[i].term >= DEFAULT_DATA)
    && (forall i :: i in sys.nodes && sys.nodes[i].role != Follower ==> sys.nodes[i].term > DEFAULT_DATA)
    && (forall t :: t in sys.history ==> t > DEFAULT_DATA)
  }

  ghost predicate WholeExact(sys: System, whole: set<int>) {
    && (forall i :: i in whole ==> i in sys.nodes && Exact(sys.history, sys.nodes[i]))
    && (forall i :: i in sys.nodes && (sys.nodes[i].role == Leader || !sys.nodes[i].freshman) ==> i in whole)
  }

  ghost predicate EntriesHookOn(sys: System) {
    forall m :: m in sys.net && m.AppendEntry? ==> HooksOn(sys.history, m.data)
  }

  ghost predicate LogInv(sys: System, whole: set<int>) {
    RealTerms(sys) && WholeExact(sys, whole) && EntriesHookOn(sys)
  }

  // What one handler does

  lemma EffectOnRealTerm(total: nat, s: Node, ev: Event)
    requires Ready(s, ev) && s.term >= DEFAULT_DATA && (s.role != Follower ==> s.term > DEFAULT_DATA)
    requires OnEvent(total, s, ev).node.term >= s.term
    ensures var n := OnEvent(total, s, ev).node;
            n.term >= DEFAULT_DATA && (n.role != Follower ==> n.term > DEFAULT_DATA)
  {}

  /** Log term, position and table change by an update of a leader, an accepted entry or a snapshot only. */
  lemma EffectOnLog(total: nat, s: Node, ev: Event)
    requires Ready(s, ev) && s.prevLogIndex == s.commitId
    ensures var n := OnEvent(total, s, ev).node;
            if s.role == Leader && ev.Update? then
              n.role == Leader && n.prevLogTerm == n.term
            else if Installs(s, ev) then
              n.prevLogTerm == ev.msg.data.term && n.commitId == ev.msg.data.commitId && n.table == ev.msg.table
            else if n.commitId != s.commitId then
              && s.role == Follower && ev.Deliver? && ev.msg.AppendEntry?
              && s.prevLogTerm == ev.msg.data.prevLogTerm && s.commitId == ev.msg.data.prevLogIndex != DEFAULT_DATA
              && n.prevLogTerm == ev.msg.data.term && n.commitId == s.commitId + 1
              && (!Skips(s, ev) ==> n.table == Replay(s.table, ev.msg.entry))
            else n.prevLogTerm == s.prevLogTerm && n.table == s.table
  {}

  lemma EffectOnFreshman(total: nat, s: Node, ev: Event)
    requires Ready(s, ev)
    ensures var n := OnEvent(total, s, ev).node;
            !n.freshman || n.role == Leader ==>
              (!s.freshman && !Skips(s, ev)) || Installs(s, ev) || n.role == Leader
  {}

  /** An entry says where its leader stood before. */
  lemma EffectOnHook(total: nat, s: Node, ev: Event)
    requires Ready(s, ev) && s.prevLogIndex == s.commitId
    ensures forall m :: m in OnEvent(total, s, ev).sends && m.AppendEntry? ==>
              && s.role == Leader && m.data.term == s.term
              && m.data.prevLogIndex == s.commitId && m.data.prevLogTerm == s.prevLogTerm
  {}

  // Steps

  lemma NextRealTerms(sys: System, ev: Event)
    requires RealTerms(sys) && Enabled(sys, ev) && !AdoptsLowerTerm(sys, ev)
    ensures RealTerms(Next(sys, ev))
  {
    EffectOnTerm(sys.total, sys.nodes[Where(ev)], ev);
    EffectOnRealTerm(sys.total, sys.nodes[Where(ev)], ev);
    EffectOnTable(sys.total, sys.nodes[Where(ev)], ev);
  }

  lemma ExactExtends(h: History, h': History, n: Node)
    requires Extends(h, h') && Exact(h, n)
    ensures Exact(h', n)
  {}

  lemma HookExtends(h: History, h': History, d: Mark)
    requires Extends(h, h') && HooksOn(h, d)
    ensures HooksOn(h', d)
  {}

  /** An exact node that accepts an entry at its own log term and position gets the table its leader had next. */
  lemma EntryKeepsExact(h: History, s: Node, m: Message)
    requires Exact(h, s) && m.AppendEntry? && HooksOn(h, m.data)
    requires m.data.prevLogIndex == m.data.commitId - 1 && EntryRecorded(h, m.data.term, m.data.commitId, m.entry)
    requires s.prevLogTerm == m.data.prevLogTerm && s.commitId == m.data.prevLogIndex != DEFAULT_DATA
    ensures At(h, m.data.term, s.commitId + 1, Replay(s.table, m.entry))
  {}

  /** What is recorded of a message in flight. */
  lemma InFlight(sys: System, m: Message)
    requires MessagesRecorded(sys) && EntriesHookOn(sys) && m in sys.net
    ensures m.SnapshotReply? ==> At(sys.history, m.data.term, m.data.commitId, m.table)
    ensures m.AppendEntry? ==>
              HooksOn(sys.history, m.data) && m.data.prevLogIndex == m.data.commitId - 1 &&
              EntryRecorded(sys.history, m.data.term, m.data.commitId, m.entry)
  {}

  /** A message that a whole node takes in leaves it exact. */
  lemma TakenInExact(total: nat, h: History, s: Node, ev: Event)
    requires Ready(s, ev) && s.prevLogIndex == s.commitId && !(s.role == Leader && ev.Update?)
    requires forall t :: t in h ==> t > DEFAULT_DATA
    requires ev.Deliver? && ev.msg.SnapshotReply? ==> At(h, ev.msg.data.term, ev.msg.data.commitId, ev.msg.table)
    requires ev.Deliver? && ev.msg.AppendEntry? ==>
               HooksOn(h, ev.msg.data) && ev.msg.data.prevLogIndex == ev.msg.data.commitId - 1 &&
               EntryRecorded(h, ev.msg.data.term, ev.msg.data.commitId, ev.msg.entry)
    requires Installs(s, ev) || (Exact(h, s) && !Skips(s, ev))
    ensures Exact(h, OnEvent(total, s, ev).node)
  {
    EffectOnLog(total, s, ev);
    var n := OnEvent(total, s, ev).node;
    if !Installs(s, ev) && n.commitId != s.commitId {
      EntryKeepsExact(h, s, ev.msg);
    }
  }

  /** The node that moves is exact afterwards if it is whole then. */
  lemma MoverExact(sys: System, whole: set<int>, ev: Event)
    requires ReplicaInv(sys) && LogInv(sys, whole) && Enabled(sys, ev) && !AdoptsLowerTerm(sys, ev)
    requires Where(ev) in WholeAfter(whole, sys, ev)
    ensures Exact(Next(sys, ev).history, Next(sys, ev).nodes[Where(ev)])
  {
    var s := sys.nodes[Where(ev)];
    NextExtends(sys, ev);
    if s.role == Leader && ev.Update? {
      LeaderExact(sys, ev);
    } else {
      if ev.Deliver? {
        InFlight(sys, ev.msg);
      }
      TakenInExact(sys.total, sys.history, s, ev);
      ExactExtends(sys.history, Next(sys, ev).history, OnEvent(sys.total, s, ev).node);
    }
  }

  /** A leader that serves an update is at the newest position of its own term. */
  lemma LeaderExact(sys: System, ev: Event)
    requires ReplicaInv(sys) && RealTerms(sys) && Enabled(sys, ev) && !AdoptsLowerTerm(sys, ev)
    requires sys.nodes[Where(ev)].role == Leader && ev.Update?
    ensures Exact(Next(sys, ev).history, Next(sys, ev).nodes[Where(ev)])
  {
    NextReplicaInv(sys, ev);
    NextRealTerms(sys, ev);
    EffectOnLog(sys.total, sys.nodes[Where(ev)], ev);
    assert Leads(Next(sys, ev), Where(ev));
  }

  lemma NextWhole(sys: System, whole: set<int>, ev: Event)
    requires WholeExact(sys, whole) && Enabled(sys, ev) && !ElectsSkipper(whole, sys, ev)
    ensures var sys', after := Next(sys, ev), WholeAfter(whole, sys, ev);
            && (forall i :: i in after ==> i in sys'.nodes)
            && (forall i :: i in sys'.nodes && (sys'.nodes[i].role == Leader || !sys'.nodes[i].freshman) ==> i in after)
  {
    EffectOnFreshman(sys.total, sys.nodes[Where(ev)], ev);
    if Next(sys, ev).nodes[Where(ev)].role == Leader {
      LeadersDoNotSkip(sys, ev);
    }
  }

  lemma NextWholeExact(sys: System, whole: set<int>, ev: Event)
    requires ReplicaInv(sys) && LogInv(sys, whole) && Enabled(sys, ev) && !AdoptsLowerTerm(sys, ev)
    requires !ElectsSkipper(whole, sys, ev)
    ensures WholeExact(Next(sys, ev), WholeAfter(whole, sys, ev))
  {
    var id, sys', after := Where(ev), Next(sys, ev), WholeAfter(whole, sys, ev);
    NextExtends(sys, ev);
    NextWhole(sys, whole, ev);
    forall i | i in after ensures Exact(sys'.history, sys'.nodes[i]) {
      if i == id {
        MoverExact(sys, whole, ev);
      } else {
        ExactExtends(sys.history, sys'.history, sys.nodes[i]);
      }
    }
  }

  lemma LeadersDoNotSkip(sys: System, ev: Event)
    requires Enabled(sys, ev) && Next(sys, ev).nodes[Where(ev)].role == Leader
    ensures !Skips(sys.nodes[Where(ev)], ev)
  {}

  lemma NextEntriesHookOn(sys: System, whole: set<int>, ev: Event)
    requires ReplicaInv(sys) && LogInv(sys, whole) && Enabled(sys, ev) && !AdoptsLowerTerm(sys, ev)
    ensures EntriesHookOn(Next(sys, ev))
  {
    var s, sys' := sys.nodes[Where(ev)], Next(sys, ev);
    NextExtends(sys, ev);
    EffectOnHook(sys.total, s, ev);
    forall m | m in sys'.net && m.AppendEntry? ensures HooksOn(sys'.history, m.data) {
      if m in sys.net {
        HookExtends(sys.history, sys'.history, m.data);
      } else {
        assert Leads(sys, Where(ev)) && Exact(sys.history, s);
        HookExtends(sys.history, sys'.history, m.data);
      }
    }
  }

  lemma NextLogInv(sys: System, whole: set<int>, ev: Event)
    requires ReplicaInv(sys) && LogInv(sys, whole) && !AdoptsLowerTerm(sys, ev) && !ElectsSkipper(whole, sys, ev)
    ensures LogInv(Next(sys, ev), WholeAfter(whole, sys, ev))
  {
    if Enabled(sys, ev) {
      NextRealTerms(sys, ev);
      NextWholeExact(sys, whole, ev);
      NextEntriesHookOn(sys, whole, ev);
    }
  }

  // Runs

  lemma {:induction false} RunLogInv(total: nat, ids: set<int>, evs: seq<Event>)
    requires Configured(total, ids) && NeverAdoptsLowerTerm(Init(total, ids), evs)
    requires NeverElectsSkipper(Init(total, ids), evs)
    ensures LogInv(Run(Init(total, ids), evs), Whole(Init(total, ids), evs))
    decreases |evs|
  {
    if evs != [] {
      var prefix := evs[..|evs| - 1];
      forall i | 0 <= i < |prefix| ensures prefix[..i] == evs[..i] {}
      RunLogInv(total, ids, prefix);
      RunReplica(total, ids, prefix);
      NextLogInv(Run(Init(total, ids), prefix), Whole(Init(total, ids), prefix), evs[|evs| - 1]);
    }
  }

  lemma {:induction false} ElectsPrefix(start: System, evs: seq<Event>, k: nat)
    requires k <= |evs| && NeverElectsSkipper(start, evs)
    ensures NeverElectsSkipper(start, evs[..k])
    decreases |evs|
  {
    if k == |evs| {
      assert evs[..k] == evs;
    } else {
      assert evs[..|evs| - 1][..k] == evs[..k];
      ElectsPrefix(start, evs[..|evs| - 1], k);
    }
  }

  /** A whole node of any moment of a run is exact by the history at the end of the run. */
  lemma WholeStaysExact(total: nat, ids: set<int>, evs: seq<Event>, i: nat, node: int)
    requires Configured(total, ids) && NeverAdoptsLowerTerm(Init(total, ids), evs) && i <= |evs|
    requires NeverElectsSkipper(Init(total, ids), evs) && node in Whole(Init(total, ids), evs[..i])
    ensures node in Run(Init(total, ids), evs[..i]).nodes
    ensures Exact(Run(Init(total, ids), evs).history, Run(Init(total, ids), evs[..i]).nodes[node])
  {
    var start := Init(total, ids);
    var moment := Run(start, evs[..i]);
    assert NeverAdoptsLowerTerm(start, evs[..i]) by {
      forall k | 0 <= k < i ensures evs[..i][..k] == evs[..k] {}
    }
    ElectsPrefix(start, evs, i);
    RunLogInv(total, ids, evs[..i]);
    RunExtends(total, ids, evs, i);
    ExactExtends(moment.history, Run(start, evs).history, moment.nodes[node]);
  }

  /**
   Log matching. Take any run in which no candidate adopts an older heartbeat and no node is elected that skipped an
   entry, and any two nodes at any two moments that have not skipped an entry since their last snapshot. If their log
   terms and positions are the same, so are their worker tables, whichever leaders they followed.
   */
  lemma TablesMatch(total: nat, ids: set<int>, evs: seq<Event>, i: nat, j: nat, a: int, b: int)
    requires Configured(total, ids) && NeverAdoptsLowerTerm(Init(total, ids), evs) && i <= |evs| && j <= |evs|
    requires NeverElectsSkipper(Init(total, ids), evs)
    requires a in Whole(Init(total, ids), evs[..i]) && b in Whole(Init(total, ids), evs[..j])
    ensures a in Run(Init(total, ids), evs[..i]).nodes && b in Run(Init(total, ids), evs[..j]).nodes
    ensures var m := Run(Init(total, ids), evs[..i]).nodes[a];
            var n := Run(Init(total, ids), evs[..j]).nodes[b];
            m.prevLogTerm == n.prevLogTerm && m.commitId == n.commitId ==> m.table == n.table
  {
    WholeStaysExact(total, ids, evs, i, a);
    WholeStaysExact(total, ids, evs, j, b);
  }

  /** Every node that is no freshman, and every leader, is such a node. */
  lemma NoFreshmanIsWhole(total: nat, ids: set<int>, evs: seq<Event>, node: int)
    requires Configured(total, ids) && NeverAdoptsLowerTerm(Init(total, ids), evs)
    requires NeverElectsSkipper(Init(total, ids), evs) && node in Run(Init(total, ids), evs).nodes
    ensures var n := Run(Init(total, ids), evs).nodes[node];
            n.role == Leader || !n.freshman ==> node in Whole(Init(total, ids), evs)
  {
    RunLogInv(total, ids, evs);
  }
}
