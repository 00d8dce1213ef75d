/** Worker tables: a follower that installed a snapshot replays its leader's table exactly. */
module Replication {
  import opened Common
  import opened WorkerTypes
  import opened ElectionModel
  import opened ElectionSafety

  /** `t` is what the history says for position `k` of `term`. */
  ghost predicate At(h: map<int, map<int, Table>>, term: int, k: int, t: Table) {
    term in h && k in h[term] && h[term][k] == t
  }

  ghost predicate Leads(sys: System, i: int) {
    i in sys.nodes && sys.nodes[i].role == Leader
  }

  /** A leader's table is the newest one recorded for its term. */
  ghost predicate LeadersRecorded(sys: System) {
    forall i :: Leads(sys, i) ==>
      var n := sys.nodes[i];
      At(sys.history, n.term, n.commitId, n.table) && forall k :: k in sys.history[n.term] ==> k <= n.commitId
  }

  /** Only leaders that sent a heartbeat have a history. */
  ghost predicate HistoryOfLeaders(sys: System) {
    && (forall t :: t in sys.history ==> exists m :: m in sys.net && m.Heartbeat? && m.data.term == t)
    && (forall i :: Leads(sys, i) ==>
          exists m :: m in sys.net && m.Heartbeat? && m.data.term == sys.nodes[i].term && m.data.id == i)
  }

  /** Snapshots carry recorded tables; an entry leads from one recorded table to the next. */
  ghost predicate MessagesRecorded(sys: System) {
    && (forall m :: m in sys.net && m.SnapshotReply? ==> At(sys.history, m.data.term, m.data.commitId, m.table))
    && (forall m :: m in sys.net && m.AppendEntry? ==>
          m.data.prevLogIndex == m.data.commitId - 1 && EntryRecorded(sys.history, m.data.term, m.data.commitId, m.entry))
  }

  ghost predicate EntryRecorded(h: map<int, map<int, Table>>, term: int, k: int, e: Entry) {
    term in h && k - 1 in h[term] && k in h[term] && h[term][k] == Replay(h[term][k - 1], e)
  }

  ghost predicate FollowersExact(sys: System) {
    forall i :: i in sys.nodes && sys.nodes[i].follows.Some? ==>
      var n := sys.nodes[i];
      n.role != Leader && !n.freshman && At(sys.history, n.follows.value, n.commitId, n.table)
  }

  ghost predicate ReplicaInv(sys: System) {
    SafeInv(sys) && LeadersRecorded(sys) && HistoryOfLeaders(sys) && MessagesRecorded(sys) && FollowersExact(sys)
  }

  /** Recorded tables are never rewritten. */
  ghost predicate Extends(h: map<int, map<int, Table>>, h': map<int, map<int, Table>>) {
    forall t, k :: t in h && k in h[t] ==> t in h' && k in h'[t] && h'[t][k] == h[t][k]
  }

  /** In a safe state all heartbeats of one term come from one node. */
  lemma OneLeader(sys: System, m1: Message, m2: Message)
    requires SafeInv(sys) && m1 in sys.net && m2 in sys.net && m1.Heartbeat? && m2.Heartbeat?
    requires m1.data.term == m2.data.term
    ensures m1.data.id == m2.data.id
  {
    var t := m1.data.term;
    var v := QuorumsMeet(sys.nodes.Keys, VotersOf(sys, t, m1.data.id), VotersOf(sys, t, m2.data.id), sys.total);
    assert Grant(v, t, m1.data.id) in sys.firstGrant && Grant(v, t, m2.data.id) in sys.firstGrant;
  }

  /** What one handler does to position and table. */
  lemma EffectOnTable(total: nat, s: Node, ev: Event)
    ensures var e := OnEvent(total, s, ev);
            e.node.role == Leader && s.role == Leader ==>
              e.node.term == s.term &&
              if ev.Update? then e.node.commitId == s.commitId + 1 && e.node.table == Replay(s.table, ev.entry)
              else e.node.commitId == s.commitId && e.node.table == s.table
    ensures var e := OnEvent(total, s, ev);
            e.node.role == Leader && s.role != Leader ==>
              s.role == Candidate && e.node.term == s.term && e.node.commitId == s.commitId && e.node.table == s.table &&
              e.node.follows == None && Heartbeat(MarkOf(Where(ev), e.node)) in e.sends
  {}

  /** What one handler does to a node that follows somebody's table. */
  lemma EffectOnFollower(total: nat, s: Node, ev: Event)
    requires Ready(s, ev)
    requires s.role == Leader ==> s.follows == None
    ensures var e := OnEvent(total, s, ev);
            e.node.follows == None ||
            (e.node.follows == s.follows && e.node.commitId == s.commitId &&
             e.node.table == s.table && e.node.freshman == s.freshman) ||
            (ev.Deliver? && ev.msg.SnapshotReply? && e.node.follows == Some(ev.msg.data.term) &&
             e.node.commitId == ev.msg.data.commitId && e.node.table == ev.msg.table && !e.node.freshman) ||
            (ev.Deliver? && ev.msg.AppendEntry? && s.follows == e.node.follows == Some(ev.msg.data.term) &&
             s.prevLogIndex == ev.msg.data.prevLogIndex && e.node.commitId == s.commitId + 1 &&
             e.node.freshman == s.freshman && (!s.freshman ==> e.node.table == Replay(s.table, ev.msg.entry)))
    ensures OnEvent(total, s, ev).node.role == Leader ==> OnEvent(total, s, ev).node.follows == None
  {}

  /** The data messages a handler sends. */
  lemma EffectOnData(total: nat, s: Node, ev: Event)
    requires Ready(s, ev)
    requires s.prevLogIndex == s.commitId
    ensures forall m :: m in OnEvent(total, s, ev).sends && m.SnapshotReply? ==>
              s.role == Leader && m.data.term == s.term && m.data.commitId == s.commitId && m.table == s.table
    ensures forall m :: m in OnEvent(total, s, ev).sends && m.AppendEntry? ==>
              s.role == Leader && ev.Update? && m.entry == ev.entry && m.data.term == s.term &&
              m.data.commitId == s.commitId + 1 && m.data.prevLogIndex == s.commitId
  {}

  /** A node becomes leader only in a term that has no history yet. */
  lemma NewLeaderNewTerm(sys: System, ev: Event)
    requires ReplicaInv(sys) && Enabled(sys, ev) && !AdoptsLowerTerm(sys, ev)
    requires sys.nodes[Where(ev)].role != Leader && Next(sys, ev).nodes[Where(ev)].role == Leader
    ensures Next(sys, ev).nodes[Where(ev)].term !in sys.history
  {
    var id := Where(ev);
    var s := sys.nodes[id];
    var e := OnEvent(sys.total, s, ev);
    EffectOnTable(sys.total, s, ev);
    NextSafe(sys, ev);
    if e.node.term in sys.history {
      var m :| m in sys.net && m.Heartbeat? && m.data.term == e.node.term;
      OneLeader(Next(sys, ev), m, Heartbeat(MarkOf(id, e.node)));
      assert false;
    }
  }

  lemma RecordingExtends(sys: System, ev: Event)
    requires LeadersRecorded(sys) && Enabled(sys, ev)
    requires Leads(Next(sys, ev), Where(ev)) && !Leads(sys, Where(ev)) ==>
               Next(sys, ev).nodes[Where(ev)].term !in sys.history
    ensures Extends(sys.history, Next(sys, ev).history)
  {
    var s := sys.nodes[Where(ev)];
    EffectOnTable(sys.total, s, ev);
    if Leads(sys, Where(ev)) {
      assert forall k :: k in sys.history[s.term] ==> k <= s.commitId;
    }
  }

  lemma NextExtends(sys: System, ev: Event)
    requires ReplicaInv(sys) && !AdoptsLowerTerm(sys, ev)
    ensures Extends(sys.history, Next(sys, ev).history)
  {
    if Enabled(sys, ev) {
      if Leads(Next(sys, ev), Where(ev)) && !Leads(sys, Where(ev)) {
        NewLeaderNewTerm(sys, ev);
      }
      RecordingExtends(sys, ev);
    }
  }

  lemma NextTermsOfLeaders(sys: System, ev: Event, t: int)
    requires ReplicaInv(sys) && Enabled(sys, ev) && t in Next(sys, ev).history
    ensures exists m :: m in Next(sys, ev).net && m.Heartbeat? && m.data.term == t
  {
    var id, s := Where(ev), sys.nodes[Where(ev)];
    var sys' := Next(sys, ev);
    EffectOnTable(sys.total, s, ev);
    if t in sys.history {
      var m :| m in sys.net && m.Heartbeat? && m.data.term == t;
      assert m in sys'.net;
    } else {
      assert Heartbeat(MarkOf(id, sys'.nodes[id])) in sys'.net;
    }
  }

  lemma NextHistoryOfLeaders(sys: System, ev: Event)
    requires ReplicaInv(sys) && Enabled(sys, ev)
    ensures HistoryOfLeaders(Next(sys, ev))
  {
    var id, s := Where(ev), sys.nodes[Where(ev)];
    var sys' := Next(sys, ev);
    EffectOnTable(sys.total, s, ev);
    forall t | t in sys'.history ensures exists m :: m in sys'.net && m.Heartbeat? && m.data.term == t {
      NextTermsOfLeaders(sys, ev, t);
    }
    forall i | Leads(sys', i)
      ensures exists m :: m in sys'.net && m.Heartbeat? && m.data.term == sys'.nodes[i].term && m.data.id == i
    {
      if Leads(sys, i) {
        var m :| m in sys.net && m.Heartbeat? && m.data.term == sys.nodes[i].term && m.data.id == i;
        assert m in sys'.net;
      } else {
        assert Heartbeat(MarkOf(id, sys'.nodes[id])) in sys'.net;
      }
    }
  }

  /** Two nodes are never leaders of the same term at once. */
  lemma LeadersDiffer(sys: System)
    requires SafeInv(sys) && HistoryOfLeaders(sys)
    ensures forall i, j :: Leads(sys, i) && Leads(sys, j) && sys.nodes[i].term == sys.nodes[j].term ==> i == j
  {
    forall i, j | Leads(sys, i) && Leads(sys, j) && sys.nodes[i].term == sys.nodes[j].term
      ensures i == j
    {
      var m :| m in sys.net && m.Heartbeat? && m.data.term == sys.nodes[i].term && m.data.id == i;
      var n :| n in sys.net && n.Heartbeat? && n.data.term == sys.nodes[j].term && n.data.id == j;
      OneLeader(sys, m, n);
    }
  }

  /** If the node that moves ends as leader, no other node leads its term. */
  ghost predicate AloneInTerm(sys: System, ev: Event)
    requires Enabled(sys, ev)
  {
    Leads(Next(sys, ev), Where(ev)) ==>
      forall i :: Leads(sys, i) && i != Where(ev) ==> sys.nodes[i].term != Next(sys, ev).nodes[Where(ev)].term
  }

  lemma NextLeadersDiffer(sys: System, ev: Event)
    requires ReplicaInv(sys) && Enabled(sys, ev) && !AdoptsLowerTerm(sys, ev)
    ensures AloneInTerm(sys, ev)
  {
    NextSafe(sys, ev);
    NextHistoryOfLeaders(sys, ev);
    var sys' := Next(sys, ev);
    LeadersDiffer(sys');
    forall i | Leads(sys, i) && i != Where(ev) && Leads(sys', Where(ev))
      ensures sys.nodes[i].term != sys'.nodes[Where(ev)].term
    {
      assert Leads(sys', i);
    }
  }

  lemma NextLeadersRecorded(sys: System, ev: Event)
    requires LeadersRecorded(sys) && Enabled(sys, ev)
    requires AloneInTerm(sys, ev)
    ensures LeadersRecorded(Next(sys, ev))
  {
    EffectOnTable(sys.total, sys.nodes[Where(ev)], ev);
  }

  lemma NextMessagesRecorded(sys: System, ev: Event)
    requires Positions(sys) && LeadersRecorded(sys) && MessagesRecorded(sys) && Enabled(sys, ev)
    requires Extends(sys.history, Next(sys, ev).history)
    ensures MessagesRecorded(Next(sys, ev))
  {
    var s := sys.nodes[Where(ev)];
    EffectOnTable(sys.total, s, ev);
    EffectOnData(sys.total, s, ev);
  }

  lemma NextFollowersExact(sys: System, ev: Event)
    requires Positions(sys) && MessagesRecorded(sys) && FollowersExact(sys) && Enabled(sys, ev)
    requires Extends(sys.history, Next(sys, ev).history)
    ensures FollowersExact(Next(sys, ev))
  {
    EffectOnFollower(sys.total, sys.nodes[Where(ev)], ev);
  }

  lemma NextReplicaInv(sys: System, ev: Event)
    requires ReplicaInv(sys) && !AdoptsLowerTerm(sys, ev)
    ensures ReplicaInv(Next(sys, ev))
  {
    if Enabled(sys, ev) {
      NextSafe(sys, ev);
      NextLeadersDiffer(sys, ev);
      NextLeadersRecorded(sys, ev);
      NextHistoryOfLeaders(sys, ev);
      NextExtends(sys, ev);
      NextMessagesRecorded(sys, ev);
      NextFollowersExact(sys, ev);
    }
  }

  // Runs

  lemma {:induction false} RunReplica(total: nat, ids: set<int>, evs: seq<Event>)
    requires Configured(total, ids) && NeverAdoptsLowerTerm(Init(total, ids), evs)
    ensures ReplicaInv(Run(Init(total, ids), evs))
    decreases |evs|
  {
    if evs == [] {
      InitInv(total, ids);
    } else {
      var prefix := evs[..|evs| - 1];
      forall i | 0 <= i < |prefix| ensures prefix[..i] == evs[..i] {}
      RunReplica(total, ids, prefix);
      NextReplicaInv(Run(Init(total, ids), prefix), evs[|evs| - 1]);
    }
  }

  lemma RunRecorded(total: nat, ids: set<int>, evs: seq<Event>)
    requires Configured(total, ids) && NeverAdoptsLowerTerm(Init(total, ids), evs)
    ensures LeadersRecorded(Run(Init(total, ids), evs)) && FollowersExact(Run(Init(total, ids), evs))
  {
    RunReplica(total, ids, evs);
  }

  lemma {:induction false} RunExtends(total: nat, ids: set<int>, evs: seq<Event>, k: nat)
    requires Configured(total, ids) && NeverAdoptsLowerTerm(Init(total, ids), evs) && k <= |evs|
    ensures Extends(Run(Init(total, ids), evs[..k]).history, Run(Init(total, ids), evs).history)
    decreases |evs|
  {
    if k == |evs| {
      assert evs[..k] == evs;
    } else {
      var prefix := evs[..|evs| - 1];
      forall i | 0 <= i < |prefix| ensures prefix[..i] == evs[..i] {}
      assert prefix[..k] == evs[..k];
      RunExtends(total, ids, prefix, k);
      RunReplica(total, ids, prefix);
      NextExtends(Run(Init(total, ids), prefix), evs[|evs| - 1]);
    }
  }

  /** A leader's table of any moment of a run is in the history at the end of the run. */
  lemma LeaderStaysRecorded(total: nat, ids: set<int>, evs: seq<Event>, i: nat, leader: int)
    requires Configured(total, ids) && NeverAdoptsLowerTerm(Init(total, ids), evs) && i <= |evs|
    requires Leads(Run(Init(total, ids), evs[..i]), leader)
    ensures var l := Run(Init(total, ids), evs[..i]).nodes[leader];
            At(Run(Init(total, ids), evs).history, l.term, l.commitId, l.table)
  {
    forall k | 0 <= k < i ensures evs[..i][..k] == evs[..k] {}
    RunRecorded(total, ids, evs[..i]);
    RunExtends(total, ids, evs, i);
  }

  lemma FollowerStaysRecorded(total: nat, ids: set<int>, evs: seq<Event>, j: nat, follower: int)
    requires Configured(total, ids) && NeverAdoptsLowerTerm(Init(total, ids), evs) && j <= |evs|
    requires follower in Run(Init(total, ids), evs[..j]).nodes
    requires Run(Init(total, ids), evs[..j]).nodes[follower].follows.Some?
    ensures var f := Run(Init(total, ids), evs[..j]).nodes[follower];
            At(Run(Init(total, ids), evs).history, f.follows.value, f.commitId, f.table)
  {
    forall k | 0 <= k < j ensures evs[..j][..k] == evs[..k] {}
    RunRecorded(total, ids, evs[..j]);
    RunExtends(total, ids, evs, j);
  }

  /**
   Replication refines the leader. Take any run, a moment `i` at which `leader` leads some term and a
   moment `j`, before or after, at which `follower` follows the snapshot of that term. If they stand at
   the same position, their worker tables are equal, whatever was lost, repeated or reordered between.
   */
  lemma FollowerHoldsLeadersTable(
      total: nat, ids: set<int>, evs: seq<Event>, i: nat, j: nat, leader: int, follower: int)
    requires Configured(total, ids) && NeverAdoptsLowerTerm(Init(total, ids), evs) && i <= |evs| && j <= |evs|
    requires leader in Run(Init(total, ids), evs[..i]).nodes && follower in Run(Init(total, ids), evs[..j]).nodes
    ensures var l := Run(Init(total, ids), evs[..i]).nodes[leader];
            var f := Run(Init(total, ids), evs[..j]).nodes[follower];
            l.role == Leader && f.follows == Some(l.term) && f.commitId == l.commitId ==> f.table == l.table
  {
    var l := Run(Init(total, ids), evs[..i]).nodes[leader];
    var f := Run(Init(total, ids), evs[..j]).nodes[follower];
    if l.role == Leader && f.follows == Some(l.term) {
      LeaderStaysRecorded(total, ids, evs, i, leader);
      FollowerStaysRecorded(total, ids, evs, j, follower);
    }
  }

  /** While its leader leads, a follower is at a position the leader has passed. */
  lemma FollowerNotAhead(total: nat, ids: set<int>, evs: seq<Event>, leader: int, follower: int)
    requires Configured(total, ids) && NeverAdoptsLowerTerm(Init(total, ids), evs)
    requires leader in Run(Init(total, ids), evs).nodes && follower in Run(Init(total, ids), evs).nodes
    ensures var l := Run(Init(total, ids), evs).nodes[leader];
            var f := Run(Init(total, ids), evs).nodes[follower];
            l.role == Leader && f.follows == Some(l.term) ==> f.commitId <= l.commitId
  {
    RunReplica(total, ids, evs);
  }

  /**
   A follower of term t stops following only by installing another leader's snapshot, applying another
   term's entry, or becoming leader.
   */
  lemma StopsFollowing(total: nat, s: Node, ev: Event)
    requires Ready(s, ev) && s.follows.Some?
    ensures OnEvent(total, s, ev).node.follows != s.follows ==>
              OnEvent(total, s, ev).node.role == Leader ||
              (ev.Deliver? && (ev.msg.SnapshotReply? || ev.msg.AppendEntry?) && ev.msg.data.term != s.follows.value)
  {}

  /** The exact effect of an accepted entry: a freshman moves on without applying it. */
  lemma EntryAppliedIff(s: Node, d: Mark, e: Entry)
    requires FollowerOnAppendEntry(s, d, e).commitId == s.commitId + 1
    ensures FollowerOnAppendEntry(s, d, e).table == Replay(s.table, e) <==> !s.freshman || Replay(s.table, e) == s.table
  {}
}
