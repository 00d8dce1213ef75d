/** Following a leader: when entries and snapshots are taken in, and that a follower catches up with its leader. */
module CatchUp {
  import opened Common
  import opened WorkerTypes
  import opened ElectionModel
  import opened ElectionSafety
  import opened Replication

  // Exact conditions of one handler

  /** The sender can be the follower's leader. */
  predicate Heeds(s: Node, d: Mark) {
    s.role == Follower && s.leaderId in {0, d.id} && s.term <= d.term
  }

  /** An entry is taken in exactly if its sender is heeded and it hooks onto the follower's own log, freshman or not. */
  lemma EntryTakenIff(total: nat, s: Node, id: int, d: Mark, e: Entry)
    requires s.prevLogIndex == s.commitId
    ensures var n := OnEvent(total, s, Deliver(id, AppendEntry(d, e))).node;
            var hooks := d.prevLogIndex == s.commitId != DEFAULT_DATA && d.prevLogTerm == s.prevLogTerm;
            && n.commitId == n.prevLogIndex == (if Heeds(s, d) && hooks then s.commitId + 1 else s.commitId)
            && n.prevLogTerm == (if Heeds(s, d) && hooks then d.term else s.prevLogTerm)
            && n.table == (if Heeds(s, d) && hooks && !s.freshman then Replay(s.table, e) else s.table)
            && n.leaderId == (if Heeds(s, d) then d.id else s.leaderId)
            && n.term == (if Heeds(s, d) then d.term else s.term)
            && n.role == s.role && n.freshman == s.freshman
  {}

  /** A snapshot is installed exactly by the follower it is for, if neither its term nor its position is behind. */
  lemma SnapshotInstalledIff(total: nat, s: Node, id: int, d: Mark, followerId: int, t: Table)
    ensures var n := OnEvent(total, s, Deliver(id, SnapshotReply(d, followerId, t))).node;
            if s.role == Follower && followerId == id && s.term <= d.term && s.commitId <= d.commitId then
              && n.table == t && n.commitId == n.prevLogIndex == d.commitId && n.term == n.prevLogTerm == d.term
              && !n.freshman && n.leaderId == s.leaderId && n.role == Follower && n.follows == Some(d.term)
            else n == s
  {}

  /** A snapshot is sent exactly by the leader that is asked for one, to another node; it is its own table. */
  lemma SnapshotSentIff(total: nat, s: Node, id: int, asker: int, leader: int)
    ensures var e := OnEvent(total, s, Deliver(id, SnapshotRequest(asker, leader)));
            && e.node == s
            && e.sends == if s.role == Leader && leader == id != asker then {SnapshotReply(MarkOf(id, s), asker, s.table)}
                          else {}
  {}

  // What the entries of a leader look like

  ghost predicate Entries(sys: System, term: int, k: int, m: Message) {
    m in sys.net && m.AppendEntry? && m.data.term == term && m.data.commitId == k
  }

  /** The leader of term `t` went to position `k` from the one before. */
  predicate Step(h: map<int, map<int, Table>>, t: int, k: int) {
    t in h && k in h[t] && k - 1 in h[t]
  }

  /** Every step of a leader's history was sent as an entry. */
  ghost predicate StepsSent(sys: System) {
    forall t, k :: Step(sys.history, t, k) ==> exists m :: Entries(sys, t, k, m)
  }

  /** An entry comes from whoever sends the heartbeats of its term. */
  ghost predicate EntriesOfLeaders(sys: System) {
    forall m :: m in sys.net && m.AppendEntry? ==>
      exists h :: h in sys.net && h.Heartbeat? && h.data.term == m.data.term && h.data.id == m.data.id
  }

  /** The log of a node is of earlier terms, or of its own; that of a candidate is of earlier terms only. */
  ghost predicate LogTerms(sys: System) {
    forall i :: i in sys.nodes ==>
      sys.nodes[i].prevLogTerm <= sys.nodes[i].term &&
      (sys.nodes[i].role == Candidate ==> sys.nodes[i].prevLogTerm < sys.nodes[i].term)
  }

  ghost predicate LeaderLog(h: map<int, map<int, Table>>, n: Node) {
    n.term in h && (n.prevLogTerm == n.term <==> n.commitId - 1 in h[n.term])
  }

  /** A leader's log is of its own term exactly from its first update on. */
  ghost predicate LeadersLog(sys: System) {
    forall i :: Leads(sys, i) ==> LeaderLog(sys.history, sys.nodes[i])
  }

  ghost predicate EntryLog(h: map<int, map<int, Table>>, d: Mark) {
    d.term in h && (d.prevLogTerm == d.term <==> d.commitId - 2 in h[d.term])
  }

  /** An entry names its own term as the one before exactly if it is not its leader's first. */
  ghost predicate EntriesLog(sys: System) {
    forall m :: m in sys.net && m.AppendEntry? ==> EntryLog(sys.history, m.data)
  }

  ghost predicate IsRange(keys: set<int>, lo: int, hi: int) {
    lo <= hi && forall k :: k in keys <==> lo <= k <= hi
  }

  ghost predicate HasRange(keys: set<int>) {
    exists lo, hi :: lo >= DEFAULT_DATA && IsRange(keys, lo, hi)
  }

  /** A history has no gaps. */
  ghost predicate Unbroken(sys: System) {
    forall t :: t in sys.history ==> HasRange(sys.history[t].Keys)
  }

  /** Whoever follows a term has a log of that term. */
  ghost predicate FollowersLog(sys: System) {
    forall i :: i in sys.nodes && sys.nodes[i].follows.Some? ==> sys.nodes[i].prevLogTerm == sys.nodes[i].follows.value
  }

  ghost predicate CatchInv(sys: System) {
    && ReplicaInv(sys) && StepsSent(sys) && EntriesOfLeaders(sys) && LogTerms(sys) && LeadersLog(sys) && EntriesLog(sys)
    && FollowersLog(sys)
  }

  lemma EffectOnLogTerm(total: nat, s: Node, ev: Event)
    requires Ready(s, ev) && s.prevLogTerm <= s.term && (s.role == Candidate ==> s.prevLogTerm < s.term)
    requires OnEvent(total, s, ev).node.term >= s.term
    ensures var n := OnEvent(total, s, ev).node;
            n.prevLogTerm <= n.term && (n.role == Candidate ==> n.prevLogTerm < n.term)
  {}

  /** What a leader's log and entries look like after one step. */
  lemma EffectOnLeader(total: nat, s: Node, ev: Event)
    requires Ready(s, ev) && s.prevLogIndex == s.commitId && (s.role == Candidate ==> s.prevLogTerm < s.term)
    ensures var e := OnEvent(total, s, ev);
            e.node.role == Leader ==>
              if s.role != Leader then
                e.node.prevLogTerm < e.node.term && e.node.commitId == s.commitId
              else if ev.Update? then
                e.node.prevLogTerm == e.node.term == s.term && e.node.commitId == s.commitId + 1
              else e.node.prevLogTerm == s.prevLogTerm && e.node.commitId == s.commitId && e.node.term == s.term
    ensures var e := OnEvent(total, s, ev);
            && (forall m :: m in e.sends && m.AppendEntry? ==>
                  s.role == Leader && ev.Update? &&
                  m == AppendEntry(Mark(Where(ev), s.term, s.commitId + 1, s.commitId, s.prevLogTerm), ev.entry))
            && (s.role == Leader && ev.Update? ==>
                  AppendEntry(Mark(Where(ev), s.term, s.commitId + 1, s.commitId, s.prevLogTerm), ev.entry) in e.sends)
  {}

  /** What a step adds to the histories: the moving leader's position, the newest of its term, or its first. */
  lemma HistoryStep(sys: System, ev: Event)
    requires ReplicaInv(sys) && Enabled(sys, ev) && !AdoptsLowerTerm(sys, ev)
    ensures var n, h, h' := Next(sys, ev).nodes[Where(ev)], sys.history, Next(sys, ev).history;
            && (forall t :: t in h' <==> t in h || (n.role == Leader && t == n.term))
            && (forall t :: t in h && !(n.role == Leader && t == n.term) ==> h'[t] == h[t])
            && (Leads(Next(sys, ev), Where(ev)) && !Leads(sys, Where(ev)) ==>
                  n.term !in h && h'[n.term].Keys == {n.commitId})
            && (Leads(Next(sys, ev), Where(ev)) && Leads(sys, Where(ev)) ==>
                  && n.term == sys.nodes[Where(ev)].term && n.term in h
                  && h'[n.term].Keys == h[n.term].Keys + {n.commitId}
                  && forall k :: k in h[n.term] ==> k <= sys.nodes[Where(ev)].commitId)
  {
    EffectOnTable(sys.total, sys.nodes[Where(ev)], ev);
    if Leads(Next(sys, ev), Where(ev)) && !Leads(sys, Where(ev)) {
      NewLeaderNewTerm(sys, ev);
    }
  }

  lemma NextLogTerms(sys: System, ev: Event)
    requires LogTerms(sys) && Enabled(sys, ev) && !AdoptsLowerTerm(sys, ev)
    ensures LogTerms(Next(sys, ev))
  {
    EffectOnTerm(sys.total, sys.nodes[Where(ev)], ev);
    EffectOnLogTerm(sys.total, sys.nodes[Where(ev)], ev);
  }

  lemma MoverLeaderLog(sys: System, ev: Event)
    requires ReplicaInv(sys) && LogTerms(sys) && LeadersLog(sys) && Enabled(sys, ev) && !AdoptsLowerTerm(sys, ev)
    requires Leads(Next(sys, ev), Where(ev))
    ensures LeaderLog(Next(sys, ev).history, Next(sys, ev).nodes[Where(ev)])
  {
    EffectOnLeader(sys.total, sys.nodes[Where(ev)], ev);
    HistoryStep(sys, ev);
  }

  lemma NextLeadersLog(sys: System, ev: Event)
    requires ReplicaInv(sys) && LogTerms(sys) && LeadersLog(sys) && Enabled(sys, ev) && !AdoptsLowerTerm(sys, ev)
    ensures LeadersLog(Next(sys, ev))
  {
    var id, sys' := Where(ev), Next(sys, ev);
    HistoryStep(sys, ev);
    NextLeadersDiffer(sys, ev);
    forall i | Leads(sys', i) ensures LeaderLog(sys'.history, sys'.nodes[i]) {
      if i == id {
        MoverLeaderLog(sys, ev);
      } else {
        assert Leads(sys, i);
        assert LeaderLog(sys.history, sys.nodes[i]);
      }
    }
  }

  /** What is in flight stays as it is: histories only grow past their newest position. */
  lemma OldEntryLog(sys: System, ev: Event, m: Message)
    requires ReplicaInv(sys) && EntriesLog(sys) && Enabled(sys, ev) && !AdoptsLowerTerm(sys, ev)
    requires m in sys.net && m.AppendEntry?
    ensures EntryLog(Next(sys, ev).history, m.data)
  {
    HistoryStep(sys, ev);
    EffectOnTable(sys.total, sys.nodes[Where(ev)], ev);
    assert EntryRecorded(sys.history, m.data.term, m.data.commitId, m.entry);
  }

  lemma NewEntryLog(sys: System, ev: Event, m: Message)
    requires ReplicaInv(sys) && LeadersLog(sys) && LogTerms(sys) && Enabled(sys, ev) && !AdoptsLowerTerm(sys, ev)
    requires m in OnEvent(sys.total, sys.nodes[Where(ev)], ev).sends && m.AppendEntry?
    ensures EntryLog(Next(sys, ev).history, m.data)
  {
    EffectOnLeader(sys.total, sys.nodes[Where(ev)], ev);
    HistoryStep(sys, ev);
    assert Leads(sys, Where(ev));
  }

  lemma NextEntriesLog(sys: System, ev: Event)
    requires CatchInv(sys) && Enabled(sys, ev) && !AdoptsLowerTerm(sys, ev)
    ensures EntriesLog(Next(sys, ev))
  {
    var sys' := Next(sys, ev);
    forall m | m in sys'.net && m.AppendEntry? ensures EntryLog(sys'.history, m.data) {
      if m in sys.net {
        OldEntryLog(sys, ev, m);
      } else {
        NewEntryLog(sys, ev, m);
      }
    }
  }

  lemma NextEntriesOfLeaders(sys: System, ev: Event)
    requires CatchInv(sys) && Enabled(sys, ev)
    ensures EntriesOfLeaders(Next(sys, ev))
  {
    var id, s, sys' := Where(ev), sys.nodes[Where(ev)], Next(sys, ev);
    EffectOnLeader(sys.total, s, ev);
    forall m | m in sys'.net && m.AppendEntry?
      ensures exists h :: h in sys'.net && h.Heartbeat? && h.data.term == m.data.term && h.data.id == m.data.id
    {
      if m in sys.net {
        var h :| h in sys.net && h.Heartbeat? && h.data.term == m.data.term && h.data.id == m.data.id;
        assert h in sys'.net;
      } else {
        assert Leads(sys, id);
        var h :| h in sys.net && h.Heartbeat? && h.data.term == s.term && h.data.id == id;
        assert h in sys'.net;
      }
    }
  }

  lemma NextStepsSent(sys: System, ev: Event)
    requires CatchInv(sys) && Enabled(sys, ev) && !AdoptsLowerTerm(sys, ev)
    ensures StepsSent(Next(sys, ev))
  {
    var id, s, sys' := Where(ev), sys.nodes[Where(ev)], Next(sys, ev);
    EffectOnLeader(sys.total, s, ev);
    HistoryStep(sys, ev);
    forall t, k | Step(sys'.history, t, k) ensures exists m :: Entries(sys', t, k, m) {
      if Step(sys.history, t, k) {
        var m :| Entries(sys, t, k, m);
        assert Entries(sys', t, k, m);
      } else {
        var m := AppendEntry(Mark(id, s.term, s.commitId + 1, s.commitId, s.prevLogTerm), ev.entry);
        assert Entries(sys', t, k, m);
      }
    }
  }

  lemma RangeGrows(keys: set<int>, top: int)
    requires HasRange(keys) && top in keys && forall k :: k in keys ==> k <= top
    ensures HasRange(keys + {top}) && HasRange(keys + {top + 1})
  {
    var lo, hi :| lo >= DEFAULT_DATA && IsRange(keys, lo, hi);
    assert hi in keys && hi == top;
    assert keys + {top} == keys;
    assert IsRange(keys + {top + 1}, lo, top + 1);
  }

  lemma NextUnbroken(sys: System, ev: Event)
    requires ReplicaInv(sys) && Unbroken(sys) && Enabled(sys, ev) && !AdoptsLowerTerm(sys, ev)
    ensures Unbroken(Next(sys, ev))
  {
    var id, sys' := Where(ev), Next(sys, ev);
    var n := sys'.nodes[id];
    HistoryStep(sys, ev);
    if n.role == Leader {
      assert HasRange(sys'.history[n.term].Keys) by {
        LeaderRange(sys, ev);
      }
    }
    forall t | t in sys'.history ensures HasRange(sys'.history[t].Keys) {
      if !(n.role == Leader && t == n.term) {
        assert t in sys.history && sys'.history[t] == sys.history[t];
      }
    }
  }

  lemma LeaderRange(sys: System, ev: Event)
    requires ReplicaInv(sys) && Unbroken(sys) && Enabled(sys, ev) && !AdoptsLowerTerm(sys, ev)
    requires Leads(Next(sys, ev), Where(ev))
    ensures var n := Next(sys, ev).nodes[Where(ev)];
            n.term in Next(sys, ev).history && HasRange(Next(sys, ev).history[n.term].Keys)
  {
    var s, n := sys.nodes[Where(ev)], Next(sys, ev).nodes[Where(ev)];
    HistoryStep(sys, ev);
    EffectOnTable(sys.total, s, ev);
    EffectOnPosition(sys.total, s, ev);
    if s.role == Leader {
      RangeGrows(sys.history[s.term].Keys, s.commitId);
    } else {
      assert IsRange({n.commitId}, n.commitId, n.commitId);
    }
  }

  lemma EffectOnFollowersLog(total: nat, s: Node, ev: Event)
    requires Ready(s, ev) && (s.follows.Some? ==> s.role != Leader && s.prevLogTerm == s.follows.value)
    ensures var n := OnEvent(total, s, ev).node; n.follows.Some? ==> n.prevLogTerm == n.follows.value
  {}

  lemma NextFollowersLog(sys: System, ev: Event)
    requires CatchInv(sys) && Enabled(sys, ev)
    ensures FollowersLog(Next(sys, ev))
  {
    EffectOnFollowersLog(sys.total, sys.nodes[Where(ev)], ev);
  }

  lemma NextCatchInv(sys: System, ev: Event)
    requires CatchInv(sys) && !AdoptsLowerTerm(sys, ev)
    ensures CatchInv(Next(sys, ev))
  {
    if Enabled(sys, ev) {
      NextReplicaInv(sys, ev);
      NextStepsSent(sys, ev);
      NextEntriesOfLeaders(sys, ev);
      NextLogTerms(sys, ev);
      NextLeadersLog(sys, ev);
      NextEntriesLog(sys, ev);
      NextFollowersLog(sys, ev);
    }
  }

  lemma {:induction false} RunCatchInv(total: nat, ids: set<int>, evs: seq<Event>)
    requires Configured(total, ids) && NeverAdoptsLowerTerm(Init(total, ids), evs)
    ensures CatchInv(Run(Init(total, ids), evs)) && Unbroken(Run(Init(total, ids), evs))
    decreases |evs|
  {
    if evs == [] {
      InitInv(total, ids);
    } else {
      var prefix := evs[..|evs| - 1];
      forall i | 0 <= i < |prefix| ensures prefix[..i] == evs[..i] {}
      RunCatchInv(total, ids, prefix);
      var sys, last := Run(Init(total, ids), prefix), evs[|evs| - 1];
      NextCatchInv(sys, last);
      if Enabled(sys, last) {
        NextUnbroken(sys, last);
      }
    }
  }

  // A follower catches up

  /** Deliveries to `to` of the entries of `term` from position `k + 1` on, in order, all of them in flight. */
  ghost predicate InOrder(sys: System, to: int, term: int, k: int, ds: seq<Event>) {
    forall i :: 0 <= i < |ds| ==>
      ds[i].Deliver? && ds[i].to == to && ds[i].msg.AppendEntry? && Entries(sys, term, k + 1 + i, ds[i].msg)
  }

  /** All entries of one term have the same sender. */
  lemma OneSender(sys: System, m1: Message, m2: Message)
    requires SafeInv(sys) && EntriesOfLeaders(sys) && m1 in sys.net && m2 in sys.net && m1.AppendEntry? && m2.AppendEntry?
    requires m1.data.term == m2.data.term
    ensures m1.data.id == m2.data.id
  {
    var h1 :| h1 in sys.net && h1.Heartbeat? && h1.data.term == m1.data.term && h1.data.id == m1.data.id;
    var h2 :| h2 in sys.net && h2.Heartbeat? && h2.data.term == m2.data.term && h2.data.id == m2.data.id;
    OneLeader(sys, h1, h2);
  }

  /** What is known of an entry for the position after `k`. */
  lemma EntryAt(sys: System, term: int, k: int, m: Message)
    requires MessagesRecorded(sys) && EntriesLog(sys) && Entries(sys, term, k + 1, m)
    ensures m.data.prevLogIndex == k && EntryRecorded(sys.history, term, k + 1, m.entry)
    ensures m.data.prevLogTerm == term <==> Step(sys.history, term, k)
  {}

  /** What entries delivered in order look like: all but perhaps the first are no leader's first. */
  lemma OrderedEntries(sys: System, to: int, term: int, k: int, ds: seq<Event>, i: nat)
    requires CatchInv(sys) && InOrder(sys, to, term, k, ds) && i < |ds|
    ensures var d := ds[i].msg.data;
            && d.term == term && d.commitId == k + 1 + i && d.prevLogIndex == k + i && d.id == ds[0].msg.data.id
            && (d.prevLogTerm == term <==> i > 0 || Step(sys.history, term, k))
            && EntryRecorded(sys.history, term, k + 1 + i, ds[i].msg.entry)
  {
    OneSender(sys, ds[i].msg, ds[0].msg);
    EntryAt(sys, term, k + i, ds[i].msg);
    if i > 0 {
      EntryAt(sys, term, k + i - 1, ds[i - 1].msg);
    }
  }

  /** The follower after `n` entries, of which it took in all or none. */
  ghost predicate Followed(h: map<int, map<int, Table>>, s: Node, r: Node, term: int, n: nat, hooked: bool, sender: int) {
    && r.role == Follower && r.leaderId in {0, sender} && r.term == term && r.prevLogTerm == term && !r.freshman
    && r.follows == Some(term) && r.prevLogIndex == r.commitId == (if hooked then s.commitId + n else s.commitId)
    && At(h, term, r.commitId, r.table)
  }

  lemma OneMoreEntry(total: nat, h: map<int, map<int, Table>>, s: Node, r: Node, id: int, n: nat, hooked: bool,
                     d: Mark, e: Entry)
    requires Followed(h, s, r, d.term, n, hooked, d.id)
    requires d.prevLogIndex == s.commitId + n && EntryRecorded(h, d.term, s.commitId + n + 1, e)
    requires d.prevLogTerm == d.term <==> n > 0 || hooked
    requires hooked ==> s.commitId != DEFAULT_DATA
    requires s.commitId >= DEFAULT_DATA
    ensures Followed(h, s, OnEvent(total, r, Deliver(id, AppendEntry(d, e))).node, d.term, n + 1, hooked, d.id)
  {
    EntryTakenIff(total, r, id, d, e);
  }

  /** Only the follower differs. */
  ghost predicate Trail(sys: System, p: System, f: int) {
    && f in sys.nodes && f in p.nodes && p.nodes == sys.nodes[f := p.nodes[f]]
    && p.history == sys.history && p.net == sys.net && p.total == sys.total
  }

  lemma TrailNext(sys: System, p: System, f: int, m: Message)
    requires Trail(sys, p, f) && p.nodes[f].role == Follower && m in sys.net && m.AppendEntry?
    ensures var r := Next(p, Deliver(f, m));
            Trail(sys, r, f) && r.nodes[f] == OnEvent(p.total, p.nodes[f], Deliver(f, m)).node
  {}

  /** A position that a history steps to is a real one. */
  lemma StepIsReal(sys: System, term: int, k: int)
    requires Unbroken(sys) && Step(sys.history, term, k)
    ensures k > DEFAULT_DATA
  {
    var lo, hi :| lo >= DEFAULT_DATA && IsRange(sys.history[term].Keys, lo, hi);
    assert k - 1 in sys.history[term].Keys;
  }

  /** The follower `f` of `sys` after the first `n` of the entries `ds`, in `p`. */
  ghost predicate InStep(sys: System, p: System, f: int, term: int, ds: seq<Event>, n: nat)
    requires n <= |ds| && ds != [] && ds[0].Deliver? && ds[0].msg.AppendEntry?
  {
    && Trail(sys, p, f)
    && Followed(sys.history, sys.nodes[f], p.nodes[f], term, n, Step(sys.history, term, sys.nodes[f].commitId),
                ds[0].msg.data.id)
  }

  lemma TakesInNext(sys: System, p: System, f: int, term: int, ds: seq<Event>, n: nat)
    requires CatchInv(sys) && Unbroken(sys) && f in sys.nodes && n < |ds|
    requires InOrder(sys, f, term, sys.nodes[f].commitId, ds) && InStep(sys, p, f, term, ds, n)
    ensures InStep(sys, Next(p, ds[n]), f, term, ds, n + 1)
  {
    var s, m := sys.nodes[f], ds[n].msg;
    OrderedEntries(sys, f, term, s.commitId, ds, n);
    TrailNext(sys, p, f, m);
    if Step(sys.history, term, s.commitId) {
      StepIsReal(sys, term, s.commitId);
    }
    assert s.commitId >= DEFAULT_DATA;
    OneMoreEntry(p.total, sys.history, s, p.nodes[f], f, n, Step(sys.history, term, s.commitId), m.data, m.entry);
  }

  lemma TakesInOne(total: nat, ids: set<int>, evs: seq<Event>, p: System, f: int, term: int, ds: seq<Event>, n: nat)
    requires Configured(total, ids) && NeverAdoptsLowerTerm(Init(total, ids), evs) && n < |ds|
    requires f in Run(Init(total, ids), evs).nodes
    requires var sys := Run(Init(total, ids), evs);
             InOrder(sys, f, term, sys.nodes[f].commitId, ds) && InStep(sys, p, f, term, ds, n)
    ensures InStep(Run(Init(total, ids), evs), Next(p, ds[n]), f, term, ds, n + 1)
  {
    RunCatchInv(total, ids, evs);
    TakesInNext(Run(Init(total, ids), evs), p, f, term, ds, n);
  }

  lemma RunOneMore(sys: System, ds: seq<Event>, n: nat)
    requires n < |ds|
    ensures Run(sys, ds[..n + 1]) == Next(Run(sys, ds[..n]), ds[n])
  {
    assert ds[..n + 1][..n] == ds[..n];
  }

  lemma {:induction false} TakesIn(total: nat, ids: set<int>, evs: seq<Event>, f: int, term: int, ds: seq<Event>, n: nat)
    requires Configured(total, ids) && NeverAdoptsLowerTerm(Init(total, ids), evs) && n <= |ds| && ds != []
    requires f in Run(Init(total, ids), evs).nodes
    requires var sys := Run(Init(total, ids), evs);
             InOrder(sys, f, term, sys.nodes[f].commitId, ds) && InStep(sys, sys, f, term, ds, 0)
    ensures var sys := Run(Init(total, ids), evs); InStep(sys, Run(sys, ds[..n]), f, term, ds, n)
  {
    if n > 0 {
      var sys := Run(Init(total, ids), evs);
      TakesIn(total, ids, evs, f, term, ds, n - 1);
      TakesInOne(total, ids, evs, Run(sys, ds[..n - 1]), f, term, ds, n - 1);
      RunOneMore(sys, ds, n - 1);
    }
  }

  /**
   Take any run and a node that follows a term and heeds its leader, and deliver to it the entries of that term in order
   from its position on. It takes all of them in if and only if its leader had made an update by that position;
   otherwise it refuses all of them. What it holds is its leader's table at its position.
   */
  lemma TakesInEntriesIff(total: nat, ids: set<int>, evs: seq<Event>, f: int, ds: seq<Event>)
    requires Configured(total, ids) && NeverAdoptsLowerTerm(Init(total, ids), evs) && ds != []
    requires f in Run(Init(total, ids), evs).nodes && Run(Init(total, ids), evs).nodes[f].follows.Some?
    requires var sys := Run(Init(total, ids), evs); var s := sys.nodes[f];
             InOrder(sys, f, s.follows.value, s.commitId, ds) && Heeds(s, ds[0].msg.data)
    ensures var sys := Run(Init(total, ids), evs);
            var s, term, p := sys.nodes[f], sys.nodes[f].follows.value, Run(sys, ds);
            && f in p.nodes && p.history == sys.history
            && p.nodes[f].commitId == s.commitId + (if Step(sys.history, term, s.commitId) then |ds| else 0)
            && p.nodes[f].follows == s.follows && At(sys.history, term, p.nodes[f].commitId, p.nodes[f].table)
  {
    var sys := Run(Init(total, ids), evs);
    RunCatchInv(total, ids, evs);
    assert Entries(sys, sys.nodes[f].follows.value, sys.nodes[f].commitId + 1, ds[0].msg);
    TakesIn(total, ids, evs, f, sys.nodes[f].follows.value, ds, |ds|);
    assert ds[..|ds|] == ds;
  }

  /** The entries of a term between two positions of its history. */
  lemma {:induction false} EntriesBetween(sys: System, to: int, term: int, k: int, n: nat) returns (ds: seq<Event>)
    requires StepsSent(sys) && forall i :: k < i <= k + n ==> Step(sys.history, term, i)
    ensures |ds| == n && InOrder(sys, to, term, k, ds)
  {
    ds := [];
    if n > 0 {
      var before := EntriesBetween(sys, to, term, k, n - 1);
      assert Step(sys.history, term, k + n);
      var m :| Entries(sys, term, k + n, m);
      ds := before + [Deliver(to, m)];
    }
  }

  lemma StepsBetween(sys: System, term: int, k: int, top: int)
    requires Unbroken(sys) && term in sys.history && k in sys.history[term] && top in sys.history[term]
    ensures forall i :: k < i <= top ==> Step(sys.history, term, i)
  {
    var lo, hi :| lo >= DEFAULT_DATA && IsRange(sys.history[term].Keys, lo, hi);
    assert k in sys.history[term].Keys && top in sys.history[term].Keys;
    forall i | k < i <= top ensures Step(sys.history, term, i) {
      assert i in sys.history[term].Keys && i - 1 in sys.history[term].Keys;
    }
  }

  /** In order for the entries to be heeded: they come from the leader of the term. */
  lemma FromLeader(sys: System, leader: int, m: Message)
    requires ReplicaInv(sys) && EntriesOfLeaders(sys) && Leads(sys, leader)
    requires m in sys.net && m.AppendEntry? && m.data.term == sys.nodes[leader].term
    ensures m.data.id == leader
  {
    var h :| h in sys.net && h.Heartbeat? && h.data.term == m.data.term && h.data.id == m.data.id;
    var own :| own in sys.net && own.Heartbeat? && own.data.term == sys.nodes[leader].term && own.data.id == leader;
    OneLeader(sys, h, own);
  }

  /**
   Catching up. Take any run, a leader, and a node that follows its term and heeds it. All entries between their two
   positions are in flight, and delivering them in order brings the node to the leader's position with the leader's
   table, if and only if the two stood at the same position or the leader had made an update by the node's position.
   */
  lemma CatchesUpIff(total: nat, ids: set<int>, evs: seq<Event>, leader: int, f: int) returns (ds: seq<Event>)
    requires Configured(total, ids) && NeverAdoptsLowerTerm(Init(total, ids), evs)
    requires Leads(Run(Init(total, ids), evs), leader) && f in Run(Init(total, ids), evs).nodes
    requires var l, s := Run(Init(total, ids), evs).nodes[leader], Run(Init(total, ids), evs).nodes[f];
             s.role == Follower && s.follows == Some(l.term) && s.leaderId in {0, leader} && s.term <= l.term
    ensures var sys := Run(Init(total, ids), evs);
            var l, s, p := sys.nodes[leader], sys.nodes[f], Run(sys, ds);
            && s.commitId <= l.commitId && |ds| == l.commitId - s.commitId && InOrder(sys, f, l.term, s.commitId, ds)
            && leader in p.nodes && p.nodes[leader] == l && f in p.nodes
            && (p.nodes[f].commitId == l.commitId && p.nodes[f].table == l.table <==>
                  s.commitId == l.commitId || Step(sys.history, l.term, s.commitId))
  {
    var sys := Run(Init(total, ids), evs);
    var l, s := sys.nodes[leader], sys.nodes[f];
    ds := EntriesMissed(total, ids, evs, leader, f);
    if ds != [] {
      TakesIn(total, ids, evs, f, l.term, ds, |ds|);
      assert ds[..|ds|] == ds;
      RunRecorded(total, ids, evs);
    } else {
      RunRecorded(total, ids, evs);
    }
  }

  /** The entries that a follower has not taken in yet are in flight, and it heeds them. */
  lemma EntriesMissed(total: nat, ids: set<int>, evs: seq<Event>, leader: int, f: int) returns (ds: seq<Event>)
    requires Configured(total, ids) && NeverAdoptsLowerTerm(Init(total, ids), evs)
    requires Leads(Run(Init(total, ids), evs), leader) && f in Run(Init(total, ids), evs).nodes
    requires var l, s := Run(Init(total, ids), evs).nodes[leader], Run(Init(total, ids), evs).nodes[f];
             s.role == Follower && s.follows == Some(l.term) && s.leaderId in {0, leader} && s.term <= l.term
    ensures var sys := Run(Init(total, ids), evs);
            var l, s := sys.nodes[leader], sys.nodes[f];
            && s.commitId <= l.commitId && |ds| == l.commitId - s.commitId && InOrder(sys, f, l.term, s.commitId, ds)
            && (ds != [] ==> InStep(sys, sys, f, l.term, ds, 0))
  {
    var sys := Run(Init(total, ids), evs);
    var l, s := sys.nodes[leader], sys.nodes[f];
    RunCatchInv(total, ids, evs);
    FollowerNotAhead(total, ids, evs, leader, f);
    StepsBetween(sys, l.term, s.commitId, l.commitId);
    ds := EntriesBetween(sys, f, l.term, s.commitId, l.commitId - s.commitId);
    if ds != [] {
      assert Entries(sys, l.term, s.commitId + 1, ds[0].msg);
      FromLeader(sys, leader, ds[0].msg);
    }
  }

  /**
   Asking for a snapshot. A follower that takes the leader for its own asks, is answered and installs: then it holds the
   leader's table at the leader's position, if and only if neither its term nor its position was ahead of the leader's.
   */
  lemma SnapshotSyncsIff(sys: System, leader: int, f: int)
    requires Leads(sys, leader) && f in sys.nodes && sys.nodes[f].role == Follower && sys.nodes[f].leaderId == leader
    ensures var l, s := sys.nodes[leader], sys.nodes[f];
            var asked := Next(sys, AskSnapshot(f));
            var sent := Next(asked, Deliver(leader, SnapshotRequest(f, leader)));
            var p := Next(sent, Deliver(f, SnapshotReply(MarkOf(leader, l), f, l.table)));
            && p.nodes.Keys == sys.nodes.Keys && p.nodes[leader] == l
            && if s.term <= l.term && s.commitId <= l.commitId then
                 && p.nodes[f].table == l.table && p.nodes[f].commitId == l.commitId && p.nodes[f].term == l.term
                 && p.nodes[f].follows == Some(l.term) && !p.nodes[f].freshman && p.nodes[f].leaderId == leader
               else p.nodes[f] == s
  {
    var l := sys.nodes[leader];
    var asked := Next(sys, AskSnapshot(f));
    assert asked.nodes == sys.nodes && SnapshotRequest(f, leader) in asked.net;
    var sent := Next(asked, Deliver(leader, SnapshotRequest(f, leader)));
    SnapshotSentIff(asked.total, l, leader, f, leader);
    assert sent.nodes == sys.nodes && SnapshotReply(MarkOf(leader, l), f, l.table) in sent.net;
    SnapshotInstalledIff(sent.total, sys.nodes[f], f, MarkOf(leader, l), f, l.table);
  }
}
