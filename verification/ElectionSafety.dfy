/** Votes, quorums and log positions: what holds in every run of the system. */
module ElectionSafety {
  import opened Common
  import opened WorkerTypes
  import opened ElectionModel

  // What one handler can do

  /** Positions never fall, and the last log index stays the commit position. */
  lemma EffectOnPosition(total: nat, s: Node, ev: Event)
    requires s.prevLogIndex == s.commitId
    ensures OnEvent(total, s, ev).node.commitId >= s.commitId
    ensures OnEvent(total, s, ev).node.prevLogIndex == OnEvent(total, s, ev).node.commitId
  {}

  /** The messages and votes a handler produces speak for the state it leaves behind. */
  lemma EffectOnVotes(total: nat, s: Node, ev: Event)
    requires Ready(s, ev)
    ensures var e := OnEvent(total, s, ev); var id := Where(ev);
            && (forall m :: m in e.sends && (m.RequestVote? || m.Heartbeat?) ==> m.data == MarkOf(id, e.node))
            && (forall m :: m in e.sends && m.Heartbeat? ==> e.node.role == Leader)
            && (forall m :: m in e.sends && m.ResponseVote? && m.voteGranted ==>
                  m == ResponseVote(true, e.node.term, e.node.lastVoteFor, e.node.lastVoteTerm, id)
                  && e.node.lastVoteTerm == e.node.term && e.node.lastVoteFor == ev.msg.data.id)
  {}

  /** A vote is new exactly when the handler casts it; otherwise an earlier vote is kept or forgotten. */
  lemma EffectOnGrant(total: nat, s: Node, ev: Event)
    ensures var e := OnEvent(total, s, ev); var id := Where(ev);
            match e.grant
            case None => e.node.lastVoteTerm == s.lastVoteTerm && e.node.lastVoteFor in {s.lastVoteFor, DEFAULT_DATA}
                         && (e.node.lastVoteFor == s.lastVoteFor || e.node.term == s.term + 1)
            case Some(g) =>
              && ev.Deliver? && ev.msg.RequestVote?
              && g == Grant(id, e.node.term, e.node.lastVoteFor)
              && g.candidate == ev.msg.data.id && g.term == ev.msg.data.term >= s.term
              && e.node.lastVoteTerm == e.node.term
              && !(s.lastVoteFor != DEFAULT_DATA && s.lastVoteTerm == g.term)
              && !Outranks(s, ev.msg.data)
              && e.node.commitId == s.commitId
  {}

  /** Voters and role move together. */
  lemma EffectOnRole(total: nat, s: Node, ev: Event)
    ensures var e := OnEvent(total, s, ev);
            match e.node.role
            case Follower => true
            case Candidate => (e.node.voters == {} && e.node.voteNum == 0) || (s.role == Candidate && e.node.term == s.term)
            case Leader =>
              e.node.term == s.term &&
              (s.role == Candidate || (s.role == Leader && e.node.voters == s.voters && e.node.voteNum == s.voteNum))
    ensures var e := OnEvent(total, s, ev); var id := Where(ev);
            e.node.role != Follower ==>
              (e.node.voters == s.voters && e.node.voteNum == s.voteNum) ||
              (e.node.voters == {} && e.node.voteNum == 0) ||
              (ev.Deliver? && ev.msg.ResponseVote? && ev.msg.voteGranted && ev.msg.id == id &&
               ev.msg.voteForTerm == e.node.term && ev.msg.voter !in s.voters &&
               e.node.voters == s.voters + {ev.msg.voter} && e.node.voteNum == s.voteNum + 1)
    ensures OnEvent(total, s, ev).node.role == Leader ==> s.role == Leader || OnEvent(total, s, ev).node.voteNum > total / 2
  {}

  /** Within a term a vote is kept, and nobody becomes a candidate again. */
  lemma EffectKeepsVote(total: nat, s: Node, ev: Event)
    ensures var e := OnEvent(total, s, ev);
            e.node.term == s.term && e.grant == None ==>
              e.node.lastVoteFor == s.lastVoteFor && e.node.lastVoteTerm == s.lastVoteTerm
    ensures var e := OnEvent(total, s, ev);
            e.node.role == Candidate && s.role != Candidate ==> e.node.term == s.term + 1
  {}

  /** Only a candidate that adopts an older heartbeat lowers its term. */
  lemma EffectOnTerm(total: nat, s: Node, ev: Event)
    ensures OnEvent(total, s, ev).node.term < s.term <==>
            ev.Deliver? && ev.msg.Heartbeat? && s.role == Candidate && ev.msg.data.term < s.term && !Outranks(s, ev.msg.data)
  {}

  // Invariants of every run

  ghost predicate Shape(sys: System) {
    |sys.nodes.Keys| <= sys.total && forall i :: i in sys.nodes ==> i >= 0
  }

  /** On every node the last log index is the commit position. */
  ghost predicate Positions(sys: System) {
    forall i :: i in sys.nodes ==> sys.nodes[i].prevLogIndex == sys.nodes[i].commitId >= DEFAULT_DATA
  }

  /** A published vote request or heartbeat never claims a position beyond its sender's. */
  ghost predicate Marks(sys: System) {
    forall m :: m in sys.net && (m.RequestVote? || m.Heartbeat?) ==>
      m.data.id in sys.nodes && DEFAULT_DATA <= m.data.prevLogIndex == m.data.commitId <= sys.nodes[m.data.id].commitId
  }

  /** Votes that a node remembers, or that a message claims, were really cast. */
  ghost predicate Genuine(sys: System) {
    && (forall i :: i in sys.nodes && sys.nodes[i].lastVoteFor != DEFAULT_DATA ==>
          Grant(i, sys.nodes[i].lastVoteTerm, sys.nodes[i].lastVoteFor) in sys.firstGrant)
    && (forall m :: m in sys.net && m.ResponseVote? && m.voteGranted ==>
          m.term == m.voteForTerm && Grant(m.voter, m.voteForTerm, m.id) in sys.firstGrant)
  }

  /** A grant was made by a node, for a node, which is now at least as far as the voter was then. */
  ghost predicate NotBehind(sys: System) {
    forall g :: g in sys.firstGrant ==>
      g.voter in sys.nodes && g.candidate in sys.nodes &&
      sys.firstGrant[g] <= sys.nodes[g.candidate].commitId
  }

  /** Candidates and leaders count distinct genuine grants for their own term. */
  ghost predicate Backed(sys: System) {
    forall i :: i in sys.nodes && sys.nodes[i].role != Follower ==>
      var n := sys.nodes[i];
      && n.voteNum == |n.voters|
      && (forall v :: v in n.voters ==> Grant(v, n.term, i) in sys.firstGrant)
      && (n.role == Leader ==> n.voteNum > sys.total / 2)
  }

  ghost predicate Inv(sys: System) {
    Shape(sys) && Positions(sys) && Marks(sys) && Genuine(sys) && NotBehind(sys) && Backed(sys)
  }

  lemma InitInv(total: nat, ids: set<int>)
    requires Configured(total, ids)
    ensures Inv(Init(total, ids))
  {
    assert Init(total, ids).nodes.Keys == ids;
  }

  lemma NextPositions(sys: System, ev: Event)
    requires Positions(sys) && Marks(sys) && Enabled(sys, ev)
    ensures Positions(Next(sys, ev)) && Marks(Next(sys, ev))
    ensures forall i :: i in sys.nodes ==> sys.nodes[i].commitId <= Next(sys, ev).nodes[i].commitId
  {
    EffectOnPosition(sys.total, sys.nodes[Where(ev)], ev);
    EffectOnVotes(sys.total, sys.nodes[Where(ev)], ev);
  }

  lemma NextGenuine(sys: System, ev: Event)
    requires Genuine(sys) && Enabled(sys, ev)
    ensures Genuine(Next(sys, ev))
  {
    var id, s := Where(ev), sys.nodes[Where(ev)];
    var e := OnEvent(sys.total, s, ev);
    EffectOnGrant(sys.total, s, ev);
    EffectOnVotes(sys.total, s, ev);
    forall m | m in e.sends && m.ResponseVote? && m.voteGranted
      ensures Grant(m.voter, m.voteForTerm, m.id) in Next(sys, ev).firstGrant
    {
      if e.grant == None {
        assert e.node.lastVoteFor == s.lastVoteFor;
      }
    }
  }

  lemma NextNotBehind(sys: System, ev: Event)
    requires Positions(sys) && Marks(sys) && NotBehind(sys) && Enabled(sys, ev)
    ensures NotBehind(Next(sys, ev))
  {
    var s := sys.nodes[Where(ev)];
    var e := OnEvent(sys.total, s, ev);
    EffectOnPosition(sys.total, s, ev);
    EffectOnGrant(sys.total, s, ev);
    if e.grant.Some? {
      assert s.commitId <= ev.msg.data.commitId <= sys.nodes[e.grant.value.candidate].commitId;
    }
  }

  lemma NextBacked(sys: System, ev: Event)
    requires Genuine(sys) && Backed(sys) && Enabled(sys, ev)
    ensures Backed(Next(sys, ev))
  {
    EffectOnRole(sys.total, sys.nodes[Where(ev)], ev);
  }

  lemma NextInv(sys: System, ev: Event)
    requires Inv(sys)
    ensures Inv(Next(sys, ev))
  {
    if Enabled(sys, ev) {
      assert Next(sys, ev).nodes.Keys == sys.nodes.Keys;
      NextPositions(sys, ev);
      NextGenuine(sys, ev);
      NextNotBehind(sys, ev);
      NextBacked(sys, ev);
    }
  }

  lemma {:induction false} RunInv(total: nat, ids: set<int>, evs: seq<Event>)
    requires Configured(total, ids)
    ensures Inv(Run(Init(total, ids), evs))
    ensures Run(Init(total, ids), evs).nodes.Keys == ids && Run(Init(total, ids), evs).total == total
    decreases |evs|
  {
    if evs == [] {
      InitInv(total, ids);
    } else {
      RunInv(total, ids, evs[..|evs| - 1]);
      NextInv(Run(Init(total, ids), evs[..|evs| - 1]), evs[|evs| - 1]);
    }
  }

  /**
   In every run, whatever terms candidates adopt: a leader is backed by more than half of the configured
   nodes, each of which granted it this very term, and it is at least as far as each of them was then.
   */
  lemma LeaderNeverBehindItsVoters(total: nat, ids: set<int>, evs: seq<Event>, leader: int)
    requires Configured(total, ids) && leader in Run(Init(total, ids), evs).nodes
    requires Run(Init(total, ids), evs).nodes[leader].role == Leader
    ensures var sys := Run(Init(total, ids), evs); var n := sys.nodes[leader];
            && n.voters <= ids && |n.voters| > total / 2
            && forall v :: v in n.voters ==>
                 Grant(v, n.term, leader) in sys.firstGrant && sys.firstGrant[Grant(v, n.term, leader)] <= n.commitId
  {
    RunInv(total, ids, evs);
    var sys := Run(Init(total, ids), evs);
    var n := sys.nodes[leader];
    forall v | v in n.voters ensures v in ids {
      assert Grant(v, n.term, leader) in sys.firstGrant;
    }
  }

  // Runs in which no candidate adopts a lower term

  /** A voter is at or past the term of each of its grants, and remembers a grant for its own term. */
  ghost predicate GrantTerms(sys: System) {
    forall g :: g in sys.firstGrant ==>
      g.voter in sys.nodes && var v := sys.nodes[g.voter];
      g.term <= v.term && (g.term == v.term ==> v.lastVoteFor == g.candidate && v.lastVoteTerm == g.term)
  }

  /** Whoever led a term is never again a candidate in it. */
  ghost predicate LeaderTerms(sys: System) {
    forall m :: m in sys.net && m.Heartbeat? ==>
      m.data.id in sys.nodes && var n := sys.nodes[m.data.id];
      m.data.term <= n.term && (m.data.term == n.term ==> n.role != Candidate)
  }

  ghost predicate Terms(sys: System) {
    GrantTerms(sys) && LeaderTerms(sys)
  }

  /** No node grants two different candidates in one term. */
  ghost predicate OneVotePerTerm(sys: System) {
    forall g, h :: g in sys.firstGrant && h in sys.firstGrant && g.voter == h.voter && g.term == h.term ==>
      g.candidate == h.candidate
  }

  ghost function VotersOf(sys: System, term: int, candidate: int): set<int> {
    set v | v in sys.nodes && Grant(v, term, candidate) in sys.firstGrant
  }

  /** Every heartbeat comes from a node that more than half of the configured nodes granted its term. */
  ghost predicate Elected(sys: System) {
    forall m :: m in sys.net && m.Heartbeat? ==> |VotersOf(sys, m.data.term, m.data.id)| > sys.total / 2
  }

  ghost predicate SafeInv(sys: System)
  {
    Inv(sys) && Terms(sys) && OneVotePerTerm(sys) && Elected(sys)
  }

  lemma NextGrantTerms(sys: System, ev: Event)
    requires Shape(sys) && Marks(sys) && NotBehind(sys) && GrantTerms(sys)
    requires Enabled(sys, ev) && !AdoptsLowerTerm(sys, ev)
    ensures GrantTerms(Next(sys, ev))
  {
    var s := sys.nodes[Where(ev)];
    EffectOnTerm(sys.total, s, ev);
    EffectOnGrant(sys.total, s, ev);
    EffectKeepsVote(sys.total, s, ev);
  }

  lemma NextLeaderTerms(sys: System, ev: Event)
    requires LeaderTerms(sys) && Enabled(sys, ev) && !AdoptsLowerTerm(sys, ev)
    ensures LeaderTerms(Next(sys, ev))
  {
    var s := sys.nodes[Where(ev)];
    EffectOnTerm(sys.total, s, ev);
    EffectOnVotes(sys.total, s, ev);
    EffectOnRole(sys.total, s, ev);
    EffectKeepsVote(sys.total, s, ev);
  }

  lemma NextOneVote(sys: System, ev: Event)
    requires Inv(sys) && Terms(sys) && OneVotePerTerm(sys) && Enabled(sys, ev)
    ensures OneVotePerTerm(Next(sys, ev))
  {
    var s := sys.nodes[Where(ev)];
    EffectOnGrant(sys.total, s, ev);
    var e := OnEvent(sys.total, s, ev);
    if e.grant.Some? {
      forall h | h in sys.firstGrant && h.voter == Where(ev) ensures h.term != e.grant.value.term {
        assert h.term <= s.term;
      }
    }
  }

  lemma NextElected(sys: System, ev: Event)
    requires Inv(sys) && Elected(sys) && Enabled(sys, ev)
    ensures Elected(Next(sys, ev))
  {
    var sys' := Next(sys, ev);
    NextInv(sys, ev);
    EffectOnVotes(sys.total, sys.nodes[Where(ev)], ev);
    forall m | m in sys'.net && m.Heartbeat?
      ensures |VotersOf(sys', m.data.term, m.data.id)| > sys.total / 2
    {
      if m in sys.net {
        SubsetSize(VotersOf(sys, m.data.term, m.data.id), VotersOf(sys', m.data.term, m.data.id));
      } else {
        var n := sys'.nodes[m.data.id];
        forall v | v in n.voters ensures v in VotersOf(sys', m.data.term, m.data.id) {
          assert Grant(v, n.term, m.data.id) in sys'.firstGrant;
        }
        SubsetSize(n.voters, VotersOf(sys', m.data.term, m.data.id));
      }
    }
  }

  lemma NextSafe(sys: System, ev: Event)
    requires SafeInv(sys) && !AdoptsLowerTerm(sys, ev)
    ensures SafeInv(Next(sys, ev))
  {
    if Enabled(sys, ev) {
      NextInv(sys, ev);
      NextGrantTerms(sys, ev);
      NextLeaderTerms(sys, ev);
      NextOneVote(sys, ev);
      NextElected(sys, ev);
    }
  }

  lemma {:induction false} RunSafe(total: nat, ids: set<int>, evs: seq<Event>)
    requires Configured(total, ids) && NeverAdoptsLowerTerm(Init(total, ids), evs)
    ensures SafeInv(Run(Init(total, ids), evs))
    decreases |evs|
  {
    if evs == [] {
      InitInv(total, ids);
    } else {
      var prefix := evs[..|evs| - 1];
      forall i | 0 <= i < |prefix| ensures prefix[..i] == evs[..i] {}
      RunSafe(total, ids, prefix);
      NextSafe(Run(Init(total, ids), prefix), evs[|evs| - 1]);
    }
  }

  /** Two leaders, at whatever moments of one run, never share a term, and no node votes twice in a term. */
  lemma ElectionSafety(total: nat, ids: set<int>, evs: seq<Event>, m1: Message, m2: Message)
    requires Configured(total, ids) && NeverAdoptsLowerTerm(Init(total, ids), evs)
    requires m1 in Run(Init(total, ids), evs).net && m2 in Run(Init(total, ids), evs).net
    ensures m1.Heartbeat? && m2.Heartbeat? && m1.data.term == m2.data.term ==> m1.data.id == m2.data.id
    ensures (m1.ResponseVote? && m2.ResponseVote? && m1.voteGranted && m2.voteGranted &&
             m1.voter == m2.voter && m1.voteForTerm == m2.voteForTerm) ==> m1.id == m2.id
  {
    var sys := Run(Init(total, ids), evs);
    RunInv(total, ids, evs);
    RunSafe(total, ids, evs);
    if m1.Heartbeat? && m2.Heartbeat? && m1.data.term == m2.data.term {
      var t := m1.data.term;
      var v := QuorumsMeet(ids, VotersOf(sys, t, m1.data.id), VotersOf(sys, t, m2.data.id), total);
      assert Grant(v, t, m1.data.id) in sys.firstGrant && Grant(v, t, m2.data.id) in sys.firstGrant;
    }
  }

  /** The condition of these runs is exact, step by step: no other step lowers a term. */
  lemma OnlyAdoptionLowersATerm(sys: System, ev: Event)
    ensures (exists i :: i in sys.nodes && Next(sys, ev).nodes[i].term < sys.nodes[i].term) <==> AdoptsLowerTerm(sys, ev)
  {
    if Enabled(sys, ev) {
      EffectOnTerm(sys.total, sys.nodes[Where(ev)], ev);
    }
  }
}
