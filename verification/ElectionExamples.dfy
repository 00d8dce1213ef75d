/** Runs that show why the hypotheses of the safety results are needed. */
module ElectionExamples {
  import opened Common
  import opened WorkerTypes
  import opened ElectionModel

  /** A mark of term 0 before anything was committed. */
  function FirstMark(id: int): Mark {
    Mark(id, 0, DEFAULT_DATA, DEFAULT_DATA, DEFAULT_DATA)
  }

  function Vote(candidate: int, voter: int): Message {
    ResponseVote(true, 0, candidate, 0, voter)
  }

  const START := Init(3, {1, 2, 3})

  const ASKING_1 := INIT_NODE.(role := Candidate, term := 0)
  const RUNNING_1 := ASKING_1.(lastVoteTerm := 0, lastVoteFor := 1)
  const VOTER_2 := INIT_NODE.(term := 0, lastVoteTerm := 0, lastVoteFor := 1)
  const ELECTED_1 := INIT_NODE.(role := Leader, term := 0, lastVoteTerm := 0, lastVoteFor := 1,
                              voteNum := 2, voters := {1, 2}, freshman := false)

  ghost predicate Nodes(sys: System, n1: Node, n2: Node) {
    sys.total == 3 && sys.nodes.Keys == {1, 2, 3} && sys.nodes[1] == n1 && sys.nodes[2] == n2
  }

  /** One more event of a run from the start. */
  lemma Do(evs: seq<Event>, sys: System, ev: Event) returns (evs': seq<Event>, sys': System)
    requires sys == Run(START, evs)
    ensures evs' == evs + [ev] && sys' == Next(sys, ev) && sys' == Run(START, evs')
  {
    evs', sys' := evs + [ev], Next(sys, ev);
    assert evs'[..|evs|] == evs;
  }

  lemma NodeOneAsks() returns (evs: seq<Event>, sys: System)
    ensures |evs| == 3 && sys == Run(START, evs) && Nodes(sys, RUNNING_1, VOTER_2) && sys.nodes[3] == INIT_NODE
    ensures Vote(1, 1) in sys.net && Vote(1, 2) in sys.net
  {
    evs, sys := [], START;
    evs, sys := Do(evs, sys, ElectTimeout(1));
    assert Nodes(sys, ASKING_1, INIT_NODE) && RequestVote(FirstMark(1)) in sys.net;
    evs, sys := Do(evs, sys, Deliver(1, RequestVote(FirstMark(1))));
    assert Nodes(sys, RUNNING_1, INIT_NODE);
    evs, sys := Do(evs, sys, Deliver(2, RequestVote(FirstMark(1))));
  }

  /** Node 1 is elected in term 0 with its own vote and the vote of node 2. */
  lemma NodeOneLeads() returns (evs: seq<Event>, sys: System)
    ensures |evs| == 5 && sys == Run(START, evs) && Nodes(sys, ELECTED_1, VOTER_2) && sys.nodes[3] == INIT_NODE
    ensures Heartbeat(FirstMark(1)) in sys.net && Vote(1, 2) in sys.net
  {
    evs, sys := NodeOneAsks();
    evs, sys := Do(evs, sys, Deliver(1, Vote(1, 1)));
    assert Nodes(sys, RUNNING_1.(voters := {1}, voteNum := 1), VOTER_2);
    evs, sys := Do(evs, sys, Deliver(1, Vote(1, 2)));
  }

  // Two leaders in one term

  /** Node 2 becomes a candidate for term 1, then takes up the term-0 heartbeat of node 1. */
  lemma NodeTwoAdopts() returns (evs: seq<Event>, sys: System)
    ensures |evs| == 7 && sys == Run(START, evs) && AdoptsLowerTerm(Run(START, evs[..6]), evs[6])
    ensures Nodes(sys, ELECTED_1, INIT_NODE.(term := 0, lastVoteTerm := 0)) && sys.nodes[3] == INIT_NODE
    ensures Heartbeat(FirstMark(1)) in sys.net && Vote(1, 2) in sys.net
  {
    evs, sys := NodeOneLeads();
    evs, sys := Do(evs, sys, ElectTimeout(2));
    var evs6, sys6 := evs, sys;
    assert Nodes(sys, ELECTED_1, INIT_NODE.(role := Candidate, term := 1, lastVoteTerm := 0));
    evs, sys := Do(evs6, sys6, Deliver(2, Heartbeat(FirstMark(1))));
    assert evs[..6] == evs6;
  }

  const ASKING_3 := INIT_NODE.(role := Candidate, term := 0, lastVoteTerm := 0, lastVoteFor := 3)

  /** Node 3 gets its own vote for term 0 and that of node 2, which voted for node 1 before. */
  lemma NodeThreeAsks() returns (evs: seq<Event>, sys: System)
    ensures |evs| == 10 && sys == Run(START, evs) && AdoptsLowerTerm(Run(START, evs[..6]), evs[6])
    ensures sys.total == 3 && sys.nodes.Keys == {1, 2, 3} && sys.nodes[3] == ASKING_3
    ensures Heartbeat(FirstMark(1)) in sys.net && Vote(1, 2) in sys.net && Vote(3, 3) in sys.net && Vote(3, 2) in sys.net
  {
    var evs7, sys7 := NodeTwoAdopts();
    var evs8, sys8 := Do(evs7, sys7, ElectTimeout(3));
    assert RequestVote(FirstMark(3)) in sys8.net && sys8.nodes[2] == sys7.nodes[2];
    var evs9, sys9 := Do(evs8, sys8, Deliver(3, RequestVote(FirstMark(3))));
    assert sys9.nodes[2] == sys7.nodes[2] && Vote(3, 3) in sys9.net && sys9.nodes[3] == ASKING_3;
    evs, sys := Do(evs9, sys9, Deliver(2, RequestVote(FirstMark(3))));
    assert evs[..6] == evs7[..6] && evs[6] == evs7[6];
  }

  /**
   Without the hypothesis election safety fails: after twelve events, the seventh of which is the adoption, nodes 1 and 3
   have both led term 0, and node 2 has granted both.
   */
  lemma TwoLeadersInOneTerm() returns (evs: seq<Event>)
    ensures Configured(3, {1, 2, 3}) && |evs| == 12
    ensures AdoptsLowerTerm(Run(START, evs[..6]), evs[6])
    ensures var net := Run(START, evs).net;
            && Heartbeat(FirstMark(1)) in net && Heartbeat(FirstMark(3)) in net
            && Vote(1, 2) in net && Vote(3, 2) in net
  {
    var evs10, sys10 := NodeThreeAsks();
    var evs11, sys11 := Do(evs10, sys10, Deliver(3, Vote(3, 3)));
    assert sys11.net == sys10.net && sys11.nodes[3] == ASKING_3.(voters := {3}, voteNum := 1);
    var sys;
    evs, sys := Do(evs11, sys11, Deliver(3, Vote(3, 2)));
    assert evs[..6] == evs10[..6] && evs[6] == evs10[6];
  }

  // A freshman ex-leader

  const NO_INFO := Info(None, Capacity([], [], None, []))
  const IDLE := WorkerQuit(7)
  const JOIN := WorkerJoin(Webrtc, 7, NO_INFO)

  /** The mark of node 2 in term 1, at position `k`, with the log of term 0 behind it. */
  function NextMark(k: int): Mark {
    Mark(2, 1, k, 0, 0)
  }

  const COMMITTED_1 := ELECTED_1.(commitId := 0, prevLogIndex := 0, prevLogTerm := 0)
  const SYNCED_2 := VOTER_2.(leaderId := 1, commitId := 0, prevLogIndex := 0, prevLogTerm := 0,
                           freshman := false, follows := Some(0))
  const RUNNING_2 := SYNCED_2.(role := Candidate, leaderId := 0, term := 1, lastVoteTerm := 1, lastVoteFor := 2)

  const ELECTED_2 := RUNNING_2.(role := Leader, voteNum := 2, voters := {2, 3}, follows := None)

  const FORMER_1 := COMMITTED_1.(role := Follower, term := 1, freshman := true)

  const ASKING_2 := RUNNING_2.(lastVoteTerm := 0, lastVoteFor := DEFAULT_DATA)

  lemma NodeOneCommits() returns (evs: seq<Event>, sys: System)
    ensures sys == Run(START, evs) && Nodes(sys, COMMITTED_1, VOTER_2) && sys.nodes[3] == INIT_NODE
    ensures Heartbeat(FirstMark(1)) in sys.net
  {
    evs, sys := NodeOneLeads();
    evs, sys := Do(evs, sys, Update(1, IDLE));
  }

  lemma NodeTwoSyncs() returns (evs: seq<Event>, sys: System)
    ensures sys == Run(START, evs) && Nodes(sys, COMMITTED_1, SYNCED_2) && sys.nodes[3] == INIT_NODE
  {
    evs, sys := NodeOneCommits();
    evs, sys := Do(evs, sys, Deliver(2, Heartbeat(FirstMark(1))));
    evs, sys := Do(evs, sys, AskSnapshot(2));
    assert Nodes(sys, COMMITTED_1, VOTER_2.(leaderId := 1)) && SnapshotRequest(2, 1) in sys.net;
    evs, sys := Do(evs, sys, Deliver(1, SnapshotRequest(2, 1)));
    assert SnapshotReply(Mark(1, 0, 0, 0, 0), 2, map[]) in sys.net;
    evs, sys := Do(evs, sys, Deliver(2, SnapshotReply(Mark(1, 0, 0, 0, 0), 2, map[])));
  }

  lemma NodeTwoAsks() returns (evs: seq<Event>, sys: System)
    ensures sys == Run(START, evs) && Nodes(sys, COMMITTED_1, RUNNING_2)
    ensures ResponseVote(true, 1, 2, 1, 2) in sys.net && ResponseVote(true, 1, 2, 1, 3) in sys.net
  {
    evs, sys := NodeTwoSyncs();
    evs, sys := Do(evs, sys, ElectTimeout(2));
    assert Nodes(sys, COMMITTED_1, ASKING_2) && RequestVote(NextMark(0)) in sys.net;
    evs, sys := Do(evs, sys, Deliver(2, RequestVote(NextMark(0))));
    assert Nodes(sys, COMMITTED_1, RUNNING_2);
    evs, sys := Do(evs, sys, Deliver(3, RequestVote(NextMark(0))));
  }

  lemma NodeTwoLeads() returns (evs: seq<Event>, sys: System)
    ensures sys == Run(START, evs) && Nodes(sys, FORMER_1, ELECTED_2)
  {
    evs, sys := NodeTwoAsks();
    evs, sys := Do(evs, sys, Deliver(2, ResponseVote(true, 1, 2, 1, 2)));
    assert Nodes(sys, COMMITTED_1, RUNNING_2.(voteNum := 1, voters := {2}));
    evs, sys := Do(evs, sys, Deliver(2, ResponseVote(true, 1, 2, 1, 3)));
    assert Nodes(sys, COMMITTED_1, ELECTED_2) && Heartbeat(NextMark(0)) in sys.net;
    evs, sys := Do(evs, sys, Deliver(1, Heartbeat(NextMark(0))));
  }

  /**
   A position alone does not determine a table. Node 1 leads term 0 and commits once; node 2 installs its
   snapshot, is elected in term 1 and commits a join. Node 1, which stepped down, accepts that entry and
   stands at the same log position of the same term, but does not know the worker.
   */
  lemma ExLeaderSkipsUpdates() returns (evs: seq<Event>)
    ensures var sys := Run(START, evs);
            && Configured(3, {1, 2, 3}) && 1 in sys.nodes && 2 in sys.nodes
            && var f, l := sys.nodes[1], sys.nodes[2];
            && l.role == Leader && f.role == Follower && f.leaderId == 2 && f.term == l.term
            && f.commitId == l.commitId && f.prevLogTerm == l.prevLogTerm
            && 7 in l.table && 7 !in f.table
  {
    var sys;
    evs, sys := NodeTwoLeads();
    evs, sys := Do(evs, sys, Update(2, JOIN));
    assert Nodes(
        sys, FORMER_1, ELECTED_2.(commitId := 1, prevLogIndex := 1, prevLogTerm := 1, table := Replay(map[], JOIN)));
    assert AppendEntry(NextMark(1), JOIN) in sys.net;
    evs, sys := Do(evs, sys, Deliver(1, AppendEntry(NextMark(1), JOIN)));
  }

  // A snapshot taken too early

  const EARLY_2 := VOTER_2.(leaderId := 1, prevLogTerm := 0, freshman := false, follows := Some(0))

  /** Node 2 installs the snapshot of node 1, which has not made an update yet. */
  lemma NodeTwoSyncsEarly() returns (evs: seq<Event>, sys: System)
    ensures sys == Run(START, evs) && Nodes(sys, ELECTED_1, EARLY_2)
  {
    evs, sys := NodeOneLeads();
    evs, sys := Do(evs, sys, Deliver(2, Heartbeat(FirstMark(1))));
    evs, sys := Do(evs, sys, AskSnapshot(2));
    assert Nodes(sys, ELECTED_1, VOTER_2.(leaderId := 1)) && SnapshotRequest(2, 1) in sys.net;
    evs, sys := Do(evs, sys, Deliver(1, SnapshotRequest(2, 1)));
    assert SnapshotReply(FirstMark(1), 2, map[]) in sys.net;
    evs, sys := Do(evs, sys, Deliver(2, SnapshotReply(FirstMark(1), 2, map[])));
  }

  /**
   A follower that holds its leader's snapshot refuses the leader's first entry, though it comes right after it: the
   snapshot has set its log term to the leader's, while the entry names the log term the leader was elected with.
   */
  lemma FirstEntryRefused() returns (evs: seq<Event>, d: Mark)
    ensures var sys := Run(START, evs);
            && 1 in sys.nodes && 2 in sys.nodes && AppendEntry(d, JOIN) in sys.net
            && var l, f := sys.nodes[1], sys.nodes[2];
            && l.role == Leader && f.role == Follower && f.follows == Some(l.term) && f.leaderId == 1 && f.term == l.term
            && d.prevLogIndex == f.commitId == l.commitId - 1 && 7 in l.table
            && Next(sys, Deliver(2, AppendEntry(d, JOIN))).nodes[2] == f && 7 !in f.table
  {
    var sys;
    evs, sys := NodeTwoSyncsEarly();
    evs, sys := Do(evs, sys, Update(1, JOIN));
    d := Mark(1, 0, 0, DEFAULT_DATA, DEFAULT_DATA);
    assert Nodes(
        sys, ELECTED_1.(commitId := 0, prevLogIndex := 0, prevLogTerm := 0, table := Replay(map[], JOIN)), EARLY_2);
  }
}
