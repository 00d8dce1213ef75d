/** What makes a node vote, lead or follow, exactly, and that a majority elects. */
module ElectionProgress {
  import opened Common
  import opened WorkerTypes
  import opened ElectionModel
  import opened ElectionSafety

  // Exact conditions of one handler

  /** A node refuses a sender exactly if it has a log, stands elsewhere, and is at a newer log term or further on. */
  lemma OutranksIff(s: Node, d: Mark)
    requires s.prevLogIndex == s.commitId && d.prevLogIndex == d.commitId
    ensures Outranks(s, d) <==>
              s.commitId != DEFAULT_DATA && s.commitId != d.commitId &&
              (s.prevLogTerm > d.prevLogTerm || s.commitId > d.commitId)
  {}

  /** The node is free to vote for the sender in the sender's term. */
  predicate MayGrant(s: Node, d: Mark) {
    && s.role != Leader && s.term <= d.term
    && (s.role == Follower ==> s.leaderId in {0, d.id})
    && !(s.lastVoteFor != DEFAULT_DATA && s.lastVoteTerm == d.term)
    && !(s.commitId != DEFAULT_DATA && s.commitId != d.commitId &&
         (s.prevLogTerm > d.prevLogTerm || s.commitId > d.commitId))
  }

  /** The vote that the node remembers is for the sender in the sender's term. */
  predicate HasGranted(s: Node, d: Mark) {
    && s.role != Leader && s.term <= d.term
    && (s.role == Follower ==> s.leaderId in {0, d.id})
    && s.lastVoteFor == d.id != DEFAULT_DATA && s.lastVoteTerm == d.term
  }

  /** A request is granted exactly by a node that is free to, or repeats its vote; the vote is sent and remembered. */
  lemma GrantedIff(total: nat, s: Node, id: int, d: Mark)
    requires s.prevLogIndex == s.commitId && d.prevLogIndex == d.commitId
    ensures var e := OnEvent(total, s, Deliver(id, RequestVote(d)));
            && e.grant == (if MayGrant(s, d) then Some(Grant(id, d.term, d.id)) else None)
            && ((exists m :: m in e.sends && m.ResponseVote? && m.voteGranted) <==> MayGrant(s, d) || HasGranted(s, d))
            && (MayGrant(s, d) || HasGranted(s, d) ==>
                  && e.sends == {ResponseVote(true, d.term, d.id, d.term, id)}
                  && e.node.lastVoteFor == d.id && e.node.lastVoteTerm == d.term == e.node.term
                  && (e.node.role == s.role || (s.term < d.term && e.node.role == Follower)))
  {
    OutranksIff(s, d);
    var e := OnEvent(total, s, Deliver(id, RequestVote(d)));
    if MayGrant(s, d) || HasGranted(s, d) {
      assert ResponseVote(true, d.term, d.id, d.term, id) in e.sends;
    }
  }

  /** A vote that counts: for the candidate, for its term, from a node it has not counted yet. */
  predicate Counts(s: Node, id: int, m: Message) {
    m.ResponseVote? && m.voteGranted && m.id == id && m.voteForTerm == s.term && m.term <= s.term && m.voter !in s.voters
  }

  /** A node becomes leader exactly if it is a candidate and a vote that counts lifts its votes above half of all nodes. */
  lemma LeadsIff(total: nat, s: Node, ev: Event)
    requires Ready(s, ev) && s.role != Leader
    ensures var e := OnEvent(total, s, ev);
            && (e.node.role == Leader <==>
                  s.role == Candidate && ev.Deliver? && Counts(s, Where(ev), ev.msg) && 2 * (s.voteNum + 1) > total)
            && (e.node.role == Leader ==>
                  && e.sends == {Heartbeat(MarkOf(Where(ev), e.node))} && e.node.term == s.term
                  && e.node.leaderId == 0 && !e.node.freshman)
  {}

  /** A candidate gives up exactly for a newer term, or for a heartbeat of a node that it does not outrank. */
  lemma GivesUpIff(total: nat, s: Node, ev: Event)
    requires Ready(s, ev) && s.role == Candidate && s.prevLogIndex == s.commitId
    requires ev.Deliver? && (ev.msg.RequestVote? || ev.msg.Heartbeat?) ==> ev.msg.data.prevLogIndex == ev.msg.data.commitId
    ensures var n := OnEvent(total, s, ev).node;
            && (n.role == Follower <==>
                  ev.Deliver? &&
                  match ev.msg
                  case Heartbeat(d) =>
                    !(s.commitId != DEFAULT_DATA && s.commitId != d.commitId &&
                      (s.prevLogTerm > d.prevLogTerm || s.commitId > d.commitId))
                  case RequestVote(d) => d.term > s.term
                  case ResponseVote(_, term, id, voteForTerm, _) => term > s.term && id == ev.to && voteForTerm == s.term
                  case _ => false)
            && (n.role == Follower ==>
                  n.leaderId == 0 && n.term == if ev.msg.ResponseVote? then ev.msg.term else ev.msg.data.term)
  {
    if ev.Deliver? && (ev.msg.RequestVote? || ev.msg.Heartbeat?) {
      OutranksIff(s, ev.msg.data);
    }
  }

  /** A leader steps down exactly for the heartbeat of a newer term, or when it loses its own heartbeat. */
  lemma StepsDownIff(total: nat, s: Node, ev: Event)
    requires Ready(s, ev) && s.role == Leader
    ensures var n := OnEvent(total, s, ev).node;
            && n.role != Candidate
            && (n.role == Follower <==>
                  ev.LoseOwnHeartbeat? ||
                  (ev.Deliver? && ev.msg.Heartbeat? && ev.msg.data.id != ev.to && ev.msg.data.term > s.term))
            && (n.role == Follower ==>
                  n.freshman && n.leaderId == 0 && n.term == if ev.Deliver? then ev.msg.data.term else s.term)
  {}

  /** A follower takes a heartbeat's sender for its leader exactly if it has no other, and neither term is behind its own. */
  lemma FollowsIff(total: nat, s: Node, id: int, d: Mark)
    requires s.role == Follower && s.prevLogIndex == s.commitId && d.prevLogIndex == d.commitId
    ensures var n := OnEvent(total, s, Deliver(id, Heartbeat(d))).node;
            n == if s.leaderId in {0, d.id} && s.term <= d.term &&
                    (s.commitId in {DEFAULT_DATA, d.commitId} || s.prevLogTerm <= d.prevLogTerm)
                 then s.(leaderId := d.id, term := d.term) else s
  {}

  /** Whoever times out and does not lead asks for votes in the next term, with none counted. */
  lemma AsksForVotes(total: nat, s: Node, id: int)
    requires s.role != Leader
    ensures var e := OnEvent(total, s, ElectTimeout(id));
            && e.node.role == Candidate && e.node.term == s.term + 1 && e.node.voters == {} && e.node.voteNum == 0
            && e.node.lastVoteFor == DEFAULT_DATA && e.sends == {RequestVote(MarkOf(id, e.node))}
  {}

  // A majority elects

  /** A grant of `term` for `candidate`. */
  predicate IsGrant(m: Message, candidate: int, term: int) {
    m.ResponseVote? && m.voteGranted && m.id == candidate && m.voteForTerm == term && m.term <= term
  }

  /** Deliveries of such grants, all of them in flight. */
  ghost predicate Grants(sys: System, candidate: int, term: int, ds: seq<Event>) {
    forall i :: 0 <= i < |ds| ==>
      ds[i].Deliver? && ds[i].to == candidate && ds[i].msg in sys.net && IsGrant(ds[i].msg, candidate, term)
  }

  function Voters(ds: seq<Event>): (r: set<int>)
    requires forall i :: 0 <= i < |ds| ==> ds[i].Deliver? && ds[i].msg.ResponseVote?
    decreases |ds|
  {
    if ds == [] then {} else Voters(ds[..|ds| - 1]) + {ds[|ds| - 1].msg.voter}
  }

  /** What the candidate `s` is after the votes of `voters`: still collecting, or elected on the way. */
  ghost predicate Collected(total: nat, s: Node, n: Node, voters: set<int>) {
    && n.term == s.term && n.role == (if 2 * |s.voters + voters| > total then Leader else Candidate)
    && (n.role == Candidate ==> n.voters == s.voters + voters && n.voteNum == |n.voters|)
  }

  lemma OneMoreVote(total: nat, s: Node, n: Node, voters: set<int>, id: int, m: Message)
    requires Collected(total, s, n, voters) && IsGrant(m, id, s.term)
    ensures Collected(total, s, OnEvent(total, n, Deliver(id, m)).node, voters + {m.voter})
  {
    assert s.voters + (voters + {m.voter}) == s.voters + voters + {m.voter};
    SubsetSize(s.voters + voters, s.voters + voters + {m.voter});
  }

  /** The candidate moves and nothing else does; no message is lost. */
  ghost predicate OnlyMoves(sys: System, sys': System, id: int) {
    && id in sys.nodes && sys'.nodes.Keys == sys.nodes.Keys && sys'.total == sys.total && sys.net <= sys'.net
    && forall i :: i in sys.nodes && i != id ==> sys'.nodes[i] == sys.nodes[i]
  }

  /**
   A majority elects. A candidate to which any grants of its term are delivered, in any order and repeated at will,
   leads that term afterwards if and only if the voters it had counted and those of these grants are together more than
   half of all nodes.
   */
  lemma {:induction false} MajorityElectsIff(sys: System, candidate: int, ds: seq<Event>)
    requires candidate in sys.nodes && sys.nodes[candidate].role == Candidate
    requires sys.nodes[candidate].voteNum == |sys.nodes[candidate].voters| && 2 * sys.nodes[candidate].voteNum <= sys.total
    requires Grants(sys, candidate, sys.nodes[candidate].term, ds)
    ensures OnlyMoves(sys, Run(sys, ds), candidate)
    ensures var n, s := Run(sys, ds).nodes[candidate], sys.nodes[candidate];
            && n.term == s.term && (n.role == Leader <==> 2 * |s.voters + Voters(ds)| > sys.total)
            && Collected(sys.total, s, n, Voters(ds))
    decreases |ds|
  {
    var s := sys.nodes[candidate];
    if ds == [] {
      assert s.voters + {} == s.voters;
    } else {
      var before, last := ds[..|ds| - 1], ds[|ds| - 1];
      MajorityElectsIff(sys, candidate, before);
      OneMoreVote(sys.total, s, Run(sys, before).nodes[candidate], Voters(before), candidate, last.msg);
    }
  }

  // A whole election

  /** The request of `candidate` delivered to `voters`, one after the other. */
  function Asking(request: Message, voters: seq<int>): (r: seq<Event>)
    ensures |r| == |voters| && forall i :: 0 <= i < |r| ==> r[i] == Deliver(voters[i], request)
  {
    seq(|voters|, i requires 0 <= i < |voters| => Deliver(voters[i], request))
  }

  /** The grants of `voters` delivered to the candidate. */
  function Answering(mark: Mark, voters: seq<int>): (r: seq<Event>)
    ensures |r| == |voters|
    ensures forall i :: 0 <= i < |r| ==>
              r[i] == Deliver(mark.id, ResponseVote(true, mark.term, mark.id, mark.term, voters[i]))
  {
    seq(|voters|, i requires 0 <= i < |voters| =>
      Deliver(mark.id, ResponseVote(true, mark.term, mark.id, mark.term, voters[i])))
  }

  /** The grants of all `voters` are in flight; those outside are as they were, the candidate still collects. */
  ghost predicate Asked(sys: System, sys': System, mark: Mark, voters: seq<int>) {
    && sys'.nodes.Keys == sys.nodes.Keys && sys'.total == sys.total && sys.net <= sys'.net
    && (forall i :: i in sys.nodes && i !in voters && i != mark.id ==> sys'.nodes[i] == sys.nodes[i])
    && (forall i :: 0 <= i < |voters| ==> ResponseVote(true, mark.term, mark.id, mark.term, voters[i]) in sys'.net)
    && mark.id in sys.nodes
    && (mark.id !in voters ==> sys'.nodes[mark.id] == sys.nodes[mark.id])
    && var c := sys'.nodes[mark.id];
       c.role == Candidate && c.term == mark.term && c.voters == {} && c.voteNum == 0
  }

  lemma {:induction false} AllAreAsked(sys: System, mark: Mark, voters: seq<int>)
    requires NoDup(voters) && mark.prevLogIndex == mark.commitId && RequestVote(mark) in sys.net
    requires forall v :: v in voters ==>
               v in sys.nodes && MayGrant(sys.nodes[v], mark) && sys.nodes[v].prevLogIndex == sys.nodes[v].commitId
    requires mark.id in sys.nodes && sys.nodes[mark.id].role == Candidate && sys.nodes[mark.id].term == mark.term
    requires sys.nodes[mark.id].voters == {} && sys.nodes[mark.id].voteNum == 0
    ensures Asked(sys, Run(sys, Asking(RequestVote(mark), voters)), mark, voters)
    decreases |voters|
  {
    if voters != [] {
      var n := |voters| - 1;
      var before, v := voters[..n], voters[n];
      var evs := Asking(RequestVote(mark), voters);
      AllAreAsked(sys, mark, before);
      assert evs[..n] == Asking(RequestVote(mark), before);
      assert v !in before;
      GrantedIff(sys.total, sys.nodes[v], v, mark);
      OneMoreAsked(sys, Run(sys, evs[..n]), mark, before, v);
      assert voters == before + [v];
    }
  }

  lemma OneMoreAsked(sys: System, p: System, mark: Mark, before: seq<int>, v: int)
    requires Asked(sys, p, mark, before) && v in sys.nodes && v !in before && RequestVote(mark) in sys.net
    requires MayGrant(sys.nodes[v], mark) && sys.nodes[v].prevLogIndex == sys.nodes[v].commitId
    requires mark.prevLogIndex == mark.commitId
    ensures Asked(sys, Next(p, Deliver(v, RequestVote(mark))), mark, before + [v])
  {
    assert p.nodes[v] == sys.nodes[v];
    GrantedIff(sys.total, sys.nodes[v], v, mark);
    assert v in before + [v];
  }

  lemma {:induction false} VotersOfAnswers(mark: Mark, voters: seq<int>)
    ensures forall v :: v in Voters(Answering(mark, voters)) <==> v in voters
    decreases |voters|
  {
    if voters != [] {
      var n := |voters| - 1;
      VotersOfAnswers(mark, voters[..n]);
      assert Answering(mark, voters)[..n] == Answering(mark, voters[..n]);
      assert voters == voters[..n] + [voters[n]];
    }
  }

  lemma {:induction false} DistinctSize(s: seq<int>, all: set<int>)
    requires NoDup(s) && forall x :: x in all <==> x in s
    ensures |all| == |s|
    decreases |s|
  {
    if s == [] {
      assert forall x :: x in all ==> x in s;
      assert all <= {};
    } else {
      var n := |s| - 1;
      assert s == s[..n] + [s[n]];
      DistinctSize(s[..n], all - {s[n]});
    }
  }

  /** What node `c` asks with when it times out. */
  function Request(sys: System, c: int): Mark
    requires c in sys.nodes
  {
    MarkOf(c, BecomeCandidate(c, sys.nodes[c]).node)
  }

  lemma GrantsInFlight(sys: System, mark: Mark, voters: seq<int>)
    requires forall i :: 0 <= i < |voters| ==> ResponseVote(true, mark.term, mark.id, mark.term, voters[i]) in sys.net
    ensures Grants(sys, mark.id, mark.term, Answering(mark, voters))
  {}

  /** The vote round of a candidate that has just asked: its request reaches `voters`, and their answers come back. */
  lemma VoteRound(sys: System, mark: Mark, voters: seq<int>)
    requires NoDup(voters) && mark.prevLogIndex == mark.commitId && RequestVote(mark) in sys.net
    requires forall v :: v in voters ==>
               v in sys.nodes && MayGrant(sys.nodes[v], mark) && sys.nodes[v].prevLogIndex == sys.nodes[v].commitId
    requires mark.id in sys.nodes && sys.nodes[mark.id].role == Candidate && sys.nodes[mark.id].term == mark.term
    requires sys.nodes[mark.id].voters == {} && sys.nodes[mark.id].voteNum == 0
    ensures var r := Run(Run(sys, Asking(RequestVote(mark), voters)), Answering(mark, voters));
            && mark.id in r.nodes && r.nodes[mark.id].term == mark.term
            && (r.nodes[mark.id].role == Leader <==> 2 * |voters| > sys.total)
  {
    var asked := Run(sys, Asking(RequestVote(mark), voters));
    AllAreAsked(sys, mark, voters);
    GrantsInFlight(asked, mark, voters);
    MajorityElectsIff(asked, mark.id, Answering(mark, voters));
    VotersOfAnswers(mark, voters);
    DistinctSize(voters, Voters(Answering(mark, voters)));
    assert {} + Voters(Answering(mark, voters)) == Voters(Answering(mark, voters));
  }

  /**
   A whole election. Take any run and any node that does not lead. It times out; its request reaches some nodes that may
   grant it, itself among them or not; and their grants reach it. Then it leads the next term if and only if these nodes
   are more than half of all.
   */
  lemma ElectionSucceedsIff(total: nat, ids: set<int>, evs: seq<Event>, c: int, voters: seq<int>)
    requires Configured(total, ids) && c in Run(Init(total, ids), evs).nodes
    requires Run(Init(total, ids), evs).nodes[c].role != Leader && NoDup(voters)
    requires var sys := Run(Init(total, ids), evs);
             forall v :: v in voters ==>
               v in sys.nodes && (v != c ==> MayGrant(sys.nodes[v], Request(sys, c)))
    ensures var sys := Run(Init(total, ids), evs);
            var asking := Run(Next(sys, ElectTimeout(c)), Asking(RequestVote(Request(sys, c)), voters));
            var r := Run(asking, Answering(Request(sys, c), voters));
            && c in r.nodes && r.nodes[c].term == sys.nodes[c].term + 1
            && (r.nodes[c].role == Leader <==> 2 * |voters| > total)
  {
    var sys := Run(Init(total, ids), evs);
    RunInv(total, ids, evs);
    AsksForVotes(total, sys.nodes[c], c);
    VoteRound(Next(sys, ElectTimeout(c)), Request(sys, c), voters);
  }
}
