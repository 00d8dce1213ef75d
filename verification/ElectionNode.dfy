/** The handlers of one cluster manager node, updating the shared `state` record in place. */
module ElectionNode {
  import opened Common
  import opened WorkerTypes
  import opened ElectionModel

  class ClusterNode {
    const id: int
    const totalNode: nat

    var role: Role
    var term: int
    var leaderId: int
    var commitId: int
    var lastVoteTerm: int
    var lastVoteFor: int
    var voteNum: int
    var voters: set<int>
    var prevLogIndex: int
    var prevLogTerm: int

    // The manager behind the node
    var freshman: bool
    var table: Table

    /** Everything published so far. */
    var published: set<Message>

    ghost var follows: Option<int>
    /** The vote newly cast by the handler that ran last. */
    ghost var cast: Option<Grant>

    ghost function State(): Node
      reads this
    {
      Node(role, term, leaderId, commitId, lastVoteTerm, lastVoteFor, voteNum, voters,
           prevLogIndex, prevLogTerm, freshman, table, follows)
    }

    /** The handler had the given effect. */
    twostate predicate Did(e: Effect)
      reads this
    {
      State() == e.node && published == old(published) + e.sends && cast == e.grant
    }

    constructor (id: int, totalNode: nat)
      ensures this.id == id && this.totalNode == totalNode && State() == INIT_NODE && published == {}
    {
      this.id, this.totalNode := id, totalNode;
      role, term, leaderId, commitId := Follower, DEFAULT_DATA, 0, DEFAULT_DATA;
      lastVoteTerm, lastVoteFor, voteNum, voters := DEFAULT_DATA, DEFAULT_DATA, 0, {};
      prevLogIndex, prevLogTerm := DEFAULT_DATA, DEFAULT_DATA;
      freshman, table, published := true, map[], {};
      follows, cast := None, None;
    }

    function Published(): (d: Mark)
      reads this
      ensures d == MarkOf(id, State())
    {
      Mark(id, term, commitId, prevLogIndex, prevLogTerm)
    }

    method ResponseVoteTo(d: Mark, granted: bool)
      modifies this`published
      ensures published == old(published) + {Reply(id, State(), d, granted)}
    {
      published := published + {ResponseVote(granted, term, d.id, d.term, id)};
    }

    /** The comparison that keeps a node from following or electing one that is behind it. */
    method RejectsOlder(d: Mark) returns (reject: bool)
      ensures reject <==> Outranks(State(), d)
    {
      if prevLogIndex != DEFAULT_DATA {
        var logTerm := prevLogTerm;
        if prevLogIndex == d.prevLogIndex {
          logTerm := d.prevLogTerm;
        }
        if logTerm > d.prevLogTerm {
          return true;
        }
        if prevLogTerm <= d.prevLogTerm && commitId > d.commitId {
          return true;
        }
      }
      return false;
    }

    method Vote(d: Mark)
      modifies this
      ensures Did(CastVote(id, old(State()), d))
    {
      lastVoteTerm := d.term;
      lastVoteFor := d.id;
      term := d.term;
      cast := Some(Grant(id, d.term, d.id));
      ResponseVoteTo(d, true);
    }

    method FollowerRequestVote(d: Mark)
      modifies this
      ensures Did(FollowerOnRequestVote(id, old(State()), d))
    {
      cast := None;
      if leaderId != 0 && leaderId != d.id {
        ResponseVoteTo(d, false);
        return;
      }
      if d.term < term {
        ResponseVoteTo(d, false);
        return;
      }
      if d.term > term {
        term := d.term;
      }
      if lastVoteFor != DEFAULT_DATA && lastVoteTerm == d.term {
        if lastVoteFor == d.id {
          ResponseVoteTo(d, true);
        }
        return;
      }
      var reject := RejectsOlder(d);
      if reject {
        ResponseVoteTo(d, false);
        return;
      }
      Vote(d);
    }

    method FollowerHeartbeat(d: Mark)
      modifies this
      ensures Did(Quiet(FollowerOnHeartbeat(old(State()), d)))
    {
      cast := None;
      if leaderId != 0 && leaderId != d.id {
        return;
      }
      if term > d.term {
        return;
      }
      if prevLogIndex != DEFAULT_DATA {
        var logTerm := prevLogTerm;
        if prevLogIndex == d.prevLogIndex {
          logTerm := d.prevLogTerm;
        }
        if logTerm > d.prevLogTerm {
          return;
        }
      }
      leaderId := d.id;
      term := d.term;
    }

    /** The manager's part: a freshman ignores the update. */
    method SetUpdatedData(e: Entry)
      modifies this`table
      ensures table == if freshman then old(table) else Replay(old(table), e)
    {
      if freshman {
        return;
      }
      table := Replay(table, e);
    }

    method ApplyEntry(d: Mark, e: Entry)
      modifies this
      ensures State() == AcceptEntry(old(State()), d, e) && published == old(published) && cast == old(cast)
    {
      commitId := commitId + 1;
      prevLogIndex := commitId;
      prevLogTerm := d.term;
      SetUpdatedData(e);
      follows := if follows == Some(d.term) then follows else None;
    }

    method FollowerAppendEntry(d: Mark, e: Entry)
      modifies this
      ensures Did(Quiet(FollowerOnAppendEntry(old(State()), d, e)))
    {
      cast := None;
      if leaderId != 0 && leaderId != d.id {
        return;
      }
      if term > d.term {
        return;
      }
      leaderId := d.id;
      term := d.term;
      if prevLogIndex != DEFAULT_DATA {
        if prevLogTerm == d.prevLogTerm && prevLogIndex == d.prevLogIndex {
          ApplyEntry(d, e);
        }
      }
    }

    method FollowerInstallSnapshot(d: Mark, followerId: int, t: Table)
      modifies this
      ensures Did(Quiet(FollowerOnSnapshot(id, old(State()), d, followerId, t)))
    {
      cast := None;
      if followerId != id {
        return;
      }
      if d.term < term {
        return;
      }
      if d.commitId < commitId {
        return;
      }
      ghost var s := State();
      commitId, term, prevLogIndex, prevLogTerm := d.commitId, d.term, d.commitId, d.term;
      freshman, table, follows := false, t, Some(d.term);
      assert State() == s.(commitId := d.commitId, term := d.term, prevLogIndex := d.commitId, prevLogTerm := d.term,
                           freshman := false, table := t, follows := Some(d.term));
    }

    method TurnFollower(newTerm: int)
      modifies this
      ensures State() == CandidateToFollower(old(State()), newTerm) && published == old(published) && cast == old(cast)
    {
      leaderId := 0;
      term := newTerm;
      role := Follower;
    }

    method RunAsCandidate()
      modifies this
      ensures Did(BecomeCandidate(id, old(State())))
    {
      ghost var s := State();
      leaderId := 0;
      role := Candidate;
      term := term + 1;
      lastVoteFor := DEFAULT_DATA;
      voteNum := 0;
      voters := {};
      ghost var asking := State();
      assert asking == s.(leaderId := 0, role := Candidate, term := s.term + 1,
                          lastVoteFor := DEFAULT_DATA, voteNum := 0, voters := {});
      cast := None;
      published := published + {RequestVote(Published())};
      assert State() == asking;
    }

    method RunAsLeader()
      modifies this
      ensures Did(BecomeLeader(id, old(State())))
    {
      leaderId := 0;
      role := Leader;
      freshman := false;
      follows := None;
      cast := None;
      published := published + {Heartbeat(Published())};
    }

    method CandidateRequestVote(d: Mark)
      modifies this
      ensures Did(CandidateOnRequestVote(id, old(State()), d))
    {
      cast := None;
      if d.term < term {
        ResponseVoteTo(d, false);
        return;
      }
      if d.term > term {
        TurnFollower(d.term);
      }
      if lastVoteFor != DEFAULT_DATA && lastVoteTerm == d.term {
        if lastVoteFor == d.id {
          ResponseVoteTo(d, true);
        } else {
          ResponseVoteTo(d, false);
        }
        return;
      }
      var reject := RejectsOlder(d);
      if reject {
        ResponseVoteTo(d, false);
        return;
      }
      Vote(d);
    }

    method CandidateResponseVote(m: Message)
      requires m.ResponseVote?
      modifies this
      ensures Did(CandidateOnResponseVote(id, totalNode, old(State()), m))
    {
      cast := None;
      if m.term > term && m.id == id && m.voteForTerm == term {
        TurnFollower(m.term);
        return;
      }
      if m.voteGranted && m.voteForTerm == term && m.id == id && m.voter !in voters {
        voters := voters + {m.voter};
        voteNum := voteNum + 1;
        if voteNum > totalNode / 2 {
          RunAsLeader();
        }
      }
    }

    method CandidateHeartbeat(d: Mark)
      modifies this
      ensures Did(Quiet(CandidateOnHeartbeat(old(State()), d)))
    {
      cast := None;
      var reject := RejectsOlder(d);
      if reject {
        return;
      }
      TurnFollower(d.term);
    }

    /** `changeRole` of the leader cycle, with `unserve`. */
    method StepDown()
      modifies this
      ensures State() == LeaderToFollower(old(State())) && published == old(published) && cast == old(cast)
    {
      leaderId := 0;
      role := Follower;
      freshman := true;
    }

    method LeaderMessage(m: Message)
      modifies this
      ensures Did(LeaderOnMessage(id, old(State()), m))
    {
      cast := None;
      match m
      case SnapshotRequest(followerId, leaderId) =>
        if followerId == id {
          return;
        }
        if leaderId != id {
          return;
        }
        published := published + {SnapshotReply(Published(), followerId, table)};
      case Heartbeat(d) =>
        if d.id != id {
          if d.term > term {
            term := d.term;
            StepDown();
          }
        }
      case _ =>
    }

    /** The update callback a serving leader registers. */
    method Commit(e: Entry)
      modifies this
      ensures Did(LeaderUpdate(id, old(State()), e))
    {
      ghost var s := State();
      cast := None;
      table := Replay(table, e);
      commitId := commitId + 1;
      ghost var served := State();
      assert served == s.(table := Replay(s.table, e), commitId := s.commitId + 1);
      published := published + {AppendEntry(Published(), e)};
      assert State() == served;
      prevLogIndex := commitId;
      prevLogTerm := term;
      assert State() == served.(prevLogIndex := served.commitId, prevLogTerm := served.term);
    }

    /** Whatever the role, a delivered message has the effect the system model gives it. */
    method OnTopicMessage(m: Message)
      modifies this
      ensures Did(OnEvent(totalNode, old(State()), Deliver(id, m)))
    {
      match role
      case Follower =>
        match m {
          case RequestVote(d) => FollowerRequestVote(d);
          case Heartbeat(d) => FollowerHeartbeat(d);
          case AppendEntry(d, e) => FollowerAppendEntry(d, e);
          case SnapshotReply(d, f, t) => FollowerInstallSnapshot(d, f, t);
          case _ => cast := None;
        }
      case Candidate =>
        match m {
          case RequestVote(d) => CandidateRequestVote(d);
          case ResponseVote(_, _, _, _, _) => CandidateResponseVote(m);
          case Heartbeat(d) => CandidateHeartbeat(d);
          case _ => cast := None;
        }
      case Leader => LeaderMessage(m);
    }

    /** The events a node raises by itself. */
    method OnTimer(ev: Event)
      requires !ev.Deliver? && ev.at == id && Ready(State(), ev)
      modifies this
      ensures Did(OnEvent(totalNode, old(State()), ev))
    {
      match ev
      case ElectTimeout(_) => RunAsCandidate();
      case SendHeartbeat(_) =>
        cast := None;
        published := published + {Heartbeat(Published())};
      case LoseOwnHeartbeat(_) =>
        cast := None;
        StepDown();
      case Update(_, e) => Commit(e);
      case AskSnapshot(_) =>
        cast := None;
        published := published + {SnapshotRequest(id, leaderId)};
    }
  }
}
