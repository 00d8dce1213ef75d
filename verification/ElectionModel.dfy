/**
 The replicated cluster manager as a system of nodes and a bag of messages.

 Every handler runs under one lock, so a handler is one step. The bag only grows: a message that is
 never delivered is lost, one delivered twice is duplicated, and delivery in any order reorders.
 A run is any sequence of events; an event that is not enabled changes nothing.
 */
module ElectionModel {
  import opened Common
  import opened WorkerTypes

  const DEFAULT_DATA := -1

  datatype Role = Follower | Candidate | Leader

  /**
   The shared `state` record of one node, with its freshman flag and its worker table.
   `follows` is a history variable: the term of the leader whose snapshot the node installed last,
   as long as it has applied entries of that term only.
   */
  datatype Node = Node(
    role: Role, term: int, leaderId: int, commitId: int,
    lastVoteTerm: int, lastVoteFor: int, voteNum: int, voters: set<int>,
    prevLogIndex: int, prevLogTerm: int,
    freshman: bool, table: Table, follows: Option<int>)

  const INIT_NODE := Node(Follower, DEFAULT_DATA, 0, DEFAULT_DATA,
                         DEFAULT_DATA, DEFAULT_DATA, 0, {}, DEFAULT_DATA, DEFAULT_DATA,
                         true, map[], None)

  /** The part of a published `state` that receivers read. */
  datatype Mark = Mark(id: int, term: int, commitId: int, prevLogIndex: int, prevLogTerm: int)

  datatype Message =
    | RequestVote(data: Mark)
    | ResponseVote(voteGranted: bool, term: int, id: int, voteForTerm: int, voter: int)
    | Heartbeat(data: Mark)
    | AppendEntry(data: Mark, entry: Entry)
    | SnapshotRequest(followerId: int, leaderId: int)
    | SnapshotReply(data: Mark, followerId: int, table: Table)

  /** A grant made for the first time: who, in which term, for whom. */
  datatype Grant = Grant(voter: int, term: int, candidate: int)

  /** What a handler does: the node's new state, the messages it publishes, a vote it newly casts. */
  datatype Effect = Effect(node: Node, sends: set<Message>, grant: Option<Grant>)

  function MarkOf(id: int, s: Node): Mark {
    Mark(id, s.term, s.commitId, s.prevLogIndex, s.prevLogTerm)
  }

  function Quiet(s: Node): Effect {
    Effect(s, {}, None)
  }

  /** The log terms a voter and a sender compare: equal positions count as equal terms. */
  function ComparedTerm(s: Node, d: Mark): int {
    if s.prevLogIndex == d.prevLogIndex then d.prevLogTerm else s.prevLogTerm
  }

  predicate OlderTerm(s: Node, d: Mark) {
    s.prevLogIndex != DEFAULT_DATA && ComparedTerm(s, d) > d.prevLogTerm
  }

  /** The sender is behind this node, which refuses to follow or elect it. */
  predicate Outranks(s: Node, d: Mark) {
    s.prevLogIndex != DEFAULT_DATA &&
    (ComparedTerm(s, d) > d.prevLogTerm || (s.prevLogTerm <= d.prevLogTerm && s.commitId > d.commitId))
  }

  function Reply(id: int, s: Node, d: Mark, granted: bool): Message {
    ResponseVote(granted, s.term, d.id, d.term, id)
  }

  function CastVote(id: int, s: Node, d: Mark): Effect {
    var s' := s.(lastVoteTerm := d.term, lastVoteFor := d.id, term := d.term);
    Effect(s', {Reply(id, s', d, true)}, Some(Grant(id, d.term, d.id)))
  }

  // Role changes

  /** `init` of the candidate cycle, then the vote request it publishes. */
  function BecomeCandidate(id: int, s: Node): Effect {
    var s' := s.(leaderId := 0, role := Candidate, term := s.term + 1,
                 lastVoteFor := DEFAULT_DATA, voteNum := 0, voters := {});
    Effect(s', {RequestVote(MarkOf(id, s'))}, None)
  }

  function CandidateToFollower(s: Node, newTerm: int): Node {
    s.(leaderId := 0, term := newTerm, role := Follower)
  }

  /** Leader start-up, up to the registration of the update callback, is one step. */
  function BecomeLeader(id: int, s: Node): Effect {
    var s' := s.(leaderId := 0, role := Leader, freshman := false, follows := None);
    Effect(s', {Heartbeat(MarkOf(id, s'))}, None)
  }

  /** `unserve` makes an ex-leader a freshman again. */
  function LeaderToFollower(s: Node): Node {
    s.(leaderId := 0, role := Follower, freshman := true)
  }

  // Follower handlers

  function FollowerOnRequestVote(id: int, s: Node, d: Mark): Effect {
    if s.leaderId != 0 && s.leaderId != d.id then Effect(s, {Reply(id, s, d, false)}, None)
    else if d.term < s.term then Effect(s, {Reply(id, s, d, false)}, None)
    else
      var s' := s.(term := d.term);
      if s.lastVoteFor != DEFAULT_DATA && s.lastVoteTerm == d.term then
        Effect(s', if s.lastVoteFor == d.id then {Reply(id, s', d, true)} else {}, None)
      else if Outranks(s', d) then Effect(s', {Reply(id, s', d, false)}, None)
      else CastVote(id, s', d)
  }

  function FollowerOnHeartbeat(s: Node, d: Mark): Node {
    if s.leaderId != 0 && s.leaderId != d.id then s
    else if s.term > d.term then s
    else if OlderTerm(s, d) then s
    else s.(leaderId := d.id, term := d.term)
  }

  /** A freshman moves its position but skips the update itself. */
  function AcceptEntry(s: Node, d: Mark, e: Entry): Node {
    s.(commitId := s.commitId + 1, prevLogIndex := s.commitId + 1, prevLogTerm := d.term,
       table := if s.freshman then s.table else Replay(s.table, e),
       follows := if s.follows == Some(d.term) then s.follows else None)
  }

  function FollowerOnAppendEntry(s: Node, d: Mark, e: Entry): Node {
    if s.leaderId != 0 && s.leaderId != d.id then s
    else if s.term > d.term then s
    else
      var s1 := s.(leaderId := d.id, term := d.term);
      if s.prevLogIndex != DEFAULT_DATA && s.prevLogTerm == d.prevLogTerm && s.prevLogIndex == d.prevLogIndex then
        AcceptEntry(s1, d, e)
      else s1
  }

  function FollowerOnSnapshot(id: int, s: Node, d: Mark, followerId: int, t: Table): Node {
    if followerId != id then s
    else if d.term < s.term then s
    else if d.commitId < s.commitId then s
    else s.(commitId := d.commitId, term := d.term, prevLogIndex := d.commitId, prevLogTerm := d.term,
            freshman := false, table := t, follows := Some(d.term))
  }

  function FollowerOnMessage(id: int, s: Node, m: Message): Effect {
    match m
    case RequestVote(d) => FollowerOnRequestVote(id, s, d)
    case Heartbeat(d) => Quiet(FollowerOnHeartbeat(s, d))
    case AppendEntry(d, e) => Quiet(FollowerOnAppendEntry(s, d, e))
    case SnapshotReply(d, f, t) => Quiet(FollowerOnSnapshot(id, s, d, f, t))
    case _ => Quiet(s)
  }

  // Candidate handlers

  /** On a newer term the candidate turns follower first and then goes on to answer. */
  function CandidateOnRequestVote(id: int, s: Node, d: Mark): Effect {
    if d.term < s.term then Effect(s, {Reply(id, s, d, false)}, None)
    else
      var s' := if d.term > s.term then CandidateToFollower(s, d.term) else s;
      if s'.lastVoteFor != DEFAULT_DATA && s'.lastVoteTerm == d.term then
        Effect(s', {Reply(id, s', d, s'.lastVoteFor == d.id)}, None)
      else if Outranks(s', d) then Effect(s', {Reply(id, s', d, false)}, None)
      else CastVote(id, s', d)
  }

  function CandidateOnResponseVote(id: int, total: nat, s: Node, m: Message): Effect
    requires m.ResponseVote?
  {
    if m.term > s.term && m.id == id && m.voteForTerm == s.term then Quiet(CandidateToFollower(s, m.term))
    else if m.voteGranted && m.voteForTerm == s.term && m.id == id && m.voter !in s.voters then
      var s' := s.(voters := s.voters + {m.voter}, voteNum := s.voteNum + 1);
      if s'.voteNum > total / 2 then BecomeLeader(id, s') else Quiet(s')
    else Quiet(s)
  }

  /** The term of the heartbeat is adopted without comparing it with the candidate's own. */
  function CandidateOnHeartbeat(s: Node, d: Mark): Node {
    if Outranks(s, d) then s else CandidateToFollower(s, d.term)
  }

  function CandidateOnMessage(id: int, total: nat, s: Node, m: Message): Effect {
    match m
    case RequestVote(d) => CandidateOnRequestVote(id, s, d)
    case ResponseVote(_, _, _, _, _) => CandidateOnResponseVote(id, total, s, m)
    case Heartbeat(d) => Quiet(CandidateOnHeartbeat(s, d))
    case _ => Quiet(s)
  }

  // Leader handlers

  function LeaderOnMessage(id: int, s: Node, m: Message): Effect {
    match m
    case SnapshotRequest(f, l) =>
      if f == id || l != id then Quiet(s)
      else Effect(s, {SnapshotReply(MarkOf(id, s), f, s.table)}, None)
    case Heartbeat(d) =>
      if d.id != id && d.term > s.term then Quiet(LeaderToFollower(s.(term := d.term))) else Quiet(s)
    case _ => Quiet(s)
  }

  /** One served update: the table changes, the position moves, the entry goes out. */
  function LeaderUpdate(id: int, s: Node, e: Entry): Effect {
    var s1 := s.(commitId := s.commitId + 1, table := Replay(s.table, e));
    Effect(s1.(prevLogIndex := s1.commitId, prevLogTerm := s1.term), {AppendEntry(MarkOf(id, s1), e)}, None)
  }

  // The system

  datatype Event =
    | Deliver(to: int, msg: Message)
    | ElectTimeout(at: int)
    | SendHeartbeat(at: int)
    | LoseOwnHeartbeat(at: int)
    | Update(at: int, entry: Entry)
    | AskSnapshot(at: int)

  /**
   `firstGrant` records each grant with the commit position the voter had then; `history` records, for
   each term, the leader's table at each of its positions. Both are history variables.
   */
  datatype System = System(
    total: nat, nodes: map<int, Node>, net: set<Message>,
    firstGrant: map<Grant, int>, history: map<int, map<int, Table>>)

  function Where(ev: Event): int {
    if ev.Deliver? then ev.to else ev.at
  }

  /** The role in which a node can see the event. */
  predicate Ready(s: Node, ev: Event) {
    match ev
    case Deliver(_, _) => true
    case ElectTimeout(_) => s.role != Leader
    case SendHeartbeat(_) => s.role == Leader
    case LoseOwnHeartbeat(_) => s.role == Leader
    case Update(_, _) => s.role == Leader
    case AskSnapshot(_) => true
  }

  predicate Enabled(sys: System, ev: Event) {
    Where(ev) in sys.nodes && Ready(sys.nodes[Where(ev)], ev) && (ev.Deliver? ==> ev.msg in sys.net)
  }

  function OnEvent(total: nat, s: Node, ev: Event): Effect {
    match ev
    case Deliver(id, m) =>
      (match s.role
       case Follower => FollowerOnMessage(id, s, m)
       case Candidate => CandidateOnMessage(id, total, s, m)
       case Leader => LeaderOnMessage(id, s, m))
    case ElectTimeout(id) => BecomeCandidate(id, s)
    case SendHeartbeat(id) => Effect(s, {Heartbeat(MarkOf(id, s))}, None)
    case LoseOwnHeartbeat(_) => Quiet(LeaderToFollower(s))
    case Update(id, e) => LeaderUpdate(id, s, e)
    case AskSnapshot(id) => Effect(s, {SnapshotRequest(id, s.leaderId)}, None)
  }

  function RecordGrant(grants: map<Grant, int>, g: Option<Grant>, commitId: int): map<Grant, int> {
    if g.Some? && g.value !in grants then grants[g.value := commitId] else grants
  }

  /** A leader writes its table down when it starts and at every new position. */
  function RecordTable(h: map<int, map<int, Table>>, before: Node, after: Node): map<int, map<int, Table>> {
    if after.role != Leader then h
    else if before.role != Leader then h[after.term := map[after.commitId := after.table]]
    else if after.commitId != before.commitId && after.term in h
    then h[after.term := h[after.term][after.commitId := after.table]]
    else h
  }

  function Next(sys: System, ev: Event): System {
    if !Enabled(sys, ev) then sys
    else
      var id := Where(ev);
      var s := sys.nodes[id];
      var e := OnEvent(sys.total, s, ev);
      System(sys.total, sys.nodes[id := e.node], sys.net + e.sends,
             RecordGrant(sys.firstGrant, e.grant, s.commitId),
             RecordTable(sys.history, s, e.node))
  }

  /** `ids` are the nodes that take part; they draw ids that are not negative. */
  function Init(total: nat, ids: set<int>): System {
    System(total, map i | i in ids :: INIT_NODE, {}, map[], map[])
  }

  function Run(sys: System, evs: seq<Event>): System
    decreases |evs|
  {
    if evs == [] then sys else Next(Run(sys, evs[..|evs| - 1]), evs[|evs| - 1])
  }

  ghost predicate Configured(total: nat, ids: set<int>) {
    |ids| <= total && forall i :: i in ids ==> i >= 0
  }

  /** The one branch that lowers a term: a candidate adopting an older heartbeat. */
  predicate AdoptsLowerTerm(sys: System, ev: Event) {
    Enabled(sys, ev) && ev.Deliver? && ev.msg.Heartbeat? &&
    sys.nodes[ev.to].role == Candidate && ev.msg.data.term < sys.nodes[ev.to].term &&
    !Outranks(sys.nodes[ev.to], ev.msg.data)
  }

  ghost predicate NeverAdoptsLowerTerm(sys: System, evs: seq<Event>) {
    forall i :: 0 <= i < |evs| ==> !AdoptsLowerTerm(Run(sys, evs[..i]), evs[i])
  }
}
