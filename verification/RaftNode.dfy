/** One Raft node as a value, and what each lock-held section of
    hw3/raft/raft.go does to it. */
module RaftNode {
  import opened Options
  import opened RaftLog

  datatype Role = Follower | Candidate | Leader

  datatype ApplyMsg = ApplyMsg(index: int, term: int, command: string)

  datatype VoteArgs = VoteArgs(term: int, candidateId: int, lastLogIndex: int, lastLogTerm: int)

  datatype VoteReply = VoteReply(term: int, granted: bool)

  datatype AppendArgs = AppendArgs(
    term: int, leaderId: int, prevLogIndex: int, prevLogTerm: int,
    entries: seq<Entry>, leaderCommit: int)

  datatype AppendReply = AppendReply(term: int, success: bool)

  /** stream is everything the apply loop has ever sent on commitCh. */
  datatype Node = Node(
    id: int, currentTerm: int, votedFor: int, role: Role, log: seq<Entry>,
    commitIndex: int, lastApplied: int,
    nextIndex: seq<int>, matchIndex: seq<int>, stream: seq<ApplyMsg>)

  const NOOP := "noop"

  /** What the type of a running node guarantees, whatever messages it saw. */
  predicate Sane(s: Node) {
    && 0 <= s.id < |s.nextIndex|
    && |s.matchIndex| == |s.nextIndex|
    && WellIndexed(s.log)
    && 0 <= s.commitIndex
    && 0 <= s.lastApplied
  }

  function InitNode(id: int, n: nat): Node {
    Node(id, 0, -1, Follower, [SENTINEL], 0, 0, seq(n, _ => 0), seq(n, _ => 0), [])
  }

  function QuorumOf(n: nat): nat {
    n / 2 + 1
  }

  function BecomeFollower(s: Node, term: int): Node {
    s.(currentTerm := term, role := Follower, votedFor := -1)
  }

  /** Section 5.4.1: the candidate's log is at least as up to date. */
  predicate UpToDate(lastTerm: int, lastIndex: int, log: seq<Entry>)
    requires |log| > 0
  {
    || lastTerm > LastTermOf(log)
    || (lastTerm == LastTermOf(log) && lastIndex >= LastIndexOf(log))
  }

  function OnVoteRequest(s: Node, req: VoteArgs): (Node, VoteReply)
    requires Sane(s)
  {
    if req.term < s.currentTerm then (s, VoteReply(s.currentTerm, false)) else
    var s1 := if req.term > s.currentTerm then BecomeFollower(s, req.term) else s;
    if (s1.votedFor == -1 || s1.votedFor == req.candidateId)
       && UpToDate(req.lastLogTerm, req.lastLogIndex, s1.log)
    then (s1.(votedFor := req.candidateId), VoteReply(s1.currentTerm, true))
    else (s1, VoteReply(s1.currentTerm, false))
  }

  /** Messages whose entries carry the indices they will be stored at. On any
      other the source's log panics. */
  predicate WellFormedAppend(req: AppendArgs) {
    && 0 <= req.prevLogIndex
    && forall i :: 0 <= i < |req.entries| ==> req.entries[i].index == req.prevLogIndex + 1 + i
  }

  predicate Consistent(log: seq<Entry>, prevIndex: int, prevTerm: int) {
    prevIndex > 0 ==> prevIndex < |log| && log[prevIndex].term == prevTerm
  }

  function OnAppend(s: Node, req: AppendArgs): (Node, AppendReply)
    requires Sane(s) && WellFormedAppend(req)
  {
    if req.term < s.currentTerm then (s, AppendReply(s.currentTerm, false)) else
    var s1 := if req.term > s.currentTerm then BecomeFollower(s, req.term) else s;
    if !Consistent(s1.log, req.prevLogIndex, req.prevLogTerm)
    then (s1, AppendReply(s1.currentTerm, false)) else
    var log := Merge(s1.log, req.prevLogIndex, req.entries);
    var commit :=
      if req.leaderCommit > s1.commitIndex
      then (if LastIndexOf(log) < req.leaderCommit then LastIndexOf(log) else req.leaderCommit)
      else s1.commitIndex;
    (s1.(log := log, commitIndex := commit), AppendReply(s1.currentTerm, true))
  }

  /** The indices at which AppendEntries calls Truncate. */
  function AppendCuts(s: Node, req: AppendArgs): (cuts: seq<int>)
    requires Sane(s) && WellFormedAppend(req)
    ensures |cuts| <= 1
  {
    if req.term < s.currentTerm || !Consistent(s.log, req.prevLogIndex, req.prevLogTerm) then []
    else Cuts(s.log, req.prevLogIndex, req.entries)
  }

  /** The first, locked half of startElection. */
  function BeginElection(s: Node): (Node, Option<VoteArgs>)
    requires Sane(s)
  {
    if s.role == Leader then (s, None) else
    var s1 := s.(currentTerm := s.currentTerm + 1, role := Candidate, votedFor := s.id);
    (s1, Some(VoteArgs(s1.currentTerm, s.id, LastIndexOf(s.log), LastTermOf(s.log))))
  }

  function BecomeLeader(s: Node): Node
    requires Sane(s)
  {
    s.(role := Leader,
       nextIndex := seq(|s.nextIndex|, _ => |s.log|),
       matchIndex := seq(|s.matchIndex|, _ => 0),
       log := s.log + [Entry(|s.log|, s.currentTerm, NOOP)])
  }

  /** The vote-reply closure of the election a node started in the given term;
      votes is that election's counter. */
  function OnVoteReply(s: Node, electionTerm: int, votes: int, reply: VoteReply): (Node, int)
    requires Sane(s)
  {
    if reply.term > s.currentTerm then (BecomeFollower(s, reply.term), votes)
    else if s.role != Candidate || s.currentTerm != electionTerm || !reply.granted then (s, votes)
    else if votes + 1 >= QuorumOf(|s.nextIndex|) then (BecomeLeader(s), votes + 1)
    else (s, votes + 1)
  }

  /** The send half of sendAppendEntries. */
  function MakeAppend(s: Node, peer: int): AppendArgs
    requires Sane(s) && 0 <= peer < |s.nextIndex|
  {
    var prev := s.nextIndex[peer] - 1;
    AppendArgs(
      s.currentTerm, s.id, prev,
      if 0 < prev < |s.log| then s.log[prev].term else 0,
      Slice(s.log, s.nextIndex[peer], |s.log|),
      s.commitIndex)
  }

  /** The nodes known to hold the leader's log through index n, itself included. */
  ghost function Matched(s: Node, n: int): set<int>
    requires Sane(s)
  {
    MatchedBelow(s, n, |s.matchIndex|)
  }

  ghost function MatchedBelow(s: Node, n: int, hi: int): set<int>
    requires Sane(s) && 0 <= hi <= |s.matchIndex|
  {
    set p | 0 <= p < hi && (p == s.id || s.matchIndex[p] >= n)
  }

  lemma MatchedBelowNext(s: Node, n: int, p: int)
    requires Sane(s) && 0 <= p < |s.matchIndex|
    ensures |{s.id} + MatchedBelow(s, n, p + 1)|
         == |{s.id} + MatchedBelow(s, n, p)| + if p != s.id && s.matchIndex[p] >= n then 1 else 0
  {
    var before := {s.id} + MatchedBelow(s, n, p);
    assert {s.id} + MatchedBelow(s, n, p + 1)
        == if p != s.id && s.matchIndex[p] >= n then before + {p} else before;
  }

  /** Section 5.4.2: index n is of the current term and a majority holds it. */
  ghost predicate Committable(s: Node, n: int)
    requires Sane(s)
  {
    && 1 <= n < |s.log|
    && s.log[n].term == s.currentTerm
    && |Matched(s, n)| >= QuorumOf(|s.nextIndex|)
  }

  /** The greatest committable index above commitIndex and up to hi, or
      commitIndex if there is none. */
  ghost function HighestCommittable(s: Node, hi: int): (n: int)
    requires Sane(s)
    ensures n >= s.commitIndex
    ensures n > s.commitIndex ==> n <= hi && Committable(s, n)
    ensures forall m :: n < m <= hi && m > s.commitIndex ==> !Committable(s, m)
    decreases hi - s.commitIndex
  {
    if hi <= s.commitIndex then s.commitIndex
    else if Committable(s, hi) then hi
    else HighestCommittable(s, hi - 1)
  }

  ghost function AdvanceCommit(s: Node): Node
    requires Sane(s)
  {
    s.(commitIndex := HighestCommittable(s, LastIndexOf(s.log)))
  }

  /** The reply half of sendAppendEntries for the request args sent to peer. */
  ghost function OnAppendReply(s: Node, peer: int, args: AppendArgs, reply: AppendReply): Node
    requires Sane(s) && 0 <= peer < |s.nextIndex|
  {
    if reply.term > s.currentTerm then BecomeFollower(s, reply.term)
    else if s.role != Leader || s.currentTerm != args.term then s
    else if reply.success then AdvanceCommit(Progress(s, peer, args.prevLogIndex + |args.entries|))
    else s.(nextIndex := if s.nextIndex[peer] > 1
                         then s.nextIndex[peer := s.nextIndex[peer] - 1]
                         else s.nextIndex)
  }

  function Progress(s: Node, peer: int, newMatch: int): Node
    requires Sane(s) && 0 <= peer < |s.nextIndex|
  {
    if newMatch > s.matchIndex[peer]
    then s.(matchIndex := s.matchIndex[peer := newMatch], nextIndex := s.nextIndex[peer := newMatch + 1])
    else s
  }

  function StartCommand(s: Node, command: string): Node
    requires Sane(s)
  {
    if s.role != Leader then s
    else s.(log := s.log + [Entry(|s.log|, s.currentTerm, command)])
  }

  /** One iteration of the inner apply loop. */
  function ApplyNext(s: Node): Node
    requires Sane(s)
  {
    if s.lastApplied >= s.commitIndex then s else
    var s1 := s.(lastApplied := s.lastApplied + 1);
    if s1.lastApplied >= |s.log| then s1 else
    var e := s.log[s1.lastApplied];
    s1.(stream := s.stream + [ApplyMsg(e.index, e.term, e.command)])
  }
}
