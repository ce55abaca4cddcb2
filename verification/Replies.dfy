/** What a node answers and what an answer makes of it, read on the fields alone: when
    it must act, beside when it may not. */
module Replies {
  import opened Options
  import opened RaftLog
  import opened RaftNode
  import opened Sets

  function Max(a: int, b: int): int {
    if a >= b then a else b
  }

  // ---- votes -------------------------------------------------------------------

  /** A vote is granted if and only if the request is of the node's term or a later
      one, the node has not voted for another in it, and the candidate's last entry is
      of a later term than the node's own, or of the same and no earlier index. */
  lemma VoteGrantedIff(s: Node, req: VoteArgs, s1: Node, reply: VoteReply)
    requires Sane(s) && (s1, reply) == OnVoteRequest(s, req)
    ensures reply.granted <==>
              && req.term >= s.currentTerm
              && (req.term > s.currentTerm || s.votedFor == -1 || s.votedFor == req.candidateId)
              && (req.lastLogTerm > s.log[|s.log| - 1].term
                  || (req.lastLogTerm == s.log[|s.log| - 1].term && req.lastLogIndex >= |s.log| - 1))
    ensures reply.term == s1.currentTerm == Max(s.currentTerm, req.term)
    ensures s1.votedFor == if reply.granted then req.candidateId
                           else if req.term > s.currentTerm then -1 else s.votedFor
    ensures s1.role == if req.term > s.currentTerm then Follower else s.role
    ensures s1 == s.(currentTerm := s1.currentTerm, votedFor := s1.votedFor, role := s1.role)
  {
  }

  ghost predicate TermsAscend(log: seq<Entry>) {
    forall i, j :: 0 <= i <= j < |log| ==> log[i].term <= log[j].term
  }

  /** The log that a vote is asked for with is good enough for the voter's. */
  predicate GoodFor(candidate: seq<Entry>, voter: seq<Entry>)
    requires |candidate| > 0 && |voter| > 0
  {
    UpToDate(LastTermOf(candidate), LastIndexOf(candidate), voter)
  }

  /** The vote restriction is a total preorder on logs: of any two, one is good enough
      for the other, and what is good enough for a log is so for all that log is good
      enough for. A log is good enough for all its prefixes. */
  lemma GoodForIsTotal(a: seq<Entry>, b: seq<Entry>, c: seq<Entry>)
    requires |a| > 0 && |b| > 0 && |c| > 0
    ensures GoodFor(a, b) || GoodFor(b, a)
    ensures GoodFor(a, b) && GoodFor(b, c) ==> GoodFor(a, c)
    ensures GoodFor(a, b) && GoodFor(b, a) <==> LastTermOf(a) == LastTermOf(b) && |a| == |b|
    ensures TermsAscend(a) && b <= a ==> GoodFor(a, b)
  {
    if TermsAscend(a) && b <= a {
      assert b[|b| - 1] == a[|b| - 1];
    }
  }

  /** Of finitely many nodes, one has a log that all of them would vote for. */
  lemma {:induction false} BestLog(nodes: seq<Node>, group: set<int>) returns (best: int)
    requires group != {}
    requires forall p :: p in group ==> 0 <= p < |nodes| && |nodes[p].log| > 0
    ensures best in group && forall p :: p in group ==> GoodFor(nodes[best].log, nodes[p].log)
    decreases |group|
  {
    var p := SomeMember(group);
    if group == {p} {
      best := p;
    } else {
      var other := BestLog(nodes, group - {p});
      best := if GoodFor(nodes[other].log, nodes[p].log) then other else p;
      forall q | q in group ensures GoodFor(nodes[best].log, nodes[q].log) {
        GoodForIsTotal(nodes[p].log, nodes[other].log, nodes[q].log);
        GoodForIsTotal(nodes[p].log, nodes[other].log, nodes[p].log);
      }
    }
  }

  /** A node stands for election exactly if it does not lead, for the next term, with
      its own vote and its own last entry. */
  lemma StandsIff(s: Node, s1: Node, req: Option<VoteArgs>)
    requires Sane(s) && (s1, req) == BeginElection(s)
    ensures req.None? <==> s.role == Leader
    ensures s.role == Leader ==> s1 == s
    ensures s.role != Leader ==>
              && s1 == s.(currentTerm := s.currentTerm + 1, role := Candidate, votedFor := s.id)
              && req.value.term == s.currentTerm + 1 && req.value.candidateId == s.id
              && req.value.lastLogIndex == |s.log| - 1 && req.value.lastLogTerm == s.log[|s.log| - 1].term
  {
  }

  predicate Counts(s: Node, electionTerm: int, reply: VoteReply) {
    && reply.term <= s.currentTerm && s.role == Candidate && s.currentTerm == electionTerm && reply.granted
  }

  /** A reply of a later term makes the node a follower of that term. Otherwise the
      reply counts exactly if it grants a vote of the election the node still stands
      in, and then elects exactly if more than half of all nodes have now voted. */
  lemma VoteCountsIff(s: Node, electionTerm: int, votes: int, reply: VoteReply, s1: Node, votes1: int)
    requires Sane(s) && (s1, votes1) == OnVoteReply(s, electionTerm, votes, reply)
    ensures votes1 == votes + if Counts(s, electionTerm, reply) then 1 else 0
    ensures reply.term > s.currentTerm ==>
              s1 == s.(currentTerm := reply.term, role := Follower, votedFor := -1)
    ensures reply.term <= s.currentTerm && !(Counts(s, electionTerm, reply) && 2 * votes1 > |s.nextIndex|) ==> s1 == s
    ensures Counts(s, electionTerm, reply) && 2 * votes1 > |s.nextIndex| ==> Elected(s, s1)
  {
  }

  /** The new leader's log has one more entry, its no-op, and all progress is reset. */
  predicate Elected(s: Node, s1: Node)
    requires Sane(s)
  {
    && s1.role == Leader
    && s1.log == s.log + [Entry(|s.log|, s.currentTerm, "noop")]
    && |s1.nextIndex| == |s.nextIndex| && (forall q :: 0 <= q < |s1.nextIndex| ==> s1.nextIndex[q] == |s.log|)
    && |s1.matchIndex| == |s.matchIndex| && (forall q :: 0 <= q < |s1.matchIndex| ==> s1.matchIndex[q] == 0)
    && s1 == s.(role := s1.role, log := s1.log, nextIndex := s1.nextIndex, matchIndex := s1.matchIndex)
  }

  // ---- entries -----------------------------------------------------------------

  /** A message is accepted if and only if it is of the node's term or a later one and
      the node has the entry before, or there is none before. The node takes over a
      later term in either case, and nothing else of a message it rejects. */
  lemma AppendAcceptedIff(s: Node, req: AppendArgs, s1: Node, reply: AppendReply)
    requires Sane(s) && WellFormedAppend(req) && (s1, reply) == OnAppend(s, req)
    ensures reply.success <==>
              && req.term >= s.currentTerm
              && (req.prevLogIndex == 0
                  || (req.prevLogIndex <= |s.log| - 1 && s.log[req.prevLogIndex].term == req.prevLogTerm))
    ensures reply.term == s1.currentTerm == Max(s.currentTerm, req.term)
    ensures s1.votedFor == if req.term > s.currentTerm then -1 else s.votedFor
    ensures s1.role == if req.term > s.currentTerm then Follower else s.role
    ensures !reply.success ==> s1.log == s.log && s1.commitIndex == s.commitIndex
    ensures reply.success ==>
              && s1.log == Merge(s.log, req.prevLogIndex, req.entries)
              && s1.commitIndex == (if req.leaderCommit <= s.commitIndex then s.commitIndex
                                    else if req.leaderCommit <= |s1.log| - 1 then req.leaderCommit
                                    else |s1.log| - 1)
    ensures s1 == s.(currentTerm := s1.currentTerm, votedFor := s1.votedFor, role := s1.role,
                     log := s1.log, commitIndex := s1.commitIndex)
  {
  }

  /** A leader appends the command, under the next index and its own term; no other
      node does anything. */
  lemma StartIff(s: Node, command: string, s1: Node)
    requires Sane(s) && s1 == StartCommand(s, command)
    ensures s.role != Leader ==> s1 == s
    ensures s.role == Leader ==>
              && |s1.log| == |s.log| + 1 && s.log <= s1.log
              && s1.log[|s.log|] == Entry(|s.log|, s.currentTerm, command)
              && s1 == s.(log := s1.log)
  {
  }

  /** The message to a peer names the entry before its nextIndex and carries all from
      there on. */
  lemma MessageIsSuffix(s: Node, peer: int, args: AppendArgs)
    requires Sane(s) && 0 <= peer < |s.nextIndex| && 1 <= s.nextIndex[peer] <= |s.log|
    requires args == MakeAppend(s, peer)
    ensures args.term == s.currentTerm && args.leaderId == s.id && args.leaderCommit == s.commitIndex
    ensures args.prevLogIndex == s.nextIndex[peer] - 1 && args.prevLogTerm == s.log[args.prevLogIndex].term
    ensures s.log[..args.prevLogIndex + 1] + args.entries == s.log
  {
    assert Slice(s.log, s.nextIndex[peer], |s.log|) == s.log[s.nextIndex[peer]..];
  }

  /** The reply is of this leadership and not outdated. */
  predicate Current(s: Node, args: AppendArgs, reply: AppendReply) {
    reply.term <= s.currentTerm && s.role == Leader && s.currentTerm == args.term
  }

  /** A success that reaches beyond the match raises the match to the message's end and
      puts nextIndex right behind it, however long the log has become; any other success
      leaves both. A rejection lowers nextIndex by one, but not below 1. Other peers'
      progress, the log and the term stay, and only a success can move the commit index. */
  lemma ReplyMovesProgress(s: Node, peer: int, args: AppendArgs, reply: AppendReply, s1: Node)
    requires Sane(s) && 0 <= peer < |s.nextIndex| && s1 == OnAppendReply(s, peer, args, reply)
    ensures reply.term > s.currentTerm ==>
              s1 == s.(currentTerm := reply.term, role := Follower, votedFor := -1)
    ensures reply.term <= s.currentTerm && !Current(s, args, reply) ==> s1 == s
    ensures Current(s, args, reply) ==>
              && |s1.matchIndex| == |s.matchIndex| && |s1.nextIndex| == |s.nextIndex|
              && (forall q :: 0 <= q < |s.nextIndex| && q != peer ==>
                    s1.matchIndex[q] == s.matchIndex[q] && s1.nextIndex[q] == s.nextIndex[q])
              && s1 == s.(matchIndex := s1.matchIndex, nextIndex := s1.nextIndex, commitIndex := s1.commitIndex)
    ensures Current(s, args, reply) && reply.success && args.prevLogIndex + |args.entries| > s.matchIndex[peer] ==>
              && s1.matchIndex[peer] == args.prevLogIndex + |args.entries|
              && s1.nextIndex[peer] == args.prevLogIndex + |args.entries| + 1
    ensures Current(s, args, reply) && reply.success && args.prevLogIndex + |args.entries| <= s.matchIndex[peer] ==>
              s1.matchIndex[peer] == s.matchIndex[peer] && s1.nextIndex[peer] == s.nextIndex[peer]
    ensures Current(s, args, reply) && !reply.success ==>
              && s1.matchIndex[peer] == s.matchIndex[peer] && s1.commitIndex == s.commitIndex
              && s1.nextIndex[peer] == (if s.nextIndex[peer] > 1 then s.nextIndex[peer] - 1 else s.nextIndex[peer])
  {
  }

  /** The apply loop hands out the entry after the last, exactly if it is committed. */
  lemma AppliesIff(s: Node, s1: Node)
    requires Sane(s) && s1 == ApplyNext(s) && s.commitIndex <= |s.log| - 1
    ensures s.lastApplied >= s.commitIndex ==> s1 == s
    ensures s.lastApplied < s.commitIndex ==>
              && s1.lastApplied == s.lastApplied + 1
              && s1.stream == s.stream + [ApplyMsg(s.lastApplied + 1, s.log[s.lastApplied + 1].term,
                                                   s.log[s.lastApplied + 1].command)]
              && s1 == s.(lastApplied := s1.lastApplied, stream := s1.stream)
  {
  }
}
