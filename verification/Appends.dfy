/** The invariant survives the steps that replicate, commit and apply entries. */
module Appends {
  import opened RaftLog
  import opened RaftNode
  import opened Cluster
  import opened Sets
  import opened Invariant
  import opened Completeness
  import opened Growth
  import opened Elections

  // ---- SendAppend ------------------------------------------------------------

  lemma MakeAppendOk(h: History, n: nat, s: Node, peer: int)
    requires HistoryOk(h, n) && NodeOk(h, n, s.id, s) && s.role == Leader
    requires s.id in Range(n) && peer in Range(n) && peer != s.id
    ensures AppendOk(h, n, AppendMsg(peer, MakeAppend(s, peer)))
    ensures MakeAppend(s, peer).prevLogIndex + |MakeAppend(s, peer).entries| == LastIndexOf(s.log)
  {
    assert TermLogOk(h.termLog, s.currentTerm);
    assert Slice(s.log, s.nextIndex[peer], |s.log|) == s.log[s.nextIndex[peer]..];
  }

  lemma SendAppendStepOk(s: State, i: int, peer: int)
    requires Inv(s) && Enabled(s, SendAppend(i, peer))
    ensures RunsThrough(s, SendAppend(i, peer)) && Inv(Do(s, SendAppend(i, peer)))
  {
    MakeAppendOk(s.past, |s.nodes|, s.nodes[i], peer);
  }

  // ---- ReceiveAppend ---------------------------------------------------------

  /** The leader's entries in place of everything from the first mismatch on. */
  lemma OverlayAgrees(log: seq<Entry>, leader: seq<Entry>, prev: nat, entries: seq<Entry>, k: nat, merged: seq<Entry>)
    requires k < |entries| && prev + |entries| < |leader| && Agree(log, leader, prev + k)
    requires forall i :: 0 <= i < |entries| ==> entries[i] == leader[prev + 1 + i]
    requires merged == log[..prev + 1 + k] + entries[k..]
    ensures |merged| == prev + |entries| + 1 && Agree(merged, leader, prev + |entries|)
  {
    forall i | 0 <= i <= prev + |entries| ensures merged[i] == leader[i] {
      if i > prev + k {
        assert merged[i] == entries[i - prev - 1];
      }
    }
  }

  /** Merging a stretch of the leader's log into a log that agrees with it up to
      the first mismatch. */
  lemma MergeOverlay(log: seq<Entry>, leader: seq<Entry>, prev: nat, entries: seq<Entry>)
    requires prev < |log| && prev + |entries| < |leader|
    requires forall i :: 0 <= i < |entries| ==> entries[i] == leader[prev + 1 + i]
    requires Agree(log, leader, prev + FirstMismatch(log, prev + 1, entries))
    ensures var merged := Merge(log, prev, entries);
            && Agree(merged, leader, prev + |entries|)
            && (merged == log
                || (|merged| == prev + |entries| + 1 && !Agree(log, leader, prev + |entries|)))
  {
    var k := FirstMismatch(log, prev + 1, entries);
    var merged := Merge(log, prev, entries);
    MergeEffect(log, prev, entries, k);
    hide Merge, FirstMismatch;
    if k < |entries| {
      OverlayAgrees(log, leader, prev, entries, k, merged);
      assert entries[k] == leader[prev + 1 + k];
      assert !Agree(log, leader, prev + |entries|);
    }
  }

  /** A log that passes the consistency check agrees with the sender's up to the
      first mismatch. */
  lemma AgreeUpToMismatch(h: History, n: nat, log: seq<Entry>, m: AppendMsg, k: nat)
    requires TermsOk(h, n) && AllRooted(h.termLog, log) && AppendOk(h, n, m)
    requires Consistent(log, m.args.prevLogIndex, m.args.prevLogTerm)
    requires m.args.prevLogIndex < |log|
    requires k == FirstMismatch(log, m.args.prevLogIndex + 1, m.args.entries)
    ensures Agree(log, h.termLog[m.args.term], m.args.prevLogIndex + k)
  {
    var (prev, entries) := (m.args.prevLogIndex, m.args.entries);
    assert TermLogOk(h.termLog, m.args.term);
    RootedShape(h, n, log);
    assert k > 0 ==> log[prev + 1 + (k - 1)].term == entries[k - 1].term;
    RootedLogsMatch(h.termLog, log, h.termLog[m.args.term], prev + k);
  }

  /** The merge of a consistent message yields the sender's log up to the end of
      the message, and cuts something off only when the logs disagree there. */
  lemma MergeOk(h: History, n: nat, log: seq<Entry>, m: AppendMsg)
    requires TermsOk(h, n) && AllRooted(h.termLog, log) && AppendOk(h, n, m)
    requires Consistent(log, m.args.prevLogIndex, m.args.prevLogTerm)
    ensures m.args.prevLogIndex < |log|
    ensures var merged := Merge(log, m.args.prevLogIndex, m.args.entries);
            var end := m.args.prevLogIndex + |m.args.entries|;
            && Agree(merged, h.termLog[m.args.term], end)
            && (merged == log || (|merged| == end + 1 && !Agree(log, h.termLog[m.args.term], end)))
  {
    AgreeUpToMismatch(h, n, log, m, FirstMismatch(log, m.args.prevLogIndex + 1, m.args.entries));
    MergeOverlay(log, h.termLog[m.args.term], m.args.prevLogIndex, m.args.entries);
  }

  /** What a merged log still retains of every older term's log. */
  lemma MergedRetains(h: History, n: nat, p: int, log: seq<Entry>, log': seq<Entry>, c: int, u: int, end: int,
                      t: int, k: int)
    requires HistoryOk(h, n) && LogOk(h, n, p, log, c, u)
    requires u in h.termLog && 0 <= end && Agree(log', h.termLog[u], end)
    requires log' == log || (|log'| == end + 1 && !Agree(log, h.termLog[u], end))
    requires Acked(h, t, p) >= 0 ==> t <= u
    ensures LogRetains(h, p, log', u, t, k)
  {
    assert LogRetains(h, p, log, u, t, k);
    if 0 <= k <= Acked(h, t, p) && log' != log {
      assert AckOk(h, n, t, p);
    }
  }

  lemma MergedLogOk(h: History, n: nat, p: int, log: seq<Entry>, log': seq<Entry>, c: int, u: int, end: int)
    requires HistoryOk(h, n) && LogOk(h, n, p, log, c, u)
    requires u in h.termLog && 0 <= end && Agree(log', h.termLog[u], end)
    requires log' == log || (|log'| == end + 1 && !Agree(log, h.termLog[u], end))
    requires forall t :: Acked(h, t, p) >= 0 ==> t <= u
    ensures LogOk(h, n, p, log', c, u)
    ensures Agree(log, log', c)
  {
    assert TermLogOk(h.termLog, u);
    SafeReaches(h, n, log, c, u, u);
    SafeMoves(h, n, log, log', c, u);
    if log' != log {
      PrefixRooted(h.termLog, h.termLog[u], log');
    }
    forall t, k {:trigger LogRetains(h, p, log', u, t, k)} ensures LogRetains(h, p, log', u, t, k) {
      MergedRetains(h, n, p, log, log', c, u, end, t, k);
    }
  }

  /** A node that agrees with its leader up to end may confirm that much. */
  lemma ConfirmedLogOk(h: History, h': History, n: nat, p: int, log: seq<Entry>, c: int, u: int, end: int)
    requires HistoryOk(h, n) && LogOk(h, n, p, log, c, u)
    requires Grows(h, h') && h'.termLog == h.termLog
    requires u in h.termLog && Agree(log, h.termLog[u], end)
    requires forall t :: t != u ==> Acked(h', t, p) == Acked(h, t, p)
    requires Acked(h', u, p) <= end
    ensures LogOk(h', n, p, log, c, u)
  {
    SafeGrows(h, h', n, log, c, u, u);
    RootedGrows(h, h', log);
    forall t, k {:trigger LogRetains(h', p, log, u, t, k)} ensures LogRetains(h', p, log, u, t, k) {
      if 0 <= k <= Acked(h', t, p) && t in h'.termLog && t != u {
        assert AckOk(h, n, t, p) && LogRetains(h, p, log, u, t, k);
        RetainedGrows(h, h', n, t, k, log, u, u);
      }
    }
  }

  /** How far node p has confirmed the log of term t after accepting up to end. */
  ghost function Confirm(h: History, t: int, p: int, end: int): History {
    if end > Acked(h, t, p) then h.(acked := h.acked[(t, p) := end]) else h
  }

  /** The history and the log after node p accepted a message from the leader of
      term u, log' being the merged log. */
  lemma AcceptOk(h: History, h': History, n: nat, p: int,
                 log: seq<Entry>, log': seq<Entry>, c: int, u: int, end: int)
    requires h' == Confirm(h, u, p, end)
    requires HistoryOk(h, n) && LogOk(h, n, p, log, c, u) && p in Range(n)
    requires u in h.leaders && h.leaders[u].leader != p && u in h.termLog
    requires 0 <= end && Agree(log', h.termLog[u], end)
    requires log' == log || (|log'| == end + 1 && !Agree(log, h.termLog[u], end))
    requires forall t :: Acked(h, t, p) >= 0 ==> t <= u
    requires forall t :: (t, p) in h.votes ==> t <= u
    ensures HistoryOk(h', n) && Grows(h, h') && OnlyAbout(h, h', p)
    ensures LogOk(h', n, p, log', c, u)
    ensures Agree(log, log', c)
  {
    MergedLogOk(h, n, p, log, log', c, u, end);
    if end > Acked(h, u, p) {
      RaiseAck(h, n, u, p, end);
      ConfirmedLogOk(h, h', n, p, log', c, u, end);
    }
  }

  /** The clamp to LastIndex never bites: an accepted message reaches as far as
      the commit index it announces. */
  lemma FollowerCommitOk(h: History, n: nat, p: int, log: seq<Entry>, c: int, m: AppendMsg)
    requires LogOk(h, n, p, log, c, m.args.term) && AppendOk(h, n, m)
    requires Agree(log, h.termLog[m.args.term], m.args.prevLogIndex + |m.args.entries|)
    ensures m.args.leaderCommit <= LastIndexOf(log)
    ensures LogOk(h, n, p, log, m.args.leaderCommit, m.args.term)
  {
    SafeMoves(h, n, h.termLog[m.args.term], log, m.args.leaderCommit, m.args.term);
  }

  /** A follower or candidate takes over a log and a commit index. */
  lemma FollowerTakesLog(h: History, h': History, n: nat, s: Node, log': seq<Entry>, c': int)
    requires NodeOk(h, n, s.id, s) && s.role != Leader && s.currentTerm in h.leaders
    requires h'.votes == h.votes && h'.leaders == h.leaders
    requires forall t :: Acked(h', t, s.id) >= 0 ==> t <= s.currentTerm
    requires LogOk(h', n, s.id, log', c', s.currentTerm)
    requires Agree(s.log, log', s.commitIndex) && s.commitIndex <= c'
    ensures NodeOk(h', n, s.id, s.(log := log', commitIndex := c'))
  {
  }

  lemma NotItsOwnFollower(h: History, n: nat, s: Node, m: AppendMsg)
    requires NodeOk(h, n, s.id, s) && AppendOk(h, n, m) && s.id == m.to && s.currentTerm == m.args.term
    ensures s.role != Leader
  {
  }

  lemma AcceptedNodeOk(h: History, h': History, n: nat, s: Node, m: AppendMsg, log': seq<Entry>, c': int)
    requires h' == Confirm(h, m.args.term, m.to, m.args.prevLogIndex + |m.args.entries|)
    requires HistoryOk(h, n) && NodeOk(h, n, s.id, s) && AppendOk(h, n, m) && s.id == m.to
    requires s.currentTerm == m.args.term
    requires var end := m.args.prevLogIndex + |m.args.entries|;
             && Agree(log', h.termLog[m.args.term], end)
             && (log' == s.log || (|log'| == end + 1 && !Agree(s.log, h.termLog[m.args.term], end)))
    requires c' == if m.args.leaderCommit > s.commitIndex then m.args.leaderCommit else s.commitIndex
    ensures HistoryOk(h', n) && Grows(h, h') && OnlyAbout(h, h', s.id)
    ensures NodeOk(h', n, s.id, s.(log := log', commitIndex := c'))
  {
    hide HistoryOk, LogOk, LeaderOk, CandidateOk;
    var end := m.args.prevLogIndex + |m.args.entries|;
    NotItsOwnFollower(h, n, s, m);
    AcceptOk(h, h', n, s.id, s.log, log', s.commitIndex, s.currentTerm, end);
    AppendGrows(h, h', n, m);
    FollowerCommitOk(h', n, s.id, log', s.commitIndex, m);
    FollowerTakesLog(h, h', n, s, log', c');
  }

  /** A message of the node's own term either fails the consistency check and
      changes nothing, or is merged, and its commit index taken over unclamped. */
  lemma OnAppendResult(h: History, n: nat, s: Node, m: AppendMsg)
    requires TermsOk(h, n) && NodeOk(h, n, s.id, s) && AppendOk(h, n, m)
    requires s.currentTerm == m.args.term && WellFormedAppend(m.args)
    ensures var (s1, reply) := OnAppend(s, m.args);
            var end := m.args.prevLogIndex + |m.args.entries|;
            && reply.term == s.currentTerm
            && (!reply.success ==> s1 == s)
            && (reply.success ==>
                  && s1 == s.(log := s1.log, commitIndex := s1.commitIndex)
                  && Agree(s1.log, h.termLog[m.args.term], end)
                  && (s1.log == s.log || (|s1.log| == end + 1 && !Agree(s.log, h.termLog[m.args.term], end)))
                  && s1.commitIndex
                     == if m.args.leaderCommit > s.commitIndex then m.args.leaderCommit else s.commitIndex)
  {
    if Consistent(s.log, m.args.prevLogIndex, m.args.prevLogTerm) {
      MergeOk(h, n, s.log, m);
    }
  }

  lemma AppendIsWellFormed(h: History, n: nat, m: AppendMsg)
    requires TermsOk(h, n) && AppendOk(h, n, m)
    ensures WellFormedAppend(m.args)
  {
    assert TermLogOk(h.termLog, m.args.term);
  }

  /** What a message of the receiver's own term does to node and history. */
  lemma SameTermAppendOk(h: History, h': History, n: nat, s: Node, s1: Node, reply: AppendReply, m: AppendMsg)
    requires HistoryOk(h, n) && NodeOk(h, n, s.id, s) && AppendOk(h, n, m) && s.id == m.to
    requires s.currentTerm == m.args.term && WellFormedAppend(m.args)
    requires (s1, reply) == OnAppend(s, m.args)
    requires h' == if reply.success then Confirm(h, m.args.term, m.to, m.args.prevLogIndex + |m.args.entries|) else h
    ensures HistoryOk(h', n) && Grows(h, h') && OnlyAbout(h, h', s.id)
    ensures NodeOk(h', n, s.id, s1)
  {
    OnAppendResult(h, n, s, m);
    if reply.success {
      AcceptedNodeOk(h, h', n, s, m, s1.log, s1.commitIndex);
    }
  }

  lemma ReceiverOk(h: History, h': History, n: nat, s: Node, s1: Node, reply: AppendReply, m: AppendMsg)
    requires HistoryOk(h, n) && NodeOk(h, n, s.id, s) && AppendOk(h, n, m) && s.id == m.to
    requires WellFormedAppend(m.args) && (s1, reply) == OnAppend(s, m.args)
    requires h' == if reply.success then Confirm(h, m.args.term, m.to, m.args.prevLogIndex + |m.args.entries|) else h
    ensures HistoryOk(h', n) && Grows(h, h') && OnlyAbout(h, h', s.id)
    ensures NodeOk(h', n, s.id, s1)
  {
    if m.args.term > s.currentTerm {
      BecomeFollowerOk(h, n, s.id, s, m.args.term);
      SameTermAppendOk(h, h', n, BecomeFollower(s, m.args.term), s1, reply, m);
    } else if m.args.term == s.currentTerm {
      SameTermAppendOk(h, h', n, s, s1, reply, m);
    }
  }

  lemma ReceiverKnown(s: State, m: AppendMsg)
    requires TermsOk(s.past, |s.nodes|) && NodesOk(s) && AppendingOk(s)
    requires Enabled(s, ReceiveAppend(m))
    ensures RunsThrough(s, ReceiveAppend(m)) && Sane(s.nodes[m.to]) && s.nodes[m.to].id == m.to
    ensures NodeOk(s.past, |s.nodes|, m.to, s.nodes[m.to]) && AppendOk(s.past, |s.nodes|, m)
  {
    AppendIsWellFormed(s.past, |s.nodes|, m);
    assert NodeOk(s.past, |s.nodes|, m.to, s.nodes[m.to]);
  }

  lemma ReceiveAppendStepOk(s: State, m: AppendMsg)
    requires Inv(s) && Enabled(s, ReceiveAppend(m))
    ensures RunsThrough(s, ReceiveAppend(m)) && Inv(DoAppend(s, m)) && Grows(s.past, DoAppend(s, m).past)
  {
    assert TermsOk(s.past, |s.nodes|);
    hide TermsOk, HistoryOk, NodesOk, VotingOk, AppendingOk, NodeOk, AppendOk, Grows, OnlyAbout, OnAppend;
    ReceiverKnown(s, m);
    var n, node, s' := |s.nodes|, s.nodes[m.to], DoAppend(s, m);
    var (node', reply) := OnAppend(node, m.args);
    ReceiverOk(s.past, s'.past, n, node, node', reply, m);
    OthersOk(s, s', m.to);
    VotingGrows(s, s');
    AppendAnswersOk(s, s', AppendAnswer(m.to, m.args, reply));
  }

  lemma AppendAnswersOk(s: State, s': State, a: AppendAnswer)
    requires AppendingOk(s) && Grows(s.past, s'.past) && |s'.nodes| == |s.nodes|
    requires AppendOk(s.past, |s.nodes|, AppendMsg(a.from, a.args))
    requires a.reply.success ==> a.args.prevLogIndex + |a.args.entries| <= Acked(s'.past, a.args.term, a.from)
    requires s'.appends == s.appends && s'.appendAnswers == s.appendAnswers + {a}
    ensures AppendingOk(s')
  {
    AppendingGrows(s, s'.(appendAnswers := s.appendAnswers));
    AppendGrows(s.past, s'.past, |s.nodes|, AppendMsg(a.from, a.args));
  }

  // ---- ReceiveAppendAnswer ---------------------------------------------------

  /** What a leader believes matched has been confirmed. */
  lemma MatchedAreAckers(h: History, n: nat, s: Node, k: int)
    requires HistoryOk(h, n) && NodeOk(h, n, s.id, s) && s.role == Leader && s.id in Range(n)
    requires 1 <= k < |s.log|
    ensures Matched(s, k) <= Ackers(h, n, s.currentTerm, k)
  {
    assert VictoryOk(h, n, s.currentTerm);
  }

  /** Section 5.4.2: what advanceCommitIndex commits is committed. */
  lemma AdvanceCommitOk(h: History, n: nat, s: Node)
    requires HistoryOk(h, n) && NodeOk(h, n, s.id, s) && s.role == Leader && s.id in Range(n)
    ensures NodeOk(h, n, s.id, AdvanceCommit(s))
    ensures var k := AdvanceCommit(s).commitIndex;
            k > s.commitIndex ==> Committed(h, n, s.currentTerm, k)
  {
    var k := HighestCommittable(s, LastIndexOf(s.log));
    if k > s.commitIndex {
      MatchedAreAckers(h, n, s, k);
      SubsetIsNoLarger(Matched(s, k), Ackers(h, n, s.currentTerm, k));
      QuorumIsMajority(n, Matched(s, k));
      assert SafeBy(h, n, s.log, k, s.currentTerm, k);
    }
  }

  lemma ProgressOk(h: History, n: nat, s: Node, peer: int, newMatch: int)
    requires HistoryOk(h, n) && NodeOk(h, n, s.id, s) && s.role == Leader && 0 <= peer < n
    requires 0 <= newMatch < |s.log| && newMatch <= Acked(h, s.currentTerm, peer)
    ensures NodeOk(h, n, s.id, Progress(s, peer, newMatch))
  {
  }

  lemma BackUpOk(h: History, n: nat, s: Node, peer: int)
    requires NodeOk(h, n, s.id, s) && s.role == Leader && 0 <= peer < n && s.nextIndex[peer] > 1
    ensures NodeOk(h, n, s.id, s.(nextIndex := s.nextIndex[peer := s.nextIndex[peer] - 1]))
  {
  }

  lemma SuccessReplyOk(h: History, n: nat, s: Node, s1: Node, s2: Node, peer: int, newMatch: int)
    requires HistoryOk(h, n) && NodeOk(h, n, s.id, s) && s.role == Leader && s.id in Range(n)
    requires 0 <= peer < n && 0 <= newMatch < |s.log| && newMatch <= Acked(h, s.currentTerm, peer)
    requires s1 == Progress(s, peer, newMatch) && s2 == AdvanceCommit(s1)
    ensures NodeOk(h, n, s.id, s2)
  {
    ProgressOk(h, n, s, peer, newMatch);
    AdvanceCommitOk(h, n, s1);
  }

  lemma AppendReplyOk(h: History, n: nat, s: Node, s1: Node, a: AppendAnswer)
    requires HistoryOk(h, n) && NodeOk(h, n, s.id, s) && s.id in Range(n)
    requires AppendAnswerOk(h, n, a) && a.args.leaderId == s.id
    requires s1 == OnAppendReply(s, a.from, a.args, a.reply)
    ensures NodeOk(h, n, s.id, s1)
  {
    hide HistoryOk, LogOk;
    var end := a.args.prevLogIndex + |a.args.entries|;
    if a.reply.term > s.currentTerm {
      BecomeFollowerOk(h, n, s.id, s, a.reply.term);
    } else if s.role == Leader && s.currentTerm == a.args.term {
      if a.reply.success {
        SuccessReplyOk(h, n, s, Progress(s, a.from, end), s1, a.from, end);
      } else if s.nextIndex[a.from] > 1 {
        BackUpOk(h, n, s, a.from);
      }
    }
  }

  lemma AppendAnswerStepOk(s: State, a: AppendAnswer)
    requires Inv(s) && Enabled(s, ReceiveAppendAnswer(a))
    ensures RunsThrough(s, ReceiveAppendAnswer(a)) && Inv(Do(s, ReceiveAppendAnswer(a)))
  {
    var n, i := |s.nodes|, a.args.leaderId;
    assert AppendAnswerOk(s.past, n, a);
    var s' := Do(s, ReceiveAppendAnswer(a));
    AppendReplyOk(s.past, n, s.nodes[i], s'.nodes[i], a);
    OthersOk(s, s', i);
    AppendingGrows(s, s');
    VotingGrows(s, s');
  }

  // ---- Submit and Apply ------------------------------------------------------

  lemma SubmissionRecorded(h: History, h': History, n: nat, s: Node, s1: Node, command: string)
    requires HistoryOk(h, n) && NodeOk(h, n, s.id, s) && s.role == Leader && s.id in Range(n)
    requires s1 == StartCommand(s, command) && h' == RecordLog(h, s1)
    ensures Grows(h, h') && OnlyAbout(h, h', s.id)
    ensures s.currentTerm in h.termLog && h.termLog[s.currentTerm] == s.log
  {
    assert VictoryOk(h, n, s.currentTerm);
  }

  lemma SubmitterLeads(h: History, n: nat, s: Node, s1: Node, command: string)
    requires HistoryOk(h, n) && NodeOk(h, n, s.id, s) && s.role == Leader && s.id in Range(n)
    requires s1 == StartCommand(s, command)
    ensures Leads(h, n, s1, s.log)
  {
    assert VictoryOk(h, n, s.currentTerm);
  }

  lemma VictoryGrows(h: History, h': History, n: nat, s: Node, s1: Node, command: string)
    requires TermsOk(h, n) && Sane(s) && s.role == Leader && LastTermOf(s.log) <= s.currentTerm
    requires s.currentTerm in h.leaders && h.leaders[s.currentTerm].leader == s.id
    requires h.termLog[s.currentTerm] == s.log
    requires s1 == StartCommand(s, command) && h' == RecordLog(h, s1)
    ensures VictoryOk(h', n, s.currentTerm)
  {
    assert VictoryOk(h, n, s.currentTerm);
  }

  lemma LeaderAppendsOk(h: History, h': History, n: nat, s: Node, s1: Node, command: string)
    requires HistoryOk(h, n) && NodeOk(h, n, s.id, s) && s.role == Leader && s.id in Range(n)
    requires s1 == StartCommand(s, command) && h' == RecordLog(h, s1)
    ensures HistoryOk(h', n) && Grows(h, h') && OnlyAbout(h, h', s.id) && NodeOk(h', n, s.id, s1)
  {
    SubmissionRecorded(h, h', n, s, s1, command);
    SubmitterLeads(h, n, s, s1, command);
    VictoryGrows(h, h', n, s, s1, command);
    RecordLogKeeps(h, h', n, s1, s.log);
    LeaderLogOk(h, h', n, s1, s.log);
  }

  lemma ActorKnown(s: State, i: int)
    requires NodesOk(s) && 0 <= i < |s.nodes|
    ensures NodeOk(s.past, |s.nodes|, i, s.nodes[i]) && Sane(s.nodes[i]) && s.nodes[i].id == i
    ensures |s.nodes[i].nextIndex| == |s.nodes|
  {
    assert NodeOk(s.past, |s.nodes|, i, s.nodes[i]);
  }

  lemma SubmitStepOk(s: State, i: int, command: string)
    requires Inv(s) && Enabled(s, Submit(i, command))
    ensures Inv(DoSubmit(s, i, command)) && Grows(s.past, DoSubmit(s, i, command).past)
  {
    ActorKnown(s, i);
    var s' := DoSubmit(s, i, command);
    if s.nodes[i].role == Leader {
      LeaderAppendsOk(s.past, s'.past, |s.nodes|, s.nodes[i], s'.nodes[i], command);
    }
    OthersOk(s, s', i);
    AppendingGrows(s, s');
    VotingGrows(s, s');
  }

  lemma ApplyOk(h: History, n: nat, s: Node)
    requires NodeOk(h, n, s.id, s)
    ensures NodeOk(h, n, s.id, ApplyNext(s))
  {
  }

  lemma ApplyStepOk(s: State, i: int)
    requires Inv(s) && Enabled(s, Apply(i))
    ensures Inv(Do(s, Apply(i)))
  {
    assert TermsOk(s.past, |s.nodes|);
    hide TermsOk, HistoryOk, NodesOk, VotingOk, AppendingOk, NodeOk, Grows, OnlyAbout;
    ActorKnown(s, i);
    var s' := Do(s, Apply(i));
    ApplyOk(s.past, |s.nodes|, s.nodes[i]);
    SamePast(s.past);
    NoNews(s.past, |s.nodes|, i);
    OthersOk(s, s', i);
    AppendingGrows(s, s');
    VotingGrows(s, s');
  }

  // ---- any step --------------------------------------------------------------

  /** No enabled step of a state that satisfies the invariant can fail. */
  lemma EnabledRunsThrough(s: State, step: Step)
    requires Inv(s) && Enabled(s, step)
    ensures RunsThrough(s, step)
  {
    match step
    case ReceiveAppend(m) => ReceiveAppendStepOk(s, m);
    case ReceiveAppendAnswer(a) => AppendAnswerStepOk(s, a);
    case _ => ActorKnown(s, Actor(step));
  }

  lemma StepOk(s: State, step: Step)
    requires Inv(s) && Enabled(s, step) && RunsThrough(s, step)
    ensures Inv(Do(s, step)) && Grows(s.past, Do(s, step).past)
  {
    match step
    case Elect(i) => ElectOk(s, i);
    case ReceiveVoteRequest(i, req) => VoteRequestStepOk(s, i, req);
    case ReceiveVoteAnswer(a) => VoteAnswerStepOk(s, a);
    case SendAppend(i, peer) => SendAppendStepOk(s, i, peer);
    case ReceiveAppend(m) => ReceiveAppendStepOk(s, m);
    case ReceiveAppendAnswer(a) => AppendAnswerStepOk(s, a);
    case Submit(i, command) => SubmitStepOk(s, i, command);
    case Apply(i) => ApplyStepOk(s, i);
  }
}
