/** What every run promises about elections in progress, messages in flight and
    the leader's bookkeeping. A few lemmas speak of the recorded past: of who voted
    for whom, and of the log that the leader of a term ever had. */
module Replication {
  import opened RaftLog
  import opened RaftNode
  import opened Cluster
  import opened Invariant
  import opened Completeness
  import opened Elections
  import opened Appends
  import opened Safety

  // ---- no step ever fails ------------------------------------------------------

  /** Whatever step a run may take next runs to its end; in particular Log.Append
      never panics and no peer index is out of range. */
  lemma NoPanic(n: nat, run: seq<State>, i: nat, step: Step)
    requires IsRun(n, run) && i < |run| && Enabled(run[i], step)
    ensures RunsThrough(run[i], step)
  {
    RunOk(n, run, i);
    EnabledRunsThrough(run[i], step);
  }

  // ---- the candidate's log -----------------------------------------------------

  /** A candidate that wins still has the log it asked votes for, although the code
      lets a leader of the same term rewrite a candidate's log. */
  lemma WinnerKeptItsLog(n: nat, run: seq<State>, i: nat, j: nat, p: nat)
    requires IsRun(n, run) && i < j < |run| - 1 && p < n
    requires |run[i].nodes| == n && |run[i + 1].nodes| == n && |run[j].nodes| == n && |run[j + 1].nodes| == n
    requires Sane(run[i].nodes[p]) && run[i].nodes[p].role != Leader && run[i + 1] == DoElect(run[i], p)
    requires run[j].nodes[p].role == Candidate && run[j + 1].nodes[p].role == Leader
    requires run[j].nodes[p].currentTerm == run[i + 1].nodes[p].currentTerm
    ensures run[j].nodes[p].log == run[i].nodes[p].log
    ensures run[j + 1].nodes[p].log
         == run[i].nodes[p].log + [Entry(|run[i].nodes[p].log|, run[j].nodes[p].currentTerm, NOOP)]
  {
    var t := run[j].nodes[p].currentTerm;
    RunOk(n, run, j);
    RunGrows(n, run, i + 1, j);
    assert run[i + 1].past.votes[(t, p)] == Vote(p, run[i].nodes[p].log);
    assert NodeOk(run[j].past, n, p, run[j].nodes[p]);
    OnlyAVoteElects(n, run, j, p);
  }

  /** A candidate becomes leader only on counting a vote that completes a quorum. */
  lemma WhatElects(s: State, s': State, step: Step, p: nat)
    requires Enabled(s, step) && RunsThrough(s, step) && s' == Do(s, step)
    requires p < |s.nodes| == |s'.nodes|
    requires s.nodes[p].role == Candidate && s'.nodes[p].role == Leader
    ensures step.ReceiveVoteAnswer?
    ensures var a := step.voteAnswer;
            && a.args.candidateId == p && a.args.term == s.nodes[p].currentTerm && a.reply.granted
            && s.campaigns[(a.args.term, p)].votes + 1 >= QuorumOf(|s.nodes|)
            && s'.nodes[p] == BecomeLeader(s.nodes[p])
  {
  }

  /** In every run, a candidate wins only a term that no node has led before, and
      adds the no-op alone to its log. */
  lemma OnlyAVoteElects(n: nat, run: seq<State>, j: nat, p: nat)
    requires IsRun(n, run) && j + 1 < |run| && p < n
    requires |run[j].nodes| == n && |run[j + 1].nodes| == n
    requires run[j].nodes[p].role == Candidate && run[j + 1].nodes[p].role == Leader
    ensures forall k, q :: 0 <= k <= j && 0 <= q < |run[k].nodes| && run[k].nodes[q].role == Leader ==>
              run[k].nodes[q].currentTerm != run[j].nodes[p].currentTerm
    ensures run[j].nodes[p].currentTerm !in run[j].past.leaders
    ensures run[j + 1].nodes[p].log
         == run[j].nodes[p].log + [Entry(|run[j].nodes[p].log|, run[j].nodes[p].currentTerm, NOOP)]
  {
    var s, s' := run[j], run[j + 1];
    RunOk(n, run, j);
    RunStep(n, run, j);
    var step :| Enabled(s, step) && RunsThrough(s, step) && s' == Do(s, step);
    WhatElects(s, s', step, p);
    var c := s.campaigns[(step.voteAnswer.args.term, p)];
    var electors := c.counted + {step.voteAnswer.voter} + {p};
    CountedVotesAreMajority(n, run, j, step.voteAnswer, p, electors);
    assert NodeOk(s.past, n, p, s.nodes[p]);
    NobodyWonYet(s.past, n, s.nodes[p], electors);
    forall k, q | 0 <= k <= j && 0 <= q < |run[k].nodes| && run[k].nodes[q].role == Leader
      ensures run[k].nodes[q].currentTerm != s.nodes[p].currentTerm
    {
      LeadersAreRecorded(n, run, k, j, q);
    }
  }

  lemma LeadersAreRecorded(n: nat, run: seq<State>, k: nat, j: nat, q: nat)
    requires IsRun(n, run) && k <= j < |run| && q < |run[k].nodes| && run[k].nodes[q].role == Leader
    ensures run[k].nodes[q].currentTerm in run[j].past.leaders
  {
    RunOk(n, run, k);
    RunGrows(n, run, k, j);
    assert NodeOk(run[k].past, n, q, run[k].nodes[q]);
  }

  /** Node q has granted its vote of term t to c. */
  ghost predicate Granted(s: State, t: int, c: int, q: int) {
    exists a :: a in s.voteAnswers && GrantedBy(a, t, c, q)
  }

  predicate GrantedBy(a: VoteAnswer, t: int, c: int, q: int) {
    a.voter == q && a.args.term == t && a.args.candidateId == c && a.reply.granted
  }

  ghost predicate CountedGranted(s: State) {
    forall t, c, q {:trigger Granted(s, t, c, q)} ::
      (t, c) in s.campaigns && q in s.campaigns[(t, c)].counted ==> Granted(s, t, c, q)
  }

  lemma StepKeepsCounted(s: State, s': State, step: Step)
    requires Enabled(s, step) && RunsThrough(s, step) && s' == Do(s, step) && CountedGranted(s)
    ensures CountedGranted(s')
  {
    forall t, c, q {:trigger Granted(s', t, c, q)} |
      (t, c) in s'.campaigns && q in s'.campaigns[(t, c)].counted
      ensures Granted(s', t, c, q)
    {
      if (t, c) in s.campaigns && q in s.campaigns[(t, c)].counted {
        assert Granted(s, t, c, q);
        var a :| a in s.voteAnswers && GrantedBy(a, t, c, q);
        assert a in s'.voteAnswers;
      } else {
        assert step.ReceiveVoteAnswer? && GrantedBy(step.voteAnswer, t, c, q);
      }
    }
  }

  lemma {:induction false} CountedWereGranted(n: nat, run: seq<State>, i: nat)
    requires IsRun(n, run) && i < |run|
    ensures CountedGranted(run[i])
  {
    if i > 0 {
      CountedWereGranted(n, run, i - 1);
      RunStep(n, run, i - 1);
      if run[i] != run[i - 1] {
        var step :| Enabled(run[i - 1], step) && RunsThrough(run[i - 1], step) && run[i] == Do(run[i - 1], step);
        StepKeepsCounted(run[i - 1], run[i], step);
      }
    }
  }

  /** When a vote reply makes the counter reach the quorum, in any run, the counter
      is the number of distinct nodes that voted for the candidate in its term, its
      own vote included, and these are a majority of the cluster. */
  lemma CountedVotesAreMajority(n: nat, run: seq<State>, i: nat, a: VoteAnswer, p: nat, electors: set<int>)
    requires IsRun(n, run) && i < |run| && Enabled(run[i], ReceiveVoteAnswer(a)) && a.reply.granted
    requires p < |run[i].nodes| && a.args.candidateId == p
    requires run[i].campaigns[(a.args.term, p)].votes + 1 >= QuorumOf(|run[i].nodes|)
    requires electors == run[i].campaigns[(a.args.term, p)].counted + {a.voter} + {p}
    ensures electors <= Range(n) && |electors| == run[i].campaigns[(a.args.term, p)].votes + 1
    ensures Majority(n, electors)
    ensures forall q :: q in electors && q != p ==> Granted(run[i], a.args.term, p, q)
    ensures forall q :: q in electors ==> VotedFor(run[i].past, a.args.term, q, p)
  {
    RunOk(n, run, i);
    var s := run[i];
    var c := s.campaigns[(a.args.term, p)];
    assert CampaignOk(s.past, n, a.args.term, p, c) && VoteAnswerOk(s.past, n, a);
    assert |electors| == c.votes + 1;
    QuorumIsMajority(n, electors);
    CountedWereGranted(n, run, i);
    assert GrantedBy(a, a.args.term, p, a.voter);
  }

  // ---- accepting messages ------------------------------------------------------

  /** Whenever AppendEntries calls Truncate(idx), idx is above the commit index. */
  lemma TruncationSparesCommitted(n: nat, run: seq<State>, i: nat, m: AppendMsg, idx: int)
    requires IsRun(n, run) && i < |run| && m in run[i].appends && 0 <= m.to < |run[i].nodes|
    requires Sane(run[i].nodes[m.to]) && WellFormedAppend(m.args)
    requires idx in AppendCuts(run[i].nodes[m.to], m.args)
    ensures idx > run[i].nodes[m.to].commitIndex
  {
    RunOk(n, run, i);
    assert NodeOk(run[i].past, n, m.to, run[i].nodes[m.to]) && AppendOk(run[i].past, n, m);
    assert HistoryOk(run[i].past, n);
    hide IsRun, Inv, HistoryOk, NodeOk, AppendOk, FirstMismatch;
    MismatchIsUncommitted(run[i].past, n, run[i].nodes[m.to], m);
  }

  lemma MismatchIsUncommitted(h: History, n: nat, s: Node, m: AppendMsg)
    requires HistoryOk(h, n) && NodeOk(h, n, m.to, s) && AppendOk(h, n, m) && m.args.term >= s.currentTerm
    requires m.args.prevLogIndex < |s.log|
    ensures var k := FirstMismatch(s.log, m.args.prevLogIndex + 1, m.args.entries);
            var idx := m.args.prevLogIndex + 1 + k;
            k < |m.args.entries| && idx < |s.log| ==> idx > s.commitIndex
  {
    SafeReaches(h, n, s.log, s.commitIndex, s.currentTerm, m.args.term);
  }

  /** A message ends where its sender's log ended, and the sender's log is that of
      its term so far. */
  lemma SentWhole(n: nat, run: seq<State>, i: nat, p: nat, m: AppendMsg)
    requires IsRun(n, run) && i < |run| && p < n
    requires |run[i].nodes| == n && Sane(run[i].nodes[p]) && run[i].nodes[p].role == Leader
    requires 0 <= m.to < |run[i].nodes[p].nextIndex| && m.args == MakeAppend(run[i].nodes[p], m.to)
    ensures m.args.prevLogIndex + |m.args.entries| == LastIndexOf(run[i].nodes[p].log)
    ensures m.args.leaderCommit <= LastIndexOf(run[i].nodes[p].log)
    ensures var h := Final(run).past;
            m.args.term in h.termLog
            && Agree(run[i].nodes[p].log, h.termLog[m.args.term], LastIndexOf(run[i].nodes[p].log))
  {
    RunOk(n, run, i);
    var s := run[i].nodes[p];
    assert NodeOk(run[i].past, n, p, s);
    MessageEnds(s, m.to);
    FinalOk(n, run, i);
    assert TermLogGrows(run[i].past, Final(run).past, m.args.term);
  }

  lemma MessageEnds(s: Node, peer: int)
    requires Sane(s) && 0 <= peer < |s.nextIndex| && 1 <= s.nextIndex[peer] <= |s.log|
    ensures MakeAppend(s, peer).prevLogIndex + |MakeAppend(s, peer).entries| == LastIndexOf(s.log)
  {
  }

  /** What any accepted message leaves behind. */
  lemma AcceptedMeansAgreed(h: History, n: nat, s: Node, m: AppendMsg)
    requires HistoryOk(h, n) && NodeOk(h, n, s.id, s) && AppendOk(h, n, m) && WellFormedAppend(m.args)
    ensures var (s1, reply) := OnAppend(s, m.args);
            reply.success ==>
              && Agree(s1.log, h.termLog[m.args.term], m.args.prevLogIndex + |m.args.entries|)
              && s1.commitIndex
                 == if m.args.leaderCommit > s.commitIndex then m.args.leaderCommit else s.commitIndex
  {
    if m.args.term > s.currentTerm {
      BecomeFollowerOk(h, n, s.id, s, m.args.term);
      OnAppendResult(h, n, BecomeFollower(s, m.args.term), m);
    } else if m.args.term == s.currentTerm {
      OnAppendResult(h, n, s, m);
    }
  }

  lemma AcceptedInRun(n: nat, run: seq<State>, j: nat, m: AppendMsg, node: Node, node': Node, reply: AppendReply)
    requires IsRun(n, run) && j < |run| && m in run[j].appends && 0 <= m.to < |run[j].nodes|
    requires node == run[j].nodes[m.to] && Sane(node) && WellFormedAppend(m.args)
    requires (node', reply) == OnAppend(node, m.args) && reply.success
    ensures m.args.term in Final(run).past.termLog
    ensures Agree(node'.log, Final(run).past.termLog[m.args.term], m.args.prevLogIndex + |m.args.entries|)
    ensures node'.commitIndex
         == if m.args.leaderCommit > node.commitIndex then m.args.leaderCommit else node.commitIndex
  {
    FinalOk(n, run, j);
    AcceptedMeansAgreed(run[j].past, n, node, m);
    assert TermLogGrows(run[j].past, Final(run).past, m.args.term);
  }

  lemma StepSends(s: State, s': State, step: Step, m: AppendMsg)
    requires Enabled(s, step) && RunsThrough(s, step) && s' == Do(s, step)
    requires m in s'.appends && m !in s.appends
    ensures step.SendAppend? && m.to == step.peer && s.nodes[step.node].role == Leader
    ensures m.args == MakeAppend(s.nodes[step.node], m.to)
  {
  }

  /** Every message in flight was made by a leader from its log, at the latest now. */
  lemma {:induction false} EveryMessageWasSent(n: nat, run: seq<State>, j: nat, m: AppendMsg)
    returns (i: nat, p: nat)
    requires IsRun(n, run) && j < |run| && m in run[j].appends
    ensures i <= j && p < n == |run[i].nodes|
    ensures Sane(run[i].nodes[p]) && run[i].nodes[p].role == Leader && run[i].nodes[p].id == p
    ensures 0 <= m.to < |run[i].nodes[p].nextIndex| && m.args == MakeAppend(run[i].nodes[p], m.to)
    decreases j
  {
    assert j > 0;
    var s, s' := run[j - 1], run[j];
    if m in s.appends {
      i, p := EveryMessageWasSent(n, run, j - 1, m);
    } else {
      RunOk(n, run, j - 1);
      RunStep(n, run, j - 1);
      var step :| Enabled(s, step) && RunsThrough(s, step) && s' == Do(s, step);
      StepSends(s, s', step, m);
      i, p := j - 1, step.node;
      assert NodeOk(s.past, n, p, s.nodes[p]);
    }
  }

  /** A follower that accepts a message, at any time, holds all of its sender's log as
      it was when the message was sent, and takes over the sender's commit index of
      then without a clamp. */
  lemma FollowerCommitSound(n: nat, run: seq<State>, j: nat, m: AppendMsg,
                            node: Node, node': Node, reply: AppendReply) returns (i: nat, p: nat)
    requires IsRun(n, run) && j < |run| && m in run[j].appends && 0 <= m.to < |run[j].nodes|
    requires node == run[j].nodes[m.to] && Sane(node) && WellFormedAppend(m.args)
    requires (node', reply) == OnAppend(node, m.args) && reply.success
    ensures i <= j && p < n == |run[i].nodes| && m.args.leaderId == p
    ensures run[i].nodes[p].role == Leader && run[i].nodes[p].currentTerm == m.args.term
    ensures run[i].nodes[p].log <= node'.log && run[i].nodes[p].commitIndex <= LastIndexOf(node'.log)
    ensures node'.commitIndex
         == if run[i].nodes[p].commitIndex > node.commitIndex then run[i].nodes[p].commitIndex else node.commitIndex
  {
    i, p := EveryMessageWasSent(n, run, j, m);
    SentWhole(n, run, i, p, m);
    AcceptedInRun(n, run, j, m, node, node', reply);
  }

  /** Once a node has accepted a message up to some index, no message of the same
      leader that ends there or before, late or repeated, changes its log. */
  lemma RedeliveryChangesNothing(n: nat, run: seq<State>, i: nat, a: AppendAnswer, m: AppendMsg)
    requires IsRun(n, run) && i < |run| && a in run[i].appendAnswers && a.reply.success && m in run[i].appends
    requires m.to == a.from && m.args.term == a.args.term
    requires 0 <= m.to < |run[i].nodes| && Sane(run[i].nodes[m.to]) && WellFormedAppend(m.args)
    requires run[i].nodes[m.to].currentTerm == m.args.term
    requires m.args.prevLogIndex + |m.args.entries| <= a.args.prevLogIndex + |a.args.entries|
    ensures OnAppend(run[i].nodes[m.to], m.args).0.log == run[i].nodes[m.to].log
  {
    RunOk(n, run, i);
    var h, node := run[i].past, run[i].nodes[m.to];
    var (t, end) := (m.args.term, m.args.prevLogIndex + |m.args.entries|);
    assert NodeOk(h, n, m.to, node) && AppendAnswerOk(h, n, a) && AppendOk(h, n, m);
    assert LogRetains(h, m.to, node.log, t, t, end);
    hide HistoryOk, LogOk, VotingOk, Safe;
    OnAppendResult(h, n, node, m);
  }

  // ---- what a leader believes of its peers -------------------------------------

  /** What the leader of a term counts as matched on a peer is in that peer's log,
      then and for as long as the peer stays in the term. */
  lemma MatchIndexSound(n: nat, run: seq<State>, i: nat, p: nat, j: nat, q: nat)
    requires IsRun(n, run) && i <= j < |run| && p < n && q < n && q != p
    requires |run[i].nodes| == n && |run[j].nodes| == n
    requires run[i].nodes[p].role == Leader && |run[i].nodes[p].matchIndex| == n
    requires run[j].nodes[q].currentTerm == run[i].nodes[p].currentTerm
    ensures var (a, b) := (run[i].nodes[p], run[j].nodes[q]);
            a.matchIndex[q] > 0 ==> Agree(a.log, b.log, a.matchIndex[q])
  {
    RunOk(n, run, i);
    RunOk(n, run, j);
    RunGrows(n, run, i, j);
    hide IsRun, HistoryOk, VotingOk, AppendingOk, Safe;
    var h, a, b := run[j].past, run[i].nodes[p], run[j].nodes[q];
    assert NodeOk(run[i].past, n, p, a) && NodeOk(h, n, q, b);
    assert TermLogGrows(run[i].past, h, a.currentTerm);
    assert LogRetains(h, q, b.log, b.currentTerm, a.currentTerm, a.matchIndex[q]);
  }

  /** Some success answer of q to a message of p's current term ended at the match. */
  ghost predicate MatchWitnessed(s: State, p: nat, q: nat)
    requires p < |s.nodes| && q < |s.nodes[p].matchIndex|
  {
    exists a :: a in s.appendAnswers && AnswerCovers(a, s.nodes[p], q)
  }

  ghost predicate AnswerCovers(a: AppendAnswer, s: Node, q: nat)
    requires q < |s.matchIndex|
  {
    && a.from == q && a.reply.success && a.args.term == s.currentTerm && a.args.leaderId == s.id
    && a.args.prevLogIndex + |a.args.entries| == s.matchIndex[q]
  }

  lemma StepKeepsWitness(s: State, s': State, step: Step, p: nat, q: nat)
    requires Enabled(s, step) && RunsThrough(s, step) && s' == Do(s, step)
    requires p < |s.nodes| == |s'.nodes| && s.nodes[p].id == p && Sane(s.nodes[p])
    requires q < |s.nodes[p].matchIndex| == |s'.nodes[p].matchIndex|
    requires s.nodes[p].role == Leader && s.nodes[p].matchIndex[q] > 0 ==> MatchWitnessed(s, p, q)
    requires s'.nodes[p].role == Leader && s'.nodes[p].matchIndex[q] > 0
    ensures MatchWitnessed(s', p, q)
  {
    if step.ReceiveAppendAnswer? && Actor(step) == p && s'.nodes[p].matchIndex != s.nodes[p].matchIndex
       && step.appendAnswer.from == q {
      assert AnswerCovers(step.appendAnswer, s'.nodes[p], q);
    } else {
      var a :| a in s.appendAnswers && AnswerCovers(a, s.nodes[p], q);
      assert AnswerCovers(a, s'.nodes[p], q);
    }
  }

  lemma NextKeepsWitness(s: State, s': State, p: nat, q: nat)
    requires Next(s, s') && p < |s.nodes| == |s'.nodes| && s.nodes[p].id == p && Sane(s.nodes[p])
    requires q < |s.nodes[p].matchIndex| == |s'.nodes[p].matchIndex|
    requires s.nodes[p].role == Leader && s.nodes[p].matchIndex[q] > 0 ==> MatchWitnessed(s, p, q)
    ensures s'.nodes[p].role == Leader && s'.nodes[p].matchIndex[q] > 0 ==> MatchWitnessed(s', p, q)
  {
    if s' != s && s'.nodes[p].role == Leader && s'.nodes[p].matchIndex[q] > 0 {
      var step :| Enabled(s, step) && RunsThrough(s, step) && s' == Do(s, step);
      StepKeepsWitness(s, s', step, p, q);
    }
  }

  /** A match above 0 is the end of a message of this term that the peer did accept. */
  lemma {:induction false} MatchIndexHasWitness(n: nat, run: seq<State>, i: nat, p: nat, q: nat)
    requires IsRun(n, run) && i < |run| && p < n && q < n
    ensures |run[i].nodes| == n && |run[i].nodes[p].matchIndex| == n
    ensures run[i].nodes[p].role == Leader && run[i].nodes[p].matchIndex[q] > 0 ==> MatchWitnessed(run[i], p, q)
  {
    hide Next, MatchWitnessed;
    NodesSane(n, run, i, p);
    if i > 0 {
      NodesSane(n, run, i - 1, p);
      MatchIndexHasWitness(n, run, i - 1, p, q);
      RunStep(n, run, i - 1);
      NextKeepsWitness(run[i - 1], run[i], p, q);
    }
  }

  lemma ProgressBounds(n: nat, run: seq<State>, i: nat, p: nat, q: nat)
    requires IsRun(n, run) && i < |run| && p < n && q < n
    requires |run[i].nodes| == n && run[i].nodes[p].role == Leader
    ensures var a := run[i].nodes[p];
            && |a.nextIndex| == n && |a.matchIndex| == n
            && 1 <= a.nextIndex[q] <= LastIndexOf(a.log) + 1
            && 0 <= a.matchIndex[q] <= LastIndexOf(a.log)
  {
    RunOk(n, run, i);
    assert NodeOk(run[i].past, n, p, run[i].nodes[p]);
  }

  /** A leader that stays in its term stays leader, and takes no match back. */
  lemma StepKeepsMatches(s: State, s': State, step: Step, p: nat, q: nat)
    requires Enabled(s, step) && RunsThrough(s, step) && s' == Do(s, step)
    requires p < |s.nodes| == |s'.nodes| && q < |s.nodes[p].matchIndex|
    requires s.nodes[p].role == Leader && s'.nodes[p].currentTerm == s.nodes[p].currentTerm
    ensures s'.nodes[p].role == Leader
    ensures |s'.nodes[p].matchIndex| == |s.nodes[p].matchIndex|
    ensures s.nodes[p].matchIndex[q] <= s'.nodes[p].matchIndex[q]
  {
  }

  lemma NextKeepsMatches(s: State, s': State, p: nat, q: nat)
    requires Next(s, s') && p < |s.nodes| == |s'.nodes| && q < |s.nodes[p].matchIndex|
    requires s.nodes[p].role == Leader && s'.nodes[p].currentTerm == s.nodes[p].currentTerm
    ensures s'.nodes[p].role == Leader
    ensures |s'.nodes[p].matchIndex| == |s.nodes[p].matchIndex|
    ensures s.nodes[p].matchIndex[q] <= s'.nodes[p].matchIndex[q]
  {
    if s' != s {
      var step :| Enabled(s, step) && RunsThrough(s, step) && s' == Do(s, step);
      StepKeepsMatches(s, s', step, p, q);
    }
  }

  /** A match is never taken back within a term. */
  lemma {:induction false} MatchIndexMonotone(n: nat, run: seq<State>, i: nat, j: nat, p: nat, q: nat)
    requires IsRun(n, run) && i <= j < |run| && p < n && q < n
    requires |run[i].nodes| == n && |run[j].nodes| == n
    requires run[i].nodes[p].role == Leader && run[i].nodes[p].currentTerm == run[j].nodes[p].currentTerm
    ensures run[j].nodes[p].role == Leader
    ensures |run[i].nodes[p].matchIndex| == n && |run[j].nodes[p].matchIndex| == n
    ensures run[i].nodes[p].matchIndex[q] <= run[j].nodes[p].matchIndex[q]
  {
    hide Next;
    ProgressBounds(n, run, i, p, q);
    if i < j {
      RunNeverGoesBack(n, run, i, j - 1, p);
      RunNeverGoesBack(n, run, j - 1, j, p);
      MatchIndexMonotone(n, run, i, j - 1, p, q);
      RunStep(n, run, j - 1);
      NextKeepsMatches(run[j - 1], run[j], p, q);
    }
  }

  lemma StepNextFollowsMatch(s: State, s': State, step: Step, p: nat, q: nat)
    requires Enabled(s, step) && RunsThrough(s, step) && s' == Do(s, step)
    requires p < |s.nodes| == |s'.nodes| && Sane(s.nodes[p]) && s.nodes[p].id == p
    requires q < |s.nodes[p].matchIndex| == |s'.nodes[p].matchIndex| && Sane(s'.nodes[p])
    requires s.nodes[p].role == Leader && s'.nodes[p].currentTerm == s.nodes[p].currentTerm
    requires s'.nodes[p].matchIndex[q] > s.nodes[p].matchIndex[q]
    ensures s'.nodes[p].nextIndex[q] == s'.nodes[p].matchIndex[q] + 1
    ensures s'.nodes[p].matchIndex == s.nodes[p].matchIndex[q := s'.nodes[p].matchIndex[q]]
    ensures s'.nodes[p].nextIndex == s.nodes[p].nextIndex[q := s'.nodes[p].nextIndex[q]]
    ensures s'.nodes[p].log == s.nodes[p].log
  {
  }

  lemma NextStepFollowsMatch(s: State, s': State, p: nat, q: nat)
    requires Next(s, s') && p < |s.nodes| == |s'.nodes| && Sane(s.nodes[p]) && s.nodes[p].id == p
    requires q < |s.nodes[p].matchIndex| == |s'.nodes[p].matchIndex| && Sane(s'.nodes[p])
    requires s.nodes[p].role == Leader && s'.nodes[p].currentTerm == s.nodes[p].currentTerm
    requires s'.nodes[p].matchIndex[q] > s.nodes[p].matchIndex[q]
    ensures s'.nodes[p].nextIndex[q] == s'.nodes[p].matchIndex[q] + 1
    ensures s'.nodes[p].matchIndex == s.nodes[p].matchIndex[q := s'.nodes[p].matchIndex[q]]
    ensures s'.nodes[p].nextIndex == s.nodes[p].nextIndex[q := s'.nodes[p].nextIndex[q]]
  {
    var step :| Enabled(s, step) && RunsThrough(s, step) && s' == Do(s, step);
    StepNextFollowsMatch(s, s', step, p, q);
  }

  /** In every run: when a leader's match for a peer rises, its nextIndex for that peer is
      right behind the new match, however much further its log reaches, and its progress
      for all other peers stays. */
  lemma NextFollowsMatch(n: nat, run: seq<State>, k: nat, p: nat, q: nat)
    requires IsRun(n, run) && k + 1 < |run| && p < n && q < n
    requires |run[k].nodes| == n && |run[k + 1].nodes| == n
    requires run[k].nodes[p].role == Leader && run[k + 1].nodes[p].currentTerm == run[k].nodes[p].currentTerm
    requires |run[k].nodes[p].matchIndex| == n && |run[k + 1].nodes[p].matchIndex| == n
    requires run[k + 1].nodes[p].matchIndex[q] > run[k].nodes[p].matchIndex[q]
    ensures |run[k].nodes[p].nextIndex| == n && |run[k + 1].nodes[p].nextIndex| == n
    ensures run[k + 1].nodes[p].nextIndex[q] == run[k + 1].nodes[p].matchIndex[q] + 1
    ensures forall r :: 0 <= r < n && r != q ==>
              && run[k + 1].nodes[p].matchIndex[r] == run[k].nodes[p].matchIndex[r]
              && run[k + 1].nodes[p].nextIndex[r] == run[k].nodes[p].nextIndex[r]
  {
    hide Next;
    NodesSane(n, run, k, p);
    NodesSane(n, run, k + 1, p);
    RunStep(n, run, k);
    NextStepFollowsMatch(run[k], run[k + 1], p, q);
  }

  ghost predicate MatchBelowNext(s: State, p: nat, q: nat) {
    && p < |s.nodes| && q < |s.nodes[p].matchIndex| && q < |s.nodes[p].nextIndex|
    && s.nodes[p].matchIndex[q] < s.nodes[p].nextIndex[q]
  }

  /** A rejection of the leader's own term that finds nextIndex right above the match. */
  predicate RejectsAtMatch(a: AppendAnswer, s: Node, q: nat)
    requires q < |s.nextIndex| == |s.matchIndex|
  {
    && a.from == q && a.args.leaderId == s.id && a.args.term == s.currentTerm
    && a.reply.term <= s.currentTerm && !a.reply.success
    && s.nextIndex[q] > 1 && s.matchIndex[q] + 1 == s.nextIndex[q]
  }

  /** The leader handles such a rejection. */
  ghost predicate LateRejection(s: State, s': State, p: nat, q: nat) {
    && p < |s.nodes| == |s'.nodes| && Sane(s.nodes[p]) && q < |s.nodes[p].nextIndex|
    && exists a :: a in s.appendAnswers && RejectsAtMatch(a, s.nodes[p], q)
                   && s'.nodes[p] == OnAppendReply(s.nodes[p], q, a.args, a.reply)
  }

  lemma StepMatchBelowNextIff(s: State, s': State, step: Step, p: nat, q: nat)
    requires Enabled(s, step) && RunsThrough(s, step) && s' == Do(s, step)
    requires p < |s.nodes| == |s'.nodes| && Sane(s.nodes[p]) && s.nodes[p].id == p && q < |s.nodes[p].nextIndex|
    requires s.nodes[p].role == Leader && s'.nodes[p].currentTerm == s.nodes[p].currentTerm
    requires 0 <= s.nodes[p].matchIndex[q] && MatchBelowNext(s, p, q)
    ensures MatchBelowNext(s', p, q) || LateRejection(s, s', p, q)
  {
    if step.ReceiveAppendAnswer? && Actor(step) == p && !MatchBelowNext(s', p, q) {
      assert RejectsAtMatch(step.appendAnswer, s.nodes[p], q);
    }
  }

  lemma NextMatchBelowNextIff(s: State, s': State, p: nat, q: nat)
    requires Next(s, s') && p < |s.nodes| == |s'.nodes| && Sane(s.nodes[p]) && s.nodes[p].id == p
    requires q < |s.nodes[p].nextIndex| && 0 <= s.nodes[p].matchIndex[q] && MatchBelowNext(s, p, q)
    requires s.nodes[p].role == Leader && s'.nodes[p].currentTerm == s.nodes[p].currentTerm
    ensures MatchBelowNext(s', p, q) <==> !LateRejection(s, s', p, q)
  {
    if s' != s {
      var step :| Enabled(s, step) && RunsThrough(s, step) && s' == Do(s, step);
      StepMatchBelowNextIff(s, s', step, p, q);
    }
  }

  /** Victory resets all progress. */
  lemma VictoryResets(s: State, s': State, p: nat, q: nat)
    requires Next(s, s') && p < |s.nodes| == |s'.nodes| && q < |s'.nodes[p].matchIndex|
    requires s.nodes[p].role != Leader && s'.nodes[p].role == Leader
    ensures s'.nodes[p].matchIndex[q] == 0
  {
  }

  lemma NodesSane(n: nat, run: seq<State>, i: nat, p: nat)
    requires IsRun(n, run) && i < |run| && p < n
    ensures |run[i].nodes| == n && Sane(run[i].nodes[p]) && run[i].nodes[p].id == p
    ensures |run[i].nodes[p].nextIndex| == n == |run[i].nodes[p].matchIndex|
  {
    RunOk(n, run, i);
    assert NodeOk(run[i].past, n, p, run[i].nodes[p]);
  }

  lemma ReignGoesOn(n: nat, run: seq<State>, i: nat, j: nat, p: nat, q: nat)
    requires IsRun(n, run) && i < j < |run| && p < n && q < n
    requires |run[i].nodes| == n && |run[j].nodes| == n && run[i].nodes[p].role == Leader
    requires run[j].nodes[p].currentTerm == run[i].nodes[p].currentTerm
    ensures |run[j - 1].nodes| == n && Sane(run[j - 1].nodes[p]) && run[j - 1].nodes[p].id == p
    ensures run[j - 1].nodes[p].role == Leader
    ensures run[j - 1].nodes[p].currentTerm == run[i].nodes[p].currentTerm
    ensures |run[j - 1].nodes[p].matchIndex| == n && 0 <= run[j - 1].nodes[p].matchIndex[q]
  {
    hide Next;
    RunNeverGoesBack(n, run, i, j - 1, p);
    RunNeverGoesBack(n, run, j - 1, j, p);
    MatchIndexMonotone(n, run, i, j - 1, p, q);
    ProgressBounds(n, run, j - 1, p, q);
    NodesSane(n, run, j - 1, p);
  }

  /** The source documents matchIndex < nextIndex as an invariant. From a victory on,
      and for as long as the leader stays in its term, it holds throughout if and only
      if the leader never handles a rejection that finds nextIndex right above the
      match. */
  lemma {:induction false} MatchBelowNextIff(n: nat, run: seq<State>, i: nat, j: nat, p: nat, q: nat)
    requires IsRun(n, run) && 0 < i <= j < |run| && p < n && q < n
    requires |run[i - 1].nodes| == n && |run[i].nodes| == n && |run[j].nodes| == n
    requires run[i - 1].nodes[p].role != Leader && run[i].nodes[p].role == Leader
    requires run[j].nodes[p].currentTerm == run[i].nodes[p].currentTerm
    ensures (forall k :: i <= k <= j ==> MatchBelowNext(run[k], p, q))
       <==> (forall k :: i <= k < j ==> !LateRejection(run[k], run[k + 1], p, q))
    decreases j
  {
    hide LateRejection, Next;
    if i == j {
      ProgressBounds(n, run, i, p, q);
      RunStep(n, run, i - 1);
      VictoryResets(run[i - 1], run[i], p, q);
    } else {
      ReignGoesOn(n, run, i, j, p, q);
      MatchBelowNextIff(n, run, i, j - 1, p, q);
      RunStep(n, run, j - 1);
      if MatchBelowNext(run[j - 1], p, q) {
        NextMatchBelowNextIff(run[j - 1], run[j], p, q);
      }
      assert LateRejection(run[j - 1], run[j - 1 + 1], p, q) == LateRejection(run[j - 1], run[j], p, q);
    }
  }

  // ---- the commit rule -----------------------------------------------------------

  /** The downward scan of advanceCommitIndex finds exactly the greatest index above
      commitIndex whose entry is of the current term and which a majority, the leader
      included, has matched; without one, commitIndex stays. */
  lemma AdvanceCommitIsGreatest(s: Node, k: int)
    requires Sane(s)
    ensures k == AdvanceCommit(s).commitIndex <==>
              && (k == s.commitIndex || (k > s.commitIndex && MajorityMatched(s, k)))
              && forall m :: m > k && m > s.commitIndex ==> !MajorityMatched(s, m)
  {
    forall m ensures Committable(s, m) <==> MajorityMatched(s, m) {
      CommittableIsMajority(s, m);
    }
    var found := AdvanceCommit(s).commitIndex;
    assert found > s.commitIndex ==> MajorityMatched(s, found);
  }

  /** The rule of section 5.4.2, on the set of nodes. */
  ghost predicate MajorityMatched(s: Node, k: int)
    requires Sane(s)
  {
    && 1 <= k <= LastIndexOf(s.log)
    && s.log[k].term == s.currentTerm
    && 2 * |set p | p in Range(|s.matchIndex|) && (p == s.id || s.matchIndex[p] >= k)| > |s.matchIndex|
  }

  lemma CommittableIsMajority(s: Node, k: int)
    requires Sane(s)
    ensures Committable(s, k) <==> MajorityMatched(s, k)
  {
    assert Matched(s, k) == set p | p in Range(|s.matchIndex|) && (p == s.id || s.matchIndex[p] >= k);
  }
}
