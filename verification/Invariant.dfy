/** The inductive invariant of the cluster. */
module Invariant {
  import opened RaftLog
  import opened RaftNode
  import opened Cluster

  type TermLogs = map<int, seq<Entry>>

  // ---- logs -------------------------------------------------------------

  /** Up to i, the log is a copy of the log of the leader of its i-th entry's term. */
  ghost predicate Rooted(tl: TermLogs, log: seq<Entry>, i: int) {
    && 0 <= i < |log|
    && log[i].term in tl
    && Agree(log, tl[log[i].term], i)
  }

  ghost predicate AllRooted(tl: TermLogs, log: seq<Entry>) {
    && |log| > 0
    && forall i {:trigger Rooted(tl, log, i)} :: 0 <= i < |log| ==> Rooted(tl, log, i)
  }

  ghost predicate Ascending(log: seq<Entry>, bound: int) {
    && (forall i :: 0 <= i < |log| ==> 0 <= log[i].term <= bound)
    && (forall i, j :: 0 <= i <= j < |log| ==> log[i].term <= log[j].term)
  }

  ghost predicate TermLogOk(tl: TermLogs, t: int)
    requires t in tl
  {
    && WellIndexed(tl[t])
    && AllRooted(tl, tl[t])
    && Ascending(tl[t], t)
    && LastTermOf(tl[t]) == t
  }

  // ---- commitment -------------------------------------------------------

  predicate Majority(n: nat, nodes: set<int>) {
    2 * |nodes| > n
  }

  ghost function Ackers(h: History, n: nat, t: int, k: int): set<int> {
    set p | p in Range(n) && Acked(h, t, p) >= k
  }

  /** Section 5.4.2: entry k is of term t and a majority has confirmed the log of
      the leader of term t through k. */
  ghost predicate Committed(h: History, n: nat, t: int, k: int) {
    && t in h.termLog
    && 0 <= k < |h.termLog[t]|
    && h.termLog[t][k].term == t
    && Majority(n, Ackers(h, n, t, k))
  }

  ghost predicate SafeBy(h: History, n: nat, log: seq<Entry>, c: int, t: int, k: int) {
    && Committed(h, n, t, k)
    && 0 <= c <= k
    && Agree(log, h.termLog[t], c)
  }

  /** The log through c is part of what some term up to bound committed. */
  ghost predicate Safe(h: History, n: nat, log: seq<Entry>, c: int, bound: int) {
    exists t, k {:trigger SafeBy(h, n, log, c, t, k)} :: t <= bound && SafeBy(h, n, log, c, t, k)
  }

  /** Some leader of a term in (t, bound] lacks what term t's leader holds through k. */
  ghost predicate Overridden(h: History, t: int, k: int, bound: int)
    requires t in h.termLog
  {
    exists u :: t < u <= bound && u in h.termLog && !Agree(h.termLog[t], h.termLog[u], k)
  }

  ghost predicate Retained(h: History, t: int, k: int, log: seq<Entry>, bound: int)
    requires t in h.termLog
  {
    Agree(h.termLog[t], log, k) || Overridden(h, t, k, bound)
  }

  // ---- history ----------------------------------------------------------

  ghost predicate VotedFor(h: History, t: int, p: int, c: int) {
    (t, p) in h.votes && h.votes[(t, p)].candidate == c
  }

  ghost predicate VictoryOk(h: History, n: nat, t: int)
    requires t in h.leaders
  {
    var v := h.leaders[t];
    && t >= 1
    && t in h.termLog
    && v.leader in Range(n)
    && v.electors <= Range(n)
    && Majority(n, v.electors)
    && (forall q :: q in v.electors ==> VotedFor(h, t, q, v.leader))
    && VotedFor(h, t, v.leader, v.leader)
    && (var won := h.votes[(t, v.leader)].log;
        && |won| < |h.termLog[t]|
        && Agree(won, h.termLog[t], |won| - 1)
        && forall i :: |won| <= i < |h.termLog[t]| ==> h.termLog[t][i].term == t)
    && Acked(h, t, v.leader) == LastIndexOf(h.termLog[t])
  }

  ghost predicate VoteOk(h: History, n: nat, t: int, p: int)
    requires (t, p) in h.votes
  {
    var v := h.votes[(t, p)];
    && t >= 1
    && p in Range(n)
    && AllRooted(h.termLog, v.log)
    && VotedFor(h, t, v.candidate, v.candidate)
    && var c := h.votes[(t, v.candidate)].log;
       && |c| > 0
       && LastTermOf(c) < t
       && UpToDate(LastTermOf(c), LastIndexOf(c), v.log)
  }

  ghost predicate AckOk(h: History, n: nat, t: int, p: int) {
    Acked(h, t, p) >= 0 ==> p in Range(n) && t in h.termLog && Acked(h, t, p) < |h.termLog[t]|
  }

  /** p's vote in term t' can have helped, or can still help, elect a leader. */
  ghost predicate Relevant(h: History, t': int, p: int) {
    t' in h.leaders ==> p in h.leaders[t'].electors
  }

  ghost predicate VoteRetains(h: History, t: int, p: int, k: int, t': int) {
    0 <= k <= Acked(h, t, p) && t in h.termLog && t < t' && (t', p) in h.votes && Relevant(h, t', p)
    ==> Retained(h, t, k, h.votes[(t', p)].log, t' - 1)
  }

  ghost predicate TermsOk(h: History, n: nat) {
    && 0 in h.termLog
    && h.termLog[0] == [SENTINEL]
    && (forall t {:trigger TermLogOk(h.termLog, t)} :: t in h.termLog ==> TermLogOk(h.termLog, t))
    && (forall t :: t in h.termLog ==> t == 0 || t in h.leaders)
    && (forall t :: t in h.leaders ==> t in h.termLog)
    && (forall t {:trigger VictoryOk(h, n, t)} :: t in h.leaders ==> VictoryOk(h, n, t))
  }

  ghost predicate HistoryOk(h: History, n: nat) {
    && TermsOk(h, n)
    && (forall t, p {:trigger VoteOk(h, n, t, p)} :: (t, p) in h.votes ==> VoteOk(h, n, t, p))
    && (forall t, p {:trigger AckOk(h, n, t, p)} :: AckOk(h, n, t, p))
    && (forall t, p, k, t' {:trigger VoteRetains(h, t, p, k, t')} :: VoteRetains(h, t, p, k, t'))
  }

  // ---- nodes ------------------------------------------------------------

  ghost predicate LeaderOk(h: History, n: nat, s: Node)
    requires Sane(s) && |s.nextIndex| == n
  {
    && s.currentTerm in h.leaders
    && h.leaders[s.currentTerm].leader == s.id
    && s.currentTerm in h.termLog
    && s.log == h.termLog[s.currentTerm]
    && forall q :: 0 <= q < n ==>
         && 1 <= s.nextIndex[q] <= |s.log|
         && 0 <= s.matchIndex[q] < |s.log|
         && (s.matchIndex[q] > 0 ==> s.matchIndex[q] <= Acked(h, s.currentTerm, q))
  }

  /** A candidate's log is the one it advertised, until someone wins its term. */
  ghost predicate CandidateOk(h: History, s: Node) {
    && s.votedFor == s.id
    && VotedFor(h, s.currentTerm, s.id, s.id)
    && (s.currentTerm !in h.leaders ==> s.log == h.votes[(s.currentTerm, s.id)].log)
  }

  /** What the record of p's votes, victories and confirmations says about p now. */
  ghost predicate PastOk(h: History, s: Node) {
    && (if s.votedFor == -1 then (s.currentTerm, s.id) !in h.votes
        else VotedFor(h, s.currentTerm, s.id, s.votedFor))
    && (forall t :: (t, s.id) in h.votes ==> t <= s.currentTerm)
    && (forall t :: t in h.leaders && h.leaders[t].leader == s.id ==>
          t < s.currentTerm || (t == s.currentTerm && s.role == Leader))
    && (forall t :: Acked(h, t, s.id) >= 0 ==> t <= s.currentTerm)
  }

  ghost predicate LogRetains(h: History, p: int, log: seq<Entry>, term: int, t: int, k: int) {
    0 <= k <= Acked(h, t, p) && t in h.termLog ==> Retained(h, t, k, log, term)
  }

  ghost predicate LogOk(h: History, n: nat, p: int, log: seq<Entry>, commitIndex: int, term: int) {
    && WellIndexed(log)
    && AllRooted(h.termLog, log)
    && LastTermOf(log) <= term
    && 0 <= commitIndex < |log|
    && Safe(h, n, log, commitIndex, term)
    && (forall t, k {:trigger LogRetains(h, p, log, term, t, k)} :: LogRetains(h, p, log, term, t, k))
  }

  /** What has been applied is the log's prefix, once each and in order. */
  ghost predicate StreamOk(s: Node) {
    && 0 <= s.lastApplied <= s.commitIndex < |s.log|
    && |s.stream| == s.lastApplied
    && forall i :: 0 <= i < |s.stream| ==>
         s.stream[i] == ApplyMsg(s.log[i + 1].index, s.log[i + 1].term, s.log[i + 1].command)
  }

  ghost predicate NodeOk(h: History, n: nat, p: int, s: Node) {
    && s.id == p
    && 0 <= s.currentTerm
    && Sane(s)
    && |s.nextIndex| == n
    && LogOk(h, n, p, s.log, s.commitIndex, s.currentTerm)
    && StreamOk(s)
    && PastOk(h, s)
    && (s.role == Leader ==> LeaderOk(h, n, s))
    && (s.role == Candidate ==> CandidateOk(h, s))
  }

  // ---- campaigns and messages --------------------------------------------

  ghost predicate CampaignOk(h: History, n: nat, t: int, c: int, x: Campaign) {
    && c in Range(n)
    && x.waiting <= Range(n) - {c}
    && x.counted <= Range(n) - {c} - x.waiting
    && x.votes == 1 + |x.counted|
    && VotedFor(h, t, c, c)
    && forall q :: q in x.counted ==> VotedFor(h, t, q, c)
  }

  ghost predicate VoteRequestOk(h: History, n: nat, req: VoteArgs) {
    && req.candidateId in Range(n)
    && VotedFor(h, req.term, req.candidateId, req.candidateId)
    && var log := h.votes[(req.term, req.candidateId)].log;
       && |log| > 0
       && req.lastLogIndex == LastIndexOf(log)
       && req.lastLogTerm == LastTermOf(log)
  }

  ghost predicate VoteAnswerOk(h: History, n: nat, a: VoteAnswer) {
    a.reply.granted ==> VotedFor(h, a.args.term, a.voter, a.args.candidateId)
  }

  /** A message is a copy of a stretch of its sender's log, and it reaches at
      least as far as the commit index it announces. */
  ghost predicate AppendOk(h: History, n: nat, m: AppendMsg) {
    var (t, prev, end) := (m.args.term, m.args.prevLogIndex, m.args.prevLogIndex + |m.args.entries|);
    && m.to in Range(n)
    && m.args.leaderId in Range(n)
    && m.to != m.args.leaderId
    && t in h.leaders
    && h.leaders[t].leader == m.args.leaderId
    && t in h.termLog
    && 0 <= prev
    && end < |h.termLog[t]|
    && m.args.prevLogTerm == h.termLog[t][prev].term
    && (forall i :: 0 <= i < |m.args.entries| ==> m.args.entries[i] == h.termLog[t][prev + 1 + i])
    && 0 <= m.args.leaderCommit <= end
    && Safe(h, n, h.termLog[t], m.args.leaderCommit, t)
  }

  ghost predicate AppendAnswerOk(h: History, n: nat, a: AppendAnswer) {
    && AppendOk(h, n, AppendMsg(a.from, a.args))
    && (a.reply.success ==> a.args.prevLogIndex + |a.args.entries| <= Acked(h, a.args.term, a.from))
  }

  ghost predicate NodesOk(s: State) {
    forall p {:trigger s.nodes[p]} :: 0 <= p < |s.nodes| ==> NodeOk(s.past, |s.nodes|, p, s.nodes[p])
  }

  ghost predicate VotingOk(s: State) {
    var n := |s.nodes|;
    && (forall t, c :: (t, c) in s.campaigns ==> CampaignOk(s.past, n, t, c, s.campaigns[(t, c)]))
    && (forall r :: r in s.voteRequests ==> VoteRequestOk(s.past, n, r))
    && (forall a :: a in s.voteAnswers ==> VoteAnswerOk(s.past, n, a))
  }

  ghost predicate AppendingOk(s: State) {
    var n := |s.nodes|;
    && (forall m :: m in s.appends ==> AppendOk(s.past, n, m))
    && (forall a :: a in s.appendAnswers ==> AppendAnswerOk(s.past, n, a))
  }

  ghost predicate Inv(s: State) {
    && |s.nodes| > 0
    && HistoryOk(s.past, |s.nodes|)
    && NodesOk(s)
    && VotingOk(s)
    && AppendingOk(s)
  }

  // ---- what grows --------------------------------------------------------

  ghost predicate TermLogGrows(h: History, h': History, t: int)
    requires t in h.termLog
  {
    && t in h'.termLog
    && |h.termLog[t]| <= |h'.termLog[t]|
    && Agree(h.termLog[t], h'.termLog[t], |h.termLog[t]| - 1)
    && forall i :: |h.termLog[t]| <= i < |h'.termLog[t]| ==> h'.termLog[t][i].term == t
  }

  ghost predicate Grows(h: History, h': History) {
    && (forall t {:trigger TermLogGrows(h, h', t)} :: t in h.termLog ==> TermLogGrows(h, h', t))
    && (forall t :: t in h.leaders ==> t in h'.leaders && h'.leaders[t] == h.leaders[t])
    && (forall key :: key in h.votes ==> key in h'.votes && h'.votes[key] == h.votes[key])
    && (forall t, p :: Acked(h, t, p) <= Acked(h', t, p))
  }
}
