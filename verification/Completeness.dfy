/** Quorum intersection, log matching and leader completeness, as facts about
    any history that satisfies the invariant. */
module Completeness {
  import opened RaftLog
  import opened RaftNode
  import opened Cluster
  import opened Sets
  import opened Invariant

  // ---- quorums ------------------------------------------------------------

  lemma MajoritiesMeet(n: nat, a: set<int>, b: set<int>) returns (p: int)
    requires a <= Range(n) && b <= Range(n)
    requires Majority(n, a) && Majority(n, b)
    ensures p in a && p in b
  {
    SubsetIsNoLarger(a + b, Range(n));
    assert |a + b| == |a| + |b| - |a * b|;
    p :| p in a * b;
  }

  lemma QuorumIsMajority(n: nat, nodes: set<int>)
    ensures |nodes| >= QuorumOf(n) <==> Majority(n, nodes)
  {
  }

  // ---- logs ---------------------------------------------------------------

  /** Two rooted logs with the same term at the same index are equal up to it. */
  lemma RootedLogsMatch(tl: TermLogs, a: seq<Entry>, b: seq<Entry>, i: int)
    requires AllRooted(tl, a) && AllRooted(tl, b)
    requires 0 <= i < |a| && i < |b| && a[i].term == b[i].term
    ensures Agree(a, b, i)
  {
    assert Rooted(tl, a, i) && Rooted(tl, b, i);
  }

  lemma PrefixRooted(tl: TermLogs, a: seq<Entry>, b: seq<Entry>)
    requires AllRooted(tl, a) && 0 < |b| <= |a| && Agree(a, b, |b| - 1)
    ensures AllRooted(tl, b)
  {
    forall i {:trigger Rooted(tl, b, i)} | 0 <= i < |b| ensures Rooted(tl, b, i) {
      assert Rooted(tl, a, i);
    }
  }

  /** A rooted log inherits the shape of the log of its last entry's term. */
  lemma RootedShape(h: History, n: nat, log: seq<Entry>)
    requires TermsOk(h, n) && AllRooted(h.termLog, log)
    ensures WellIndexed(log) && Ascending(log, LastTermOf(log)) && LastTermOf(log) in h.termLog
  {
    var t := LastTermOf(log);
    assert Rooted(h.termLog, log, |log| - 1);
    assert TermLogOk(h.termLog, t);
  }

  // ---- leader completeness ------------------------------------------------

  /** A log that won an election against one that holds a committed prefix holds
      that prefix too, provided the leaders of all terms in between do. */
  lemma UpToDateKeeps(h: History, n: nat, t: int, k: int, c: seq<Entry>, v: seq<Entry>)
    requires TermsOk(h, n) && AllRooted(h.termLog, c) && AllRooted(h.termLog, v)
    requires t in h.termLog && 0 <= k < |h.termLog[t]| && h.termLog[t][k].term == t
    requires Agree(h.termLog[t], v, k)
    requires UpToDate(LastTermOf(c), LastIndexOf(c), v)
    requires forall u :: t < u <= LastTermOf(c) && u in h.termLog ==> Agree(h.termLog[t], h.termLog[u], k)
    ensures Agree(h.termLog[t], c, k)
  {
    RootedShape(h, n, c);
    RootedShape(h, n, v);
    var s := LastTermOf(c);
    assert v[k].term == t && v[k].term <= LastTermOf(v);
    assert Rooted(h.termLog, c, |c| - 1);
    assert Rooted(h.termLog, v, |v| - 1);
    if s == LastTermOf(v) {
      assert Agree(v, c, k);
    } else {
      assert TermLogOk(h.termLog, t);
      assert forall i :: 0 <= i <= k ==> h.termLog[s][i].term <= t;
    }
  }

  /** Leader Completeness, sections 5.4.1 to 5.4.3. */
  lemma {:induction false} LeaderCompleteness(h: History, n: nat, t: int, k: int, t': int)
    requires HistoryOk(h, n)
    requires Committed(h, n, t, k)
    requires t <= t' && t' in h.termLog
    ensures Agree(h.termLog[t], h.termLog[t'], k)
    decreases t'
  {
    assert TermLogOk(h.termLog, t) && TermLogOk(h.termLog, t');
    if t < t' {
      assert t >= 0;
      assert VictoryOk(h, n, t');
      var leader, electors := h.leaders[t'].leader, h.leaders[t'].electors;
      var p := MajoritiesMeet(n, Ackers(h, n, t, k), electors);
      forall u | t < u < t' && u in h.termLog ensures Agree(h.termLog[t], h.termLog[u], k) {
        LeaderCompleteness(h, n, t, k, u);
      }
      assert VotedFor(h, t', p, leader) && VotedFor(h, t', leader, leader);
      assert VoteOk(h, n, t', p) && VoteOk(h, n, t', leader);
      var v, c := h.votes[(t', p)].log, h.votes[(t', leader)].log;
      assert VoteRetains(h, t, p, k, t');
      assert Agree(h.termLog[t], v, k);
      UpToDateKeeps(h, n, t, k, c, v);
    }
  }

  /** Hence what is safe in a log is in the log of every later leader. */
  lemma SafeReaches(h: History, n: nat, log: seq<Entry>, c: int, bound: int, t': int)
    requires HistoryOk(h, n)
    requires Safe(h, n, log, c, bound)
    requires bound <= t' && t' in h.termLog
    ensures Agree(log, h.termLog[t'], c)
  {
    var t, k :| t <= bound && SafeBy(h, n, log, c, t, k);
    LeaderCompleteness(h, n, t, k, t');
  }
}
