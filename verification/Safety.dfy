/** The safety theorems of the cluster, about every run and any two of its
    states. None of them mentions the recorded past. */
module Safety {
  import opened RaftLog
  import opened RaftNode
  import opened Cluster
  import opened Invariant
  import opened Completeness
  import opened Growth
  import opened Elections
  import opened Appends

  // ---- runs ------------------------------------------------------------------

  lemma NextOk(s: State, s': State)
    requires Inv(s) && Next(s, s')
    ensures Inv(s') && Grows(s.past, s'.past) && |s'.nodes| == |s.nodes|
  {
    if s' == s {
      SamePast(s.past);
    } else {
      var step :| Enabled(s, step) && RunsThrough(s, step) && s' == Do(s, step);
      StepOk(s, step);
    }
  }

  lemma {:induction false} RunOk(n: nat, run: seq<State>, i: nat)
    requires IsRun(n, run) && i < |run|
    ensures Inv(run[i]) && |run[i].nodes| == n
  {
    if i == 0 {
      InitOk(n);
    } else {
      RunOk(n, run, i - 1);
      RunStep(n, run, i - 1);
      NextOk(run[i - 1], run[i]);
    }
  }

  lemma {:induction false} RunGrows(n: nat, run: seq<State>, i: nat, j: nat)
    requires IsRun(n, run) && i <= j < |run|
    ensures Grows(run[i].past, run[j].past)
  {
    hide Next, Grows;
    if i < j {
      RunGrows(n, run, i, j - 1);
      RunOk(n, run, j - 1);
      RunStep(n, run, j - 1);
      NextOk(run[j - 1], run[j]);
      GrowsTwice(run[i].past, run[j - 1].past, run[j].past);
    } else {
      SamePast(run[i].past);
    }
  }

  /** The last state of a run knows the past of all the others. */
  function Final(run: seq<State>): State
    requires |run| > 0
  {
    run[|run| - 1]
  }

  lemma FinalOk(n: nat, run: seq<State>, i: nat)
    requires IsRun(n, run) && i < |run|
    ensures Inv(run[i]) && |run[i].nodes| == n
    ensures HistoryOk(Final(run).past, n) && Grows(run[i].past, Final(run).past)
  {
    RunOk(n, run, i);
    RunOk(n, run, |run| - 1);
    RunGrows(n, run, i, |run| - 1);
  }

  // ---- election safety ---------------------------------------------------------

  /** Section 5.2: at most one node is ever leader in a term. */
  lemma ElectionSafety(n: nat, run: seq<State>, i: nat, p: nat, j: nat, q: nat)
    requires IsRun(n, run) && i < |run| && j < |run| && p < n && q < n
    requires |run[i].nodes| == n && |run[j].nodes| == n
    requires run[i].nodes[p].role == Leader && run[j].nodes[q].role == Leader
    requires run[i].nodes[p].currentTerm == run[j].nodes[q].currentTerm
    ensures p == q
  {
    FinalOk(n, run, i);
    FinalOk(n, run, j);
    assert NodeOk(run[i].past, n, p, run[i].nodes[p]);
    assert NodeOk(run[j].past, n, q, run[j].nodes[q]);
  }

  // ---- log matching ------------------------------------------------------------

  lemma NodeLogRooted(n: nat, run: seq<State>, i: nat, p: nat)
    requires IsRun(n, run) && i < |run| && p < n
    ensures |run[i].nodes| == n && HistoryOk(Final(run).past, n)
    ensures AllRooted(Final(run).past.termLog, run[i].nodes[p].log)
    ensures LastTermOf(run[i].nodes[p].log) <= run[i].nodes[p].currentTerm
  {
    FinalOk(n, run, i);
    assert NodeOk(run[i].past, n, p, run[i].nodes[p]);
    RootedGrows(run[i].past, Final(run).past, run[i].nodes[p].log);
  }

  /** Section 5.3: any two logs, of any nodes at any times, with the same term at
      the same index are identical up to it, commands included. */
  lemma LogMatching(n: nat, run: seq<State>, i: nat, p: nat, j: nat, q: nat, k: nat)
    requires IsRun(n, run) && i < |run| && j < |run| && p < n && q < n
    requires |run[i].nodes| == n && |run[j].nodes| == n
    requires k < |run[i].nodes[p].log| && k < |run[j].nodes[q].log|
    requires run[i].nodes[p].log[k].term == run[j].nodes[q].log[k].term
    ensures run[i].nodes[p].log[..k + 1] == run[j].nodes[q].log[..k + 1]
  {
    NodeLogRooted(n, run, i, p);
    NodeLogRooted(n, run, j, q);
    RootedLogsMatch(Final(run).past.termLog, run[i].nodes[p].log, run[j].nodes[q].log, k);
  }

  /** Entries sit at their own index, with terms that never decrease and never
      exceed the node's current term. */
  lemma LogShape(n: nat, run: seq<State>, i: nat, p: nat)
    requires IsRun(n, run) && i < |run| && p < n
    ensures |run[i].nodes| == n
    ensures WellIndexed(run[i].nodes[p].log)
    ensures Ascending(run[i].nodes[p].log, run[i].nodes[p].currentTerm)
  {
    NodeLogRooted(n, run, i, p);
    RootedShape(Final(run).past, n, run[i].nodes[p].log);
  }

  /** The same between a log and a message in flight: where an entry of the message
      meets an entry of the same term, all earlier entries of the message and the
      entry before them are the log's own. */
  lemma MessageMatching(n: nat, run: seq<State>, i: nat, p: nat, j: nat, m: AppendMsg, x: nat)
    requires IsRun(n, run) && i < |run| && j < |run| && p < n && |run[i].nodes| == n
    requires m in run[j].appends && x < |m.args.entries|
    requires 0 <= m.args.prevLogIndex + 1 + x < |run[i].nodes[p].log|
    requires run[i].nodes[p].log[m.args.prevLogIndex + 1 + x].term == m.args.entries[x].term
    ensures m.args.prevLogIndex >= 0
    ensures run[i].nodes[p].log[m.args.prevLogIndex].term == m.args.prevLogTerm
    ensures forall y :: 0 <= y <= x ==> run[i].nodes[p].log[m.args.prevLogIndex + 1 + y] == m.args.entries[y]
  {
    NodeLogRooted(n, run, i, p);
    MessageInFinal(n, run, j, m);
    MessageAgrees(Final(run).past, n, run[i].nodes[p].log, m, x);
  }

  lemma MessageInFinal(n: nat, run: seq<State>, j: nat, m: AppendMsg)
    requires IsRun(n, run) && j < |run| && m in run[j].appends
    ensures AppendOk(Final(run).past, n, m)
  {
    FinalOk(n, run, j);
    AppendGrows(run[j].past, Final(run).past, n, m);
  }

  lemma MessageAgrees(h: History, n: nat, log: seq<Entry>, m: AppendMsg, x: nat)
    requires TermsOk(h, n) && AllRooted(h.termLog, log) && AppendOk(h, n, m)
    requires x < |m.args.entries| && m.args.prevLogIndex + 1 + x < |log|
    requires log[m.args.prevLogIndex + 1 + x].term == m.args.entries[x].term
    ensures log[m.args.prevLogIndex].term == m.args.prevLogTerm
    ensures forall y :: 0 <= y <= x ==> log[m.args.prevLogIndex + 1 + y] == m.args.entries[y]
  {
    assert TermLogOk(h.termLog, m.args.term);
    RootedLogsMatch(h.termLog, log, h.termLog[m.args.term], m.args.prevLogIndex + 1 + x);
  }

  /** While a node leads, its log only grows. */
  lemma LeaderAppendOnly(n: nat, run: seq<State>, i: nat, j: nat, p: nat)
    requires IsRun(n, run) && i <= j < |run| && p < n
    requires |run[i].nodes| == n && |run[j].nodes| == n
    requires run[i].nodes[p].role == Leader && run[j].nodes[p].role == Leader
    requires run[i].nodes[p].currentTerm == run[j].nodes[p].currentTerm
    ensures run[i].nodes[p].log <= run[j].nodes[p].log
  {
    RunOk(n, run, i);
    RunOk(n, run, j);
    RunGrows(n, run, i, j);
    assert NodeOk(run[i].past, n, p, run[i].nodes[p]);
    assert NodeOk(run[j].past, n, p, run[j].nodes[p]);
    assert TermLogGrows(run[i].past, run[j].past, run[i].nodes[p].currentTerm);
  }

  // ---- leader completeness -------------------------------------------------------

  /** Section 5.4: whatever a leader of term T has committed is in the log of every
      node that leads a higher term, whenever either of them does so. */
  lemma LeaderCompletenessTheorem(n: nat, run: seq<State>, i: nat, p: nat, j: nat, q: nat)
    requires IsRun(n, run) && i < |run| && j < |run| && p < n && q < n
    requires |run[i].nodes| == n && |run[j].nodes| == n
    requires run[i].nodes[p].role == Leader && run[j].nodes[q].role == Leader
    requires run[i].nodes[p].currentTerm < run[j].nodes[q].currentTerm
    ensures Agree(run[i].nodes[p].log, run[j].nodes[q].log, run[i].nodes[p].commitIndex)
  {
    CommittedByReaches(n, run, i, p, j, q);
  }

  /** The same for any node that knows an index to be committed. */
  lemma CommittedByReaches(n: nat, run: seq<State>, i: nat, p: nat, j: nat, q: nat)
    requires IsRun(n, run) && i < |run| && j < |run| && p < n && q < n
    requires |run[i].nodes| == n && |run[j].nodes| == n
    requires run[j].nodes[q].role == Leader
    requires run[i].nodes[p].currentTerm < run[j].nodes[q].currentTerm
    ensures Agree(run[i].nodes[p].log, run[j].nodes[q].log, run[i].nodes[p].commitIndex)
  {
    LogShape(n, run, i, p);
    AppliedInOrder(n, run, i, p);
    CommittedEntryReaches(n, run, i, p, j, q, run[i].nodes[p].commitIndex);
  }

  /** And for any one committed entry: every leader of a term above the entry's own
      has it, and all before it, unless its term is below that of the node that
      knows the entry to be committed. */
  lemma CommittedEntryReaches(n: nat, run: seq<State>, i: nat, p: nat, j: nat, q: nat, k: nat)
    requires IsRun(n, run) && i < |run| && j < |run| && p < n && q < n
    requires |run[i].nodes| == n && |run[j].nodes| == n
    requires run[j].nodes[q].role == Leader
    requires k <= run[i].nodes[p].commitIndex && k < |run[i].nodes[p].log|
    requires run[i].nodes[p].log[k].term < run[j].nodes[q].currentTerm
    requires run[i].nodes[p].currentTerm <= run[j].nodes[q].currentTerm
    ensures Agree(run[i].nodes[p].log, run[j].nodes[q].log, k)
  {
    FinalOk(n, run, i);
    FinalOk(n, run, j);
    LogShape(n, run, i, p);
    var h, a, b := Final(run).past, run[i].nodes[p], run[j].nodes[q];
    assert NodeOk(run[i].past, n, p, a);
    assert NodeOk(run[j].past, n, q, b);
    assert TermLogGrows(run[j].past, h, b.currentTerm);
    SafeGrows(run[i].past, h, n, a.log, a.commitIndex, a.currentTerm, a.currentTerm);
    SafeInTermLog(h, n, a, b.log, b.currentTerm, k);
  }

  lemma SafeInTermLog(h: History, n: nat, a: Node, log: seq<Entry>, t: int, k: nat)
    requires HistoryOk(h, n) && Safe(h, n, a.log, a.commitIndex, a.currentTerm)
    requires Ascending(a.log, a.currentTerm) && k <= a.commitIndex && k < |a.log|
    requires a.currentTerm <= t && a.log[k].term < t && t in h.termLog
    requires |log| <= |h.termLog[t]| && Agree(log, h.termLog[t], |log| - 1)
    requires forall i :: |log| <= i < |h.termLog[t]| ==> h.termLog[t][i].term == t
    ensures Agree(a.log, log, k)
  {
    SafeReaches(h, n, a.log, a.commitIndex, a.currentTerm, t);
  }

  // ---- state machine safety --------------------------------------------------------

  /** Any two committed prefixes agree as far as both reach. */
  lemma SafePrefixesAgree(h: History, n: nat, a: seq<Entry>, ca: int, ta: int, b: seq<Entry>, cb: int, tb: int)
    requires HistoryOk(h, n) && Safe(h, n, a, ca, ta) && Safe(h, n, b, cb, tb)
    ensures Agree(a, b, if ca <= cb then ca else cb)
  {
    var t, k :| t <= ta && SafeBy(h, n, a, ca, t, k);
    var t', k' :| t' <= tb && SafeBy(h, n, b, cb, t', k');
    if t <= t' {
      LeaderCompleteness(h, n, t, k, t');
    } else {
      LeaderCompleteness(h, n, t', k', t);
    }
  }

  lemma CommittedPrefixesAgree(n: nat, run: seq<State>, i: nat, p: nat, j: nat, q: nat)
    requires IsRun(n, run) && i < |run| && j < |run| && p < n && q < n
    requires |run[i].nodes| == n && |run[j].nodes| == n
    ensures var (a, b) := (run[i].nodes[p], run[j].nodes[q]);
            Agree(a.log, b.log, if a.commitIndex <= b.commitIndex then a.commitIndex else b.commitIndex)
  {
    FinalOk(n, run, i);
    FinalOk(n, run, j);
    var h, a, b := Final(run).past, run[i].nodes[p], run[j].nodes[q];
    assert NodeOk(run[i].past, n, p, a);
    assert NodeOk(run[j].past, n, q, b);
    SafeGrows(run[i].past, h, n, a.log, a.commitIndex, a.currentTerm, a.currentTerm);
    SafeGrows(run[j].past, h, n, b.log, b.commitIndex, b.currentTerm, b.currentTerm);
    SafePrefixesAgree(h, n, a.log, a.commitIndex, a.currentTerm, b.log, b.commitIndex, b.currentTerm);
  }

  /** Each node applies its log's prefix 1..lastApplied, every entry once and in
      order, and never runs ahead of what is committed. */
  lemma AppliedInOrder(n: nat, run: seq<State>, i: nat, p: nat)
    requires IsRun(n, run) && i < |run| && p < n
    ensures |run[i].nodes| == n
    ensures var a := run[i].nodes[p];
            && 0 <= a.lastApplied <= a.commitIndex < |a.log|
            && |a.stream| == a.lastApplied
            && forall x :: 0 <= x < |a.stream| ==>
                 && a.stream[x].index == x + 1
                 && a.stream[x] == ApplyMsg(x + 1, a.log[x + 1].term, a.log[x + 1].command)
  {
    RunOk(n, run, i);
    assert NodeOk(run[i].past, n, p, run[i].nodes[p]);
  }

  /** State Machine Safety: of any two nodes' applied sequences, at any times, one
      is a prefix of the other. */
  lemma StateMachineSafety(n: nat, run: seq<State>, i: nat, p: nat, j: nat, q: nat)
    requires IsRun(n, run) && i < |run| && j < |run| && p < n && q < n
    requires |run[i].nodes| == n && |run[j].nodes| == n
    ensures var (a, b) := (run[i].nodes[p].stream, run[j].nodes[q].stream);
            if |a| <= |b| then a <= b else b <= a
  {
    AppliedInOrder(n, run, i, p);
    AppliedInOrder(n, run, j, q);
    CommittedPrefixesAgree(n, run, i, p, j, q);
    var a, b := run[i].nodes[p], run[j].nodes[q];
    assert forall x {:trigger a.stream[x]} :: 0 <= x < |a.stream| && x < |b.stream| ==> a.log[x + 1] == b.log[x + 1];
  }

  /** The apply loop's "missing entry" branch is unreachable. */
  lemma ApplyNeverMisses(n: nat, run: seq<State>, i: nat, p: nat)
    requires IsRun(n, run) && i < |run| && p < n && |run[i].nodes| == n
    requires Sane(run[i].nodes[p]) && run[i].nodes[p].lastApplied < run[i].nodes[p].commitIndex
    ensures |ApplyNext(run[i].nodes[p]).stream| == |run[i].nodes[p].stream| + 1
  {
    AppliedInOrder(n, run, i, p);
  }

  // ---- nothing committed is ever removed ---------------------------------------------

  ghost predicate NeverBack(s: Node, s1: Node) {
    s1.currentTerm >= s.currentTerm && s1.commitIndex >= s.commitIndex && s.stream <= s1.stream
  }

  lemma ReceiverNeverGoesBack(h: History, n: nat, s: Node, m: AppendMsg)
    requires HistoryOk(h, n) && NodeOk(h, n, s.id, s) && AppendOk(h, n, m) && WellFormedAppend(m.args)
    ensures NeverBack(s, OnAppend(s, m.args).0)
  {
    if m.args.term > s.currentTerm {
      BecomeFollowerOk(h, n, s.id, s, m.args.term);
      OnAppendResult(h, n, BecomeFollower(s, m.args.term), m);
    } else if m.args.term == s.currentTerm {
      OnAppendResult(h, n, s, m);
    }
  }

  /** A step changes no node but its actor, and takes no term, commit index or applied entry back. */
  lemma StepNeverGoesBack(s: State, s': State, step: Step, p: nat)
    requires Enabled(s, step) && RunsThrough(s, step) && s' == Do(s, step) && p < |s.nodes|
    requires step.ReceiveAppend? ==>
               NeverBack(s.nodes[step.append.to], OnAppend(s.nodes[step.append.to], step.append.args).0)
    ensures |s'.nodes| == |s.nodes| && NeverBack(s.nodes[p], s'.nodes[p])
    ensures p != Actor(step) ==> s'.nodes[p] == s.nodes[p]
  {
  }

  lemma NextNeverGoesBack(s: State, s': State, p: nat)
    requires Inv(s) && Next(s, s') && p < |s.nodes|
    ensures |s'.nodes| == |s.nodes| && NeverBack(s.nodes[p], s'.nodes[p])
  {
    if s' != s {
      var step :| Enabled(s, step) && RunsThrough(s, step) && s' == Do(s, step);
      if step.ReceiveAppend? {
        ReceiverNeverGoesBack(s.past, |s.nodes|, s.nodes[step.append.to], step.append);
      }
      StepNeverGoesBack(s, s', step, p);
    }
  }

  lemma RunStepNeverGoesBack(n: nat, run: seq<State>, i: nat, p: nat)
    requires IsRun(n, run) && i < |run| - 1 && p < n
    ensures |run[i].nodes| == n && |run[i + 1].nodes| == n
    ensures NeverBack(run[i].nodes[p], run[i + 1].nodes[p])
  {
    RunOk(n, run, i);
    RunStep(n, run, i);
    NextNeverGoesBack(run[i], run[i + 1], p);
  }

  lemma RunSize(n: nat, run: seq<State>, i: nat)
    requires IsRun(n, run) && i < |run|
    ensures |run[i].nodes| == n
  {
    RunOk(n, run, i);
  }

  lemma {:induction false} RunNeverGoesBack(n: nat, run: seq<State>, i: nat, j: nat, p: nat)
    requires IsRun(n, run) && i <= j < |run| && p < n
    ensures |run[i].nodes| == n && |run[j].nodes| == n
    ensures NeverBack(run[i].nodes[p], run[j].nodes[p])
  {
    hide Next;
    RunSize(n, run, j);
    if i < j {
      RunNeverGoesBack(n, run, i, j - 1, p);
      RunStepNeverGoesBack(n, run, j - 1, p);
    }
  }

  /** A node's log up to its commit index is immutable for the rest of the run. */
  lemma CommittedIsImmutable(n: nat, run: seq<State>, i: nat, j: nat, p: nat)
    requires IsRun(n, run) && i <= j < |run| && p < n
    ensures |run[i].nodes| == n && |run[j].nodes| == n
    ensures run[i].nodes[p].commitIndex <= run[j].nodes[p].commitIndex
    ensures Agree(run[i].nodes[p].log, run[j].nodes[p].log, run[i].nodes[p].commitIndex)
  {
    RunNeverGoesBack(n, run, i, j, p);
    CommittedPrefixesAgree(n, run, i, p, j, p);
  }
}
