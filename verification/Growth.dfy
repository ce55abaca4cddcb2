/** The parts of the invariant that only ever gain from a growing history. */
module Growth {
  import opened RaftLog
  import opened RaftNode
  import opened Cluster
  import opened Sets
  import opened Invariant
  import opened Completeness

  lemma GrowsTwice(h: History, h': History, h'': History)
    requires Grows(h, h') && Grows(h', h'')
    ensures Grows(h, h'')
  {
    forall t {:trigger TermLogGrows(h, h'', t)} | t in h.termLog ensures TermLogGrows(h, h'', t) {
      assert TermLogGrows(h, h', t) && TermLogGrows(h', h'', t);
    }
  }

  lemma RootedGrows(h: History, h': History, log: seq<Entry>)
    requires Grows(h, h') && AllRooted(h.termLog, log)
    ensures AllRooted(h'.termLog, log)
  {
    forall i {:trigger Rooted(h'.termLog, log, i)} | 0 <= i < |log| ensures Rooted(h'.termLog, log, i) {
      assert Rooted(h.termLog, log, i);
      assert TermLogGrows(h, h', log[i].term);
    }
  }

  lemma CommittedGrows(h: History, h': History, n: nat, t: int, k: int)
    requires Grows(h, h') && Committed(h, n, t, k)
    ensures Committed(h', n, t, k)
  {
    assert TermLogGrows(h, h', t);
    SubsetIsNoLarger(Ackers(h, n, t, k), Ackers(h', n, t, k));
  }

  lemma SafeGrows(h: History, h': History, n: nat, log: seq<Entry>, c: int, bound: int, bound': int)
    requires Grows(h, h') && Safe(h, n, log, c, bound) && bound <= bound'
    ensures Safe(h', n, log, c, bound')
  {
    var t, k :| t <= bound && SafeBy(h, n, log, c, t, k);
    CommittedGrows(h, h', n, t, k);
    assert TermLogGrows(h, h', t);
    assert SafeBy(h', n, log, c, t, k);
  }

  lemma SafeMoves(h: History, n: nat, log: seq<Entry>, log': seq<Entry>, c: int, bound: int)
    requires Safe(h, n, log, c, bound) && Agree(log, log', c)
    ensures Safe(h, n, log', c, bound)
  {
    var t, k :| t <= bound && SafeBy(h, n, log, c, t, k);
    assert SafeBy(h, n, log', c, t, k);
  }

  /** A leader that lacks an older term's entry can never come to hold it: what it
      adds is of its own term. */
  lemma OverriddenGrows(h: History, h': History, n: nat, t: int, k: int, bound: int)
    requires TermsOk(h, n) && Grows(h, h')
    requires t in h.termLog && 0 <= k < |h.termLog[t]| && t in h'.termLog
    requires Overridden(h, t, k, bound)
    ensures Overridden(h', t, k, bound)
  {
    var u :| t < u <= bound && u in h.termLog && !Agree(h.termLog[t], h.termLog[u], k);
    assert TermLogGrows(h, h', t) && TermLogGrows(h, h', u) && TermLogOk(h.termLog, t);
    var end := |h.termLog[u]|;
    assert end <= k && k < |h'.termLog[u]| ==> h'.termLog[u][end].term == u && h'.termLog[t][end].term <= t;
  }

  lemma RetainedGrows(h: History, h': History, n: nat, t: int, k: int, log: seq<Entry>, bound: int, bound': int)
    requires TermsOk(h, n) && Grows(h, h')
    requires t in h.termLog && 0 <= k < |h.termLog[t]| && t in h'.termLog
    requires Retained(h, t, k, log, bound) && bound <= bound'
    ensures Retained(h', t, k, log, bound')
  {
    assert TermLogGrows(h, h', t);
    if !Agree(h.termLog[t], log, k) {
      OverriddenGrows(h, h', n, t, k, bound);
    }
  }

  // ---- nodes that did not move -------------------------------------------

  /** Nothing the history says of any node but p is new. */
  ghost predicate OnlyAbout(h: History, h': History, p: int) {
    && (forall t, q {:trigger Acked(h', t, q)} :: q != p ==> Acked(h', t, q) == Acked(h, t, q))
    && (forall t, q :: q != p && (t, q) in h'.votes ==> (t, q) in h.votes)
    && (forall t :: t in h'.leaders && h'.leaders[t].leader != p ==>
          t in h.leaders && h.leaders[t] == h'.leaders[t]
          && t in h.termLog && t in h'.termLog && h'.termLog[t] == h.termLog[t])
  }

  lemma SamePast(h: History)
    ensures Grows(h, h)
  {
    assert forall t {:trigger TermLogGrows(h, h, t)} :: t in h.termLog ==> TermLogGrows(h, h, t);
  }

  lemma NoNews(h: History, n: nat, p: int)
    requires TermsOk(h, n)
    ensures OnlyAbout(h, h, p)
  {
  }

  lemma LogFrame(h: History, h': History, n: nat, p: int, log: seq<Entry>, commitIndex: int, term: int, term': int)
    requires HistoryOk(h, n) && Grows(h, h') && LogOk(h, n, p, log, commitIndex, term)
    requires forall t :: Acked(h', t, p) == Acked(h, t, p)
    requires term <= term'
    ensures LogOk(h', n, p, log, commitIndex, term')
  {
    RootedGrows(h, h', log);
    SafeGrows(h, h', n, log, commitIndex, term, term');
    forall t, k {:trigger LogRetains(h', p, log, term', t, k)}
      ensures LogRetains(h', p, log, term', t, k)
    {
      if 0 <= k <= Acked(h', t, p) {
        assert AckOk(h, n, t, p);
        assert LogRetains(h, p, log, term, t, k) && TermLogGrows(h, h', t);
        RetainedGrows(h, h', n, t, k, log, term, term');
      }
    }
  }

  lemma NodeFrame(h: History, h': History, n: nat, p: int, q: int, s: Node)
    requires HistoryOk(h, n) && Grows(h, h') && OnlyAbout(h, h', p) && NodeOk(h, n, q, s) && q != p
    ensures NodeOk(h', n, q, s)
  {
    LogFrame(h, h', n, q, s.log, s.commitIndex, s.currentTerm, s.currentTerm);
  }

  /** Everything but the node that moved. */
  lemma OthersOk(s: State, s': State, p: int)
    requires HistoryOk(s.past, |s.nodes|) && NodesOk(s)
    requires Grows(s.past, s'.past) && OnlyAbout(s.past, s'.past, p)
    requires 0 <= p < |s.nodes| == |s'.nodes| && s'.nodes == s.nodes[p := s'.nodes[p]]
    requires NodeOk(s'.past, |s.nodes|, p, s'.nodes[p])
    ensures NodesOk(s')
  {
    forall q {:trigger s'.nodes[q]} | 0 <= q < |s'.nodes| ensures NodeOk(s'.past, |s'.nodes|, q, s'.nodes[q]) {
      if q != p {
        NodeFrame(s.past, s'.past, |s.nodes|, p, q, s.nodes[q]);
      }
    }
  }

  // ---- messages ------------------------------------------------------------

  lemma AppendGrows(h: History, h': History, n: nat, m: AppendMsg)
    requires Grows(h, h') && AppendOk(h, n, m)
    ensures AppendOk(h', n, m)
  {
    var t := m.args.term;
    assert TermLogGrows(h, h', t);
    SafeGrows(h, h', n, h.termLog[t], m.args.leaderCommit, t, t);
    SafeMoves(h', n, h.termLog[t], h'.termLog[t], m.args.leaderCommit, t);
  }

  lemma AppendingGrows(s: State, s': State)
    requires AppendingOk(s) && Grows(s.past, s'.past) && |s'.nodes| == |s.nodes|
    requires s'.appends == s.appends && s'.appendAnswers == s.appendAnswers
    ensures AppendingOk(s')
  {
    forall m | m in s'.appends ensures AppendOk(s'.past, |s.nodes|, m) {
      AppendGrows(s.past, s'.past, |s.nodes|, m);
    }
    forall a | a in s'.appendAnswers ensures AppendAnswerOk(s'.past, |s.nodes|, a) {
      AppendGrows(s.past, s'.past, |s.nodes|, AppendMsg(a.from, a.args));
    }
  }

  lemma VotingGrows(s: State, s': State)
    requires VotingOk(s) && Grows(s.past, s'.past) && |s'.nodes| == |s.nodes|
    requires s'.campaigns == s.campaigns
    requires s'.voteRequests == s.voteRequests && s'.voteAnswers == s.voteAnswers
    ensures VotingOk(s')
  {
  }

  // ---- history -------------------------------------------------------------

  /** Old votes still retain what they did, if no one confirms anything for a
      term older than one it has voted in. */
  lemma VoteRetainsGrows(h: History, h': History, n: nat, t: int, p: int, k: int, t': int)
    requires HistoryOk(h, n) && Grows(h, h')
    requires (t', p) in h'.votes ==> (t', p) in h.votes
    requires t < t' && (t', p) in h.votes ==> Acked(h', t, p) == Acked(h, t, p)
    ensures VoteRetains(h', t, p, k, t')
  {
    if 0 <= k <= Acked(h', t, p) && t in h'.termLog && t < t' && (t', p) in h'.votes && Relevant(h', t', p) {
      assert AckOk(h, n, t, p);
      assert VoteRetains(h, t, p, k, t') && TermLogGrows(h, h', t);
      RetainedGrows(h, h', n, t, k, h.votes[(t', p)].log, t' - 1, t' - 1);
    }
  }

  lemma VoteOkGrows(h: History, h': History, n: nat, t: int, p: int)
    requires Grows(h, h') && (t, p) in h.votes && VoteOk(h, n, t, p)
    ensures VoteOk(h', n, t, p)
  {
    RootedGrows(h, h', h.votes[(t, p)].log);
  }

  /** A node casts a vote it has not cast before. */
  lemma AddVote(h: History, n: nat, t: int, p: int, v: Vote)
    requires HistoryOk(h, n) && (t, p) !in h.votes
    requires var h' := h.(votes := h.votes[(t, p) := v]);
             VoteOk(h', n, t, p) && forall t0, k :: VoteRetains(h', t0, p, k, t)
    ensures var h' := h.(votes := h.votes[(t, p) := v]);
            HistoryOk(h', n) && Grows(h, h')
  {
    var h' := h.(votes := h.votes[(t, p) := v]);
    assert Grows(h, h');
    forall t1 {:trigger VictoryOk(h', n, t1)} | t1 in h'.leaders ensures VictoryOk(h', n, t1) {
      assert VictoryOk(h, n, t1);
    }
    forall t1, p1 {:trigger VoteOk(h', n, t1, p1)} | (t1, p1) in h'.votes ensures VoteOk(h', n, t1, p1) {
      if (t1, p1) != (t, p) {
        VoteOkGrows(h, h', n, t1, p1);
      }
    }
    forall t1, p1 {:trigger AckOk(h', n, t1, p1)} ensures AckOk(h', n, t1, p1) {
      assert AckOk(h, n, t1, p1);
    }
    forall t1, p1, k, t2 {:trigger VoteRetains(h', t1, p1, k, t2)} ensures VoteRetains(h', t1, p1, k, t2) {
      if (t2, p1) != (t, p) {
        VoteRetainsGrows(h, h', n, t1, p1, k, t2);
      }
    }
  }

  /** A node confirms more of the log of a leader; it has voted in no later term. */
  lemma RaiseAck(h: History, n: nat, t: int, p: int, end: int)
    requires HistoryOk(h, n) && p in Range(n)
    requires t in h.leaders && h.leaders[t].leader != p && t in h.termLog
    requires Acked(h, t, p) < end < |h.termLog[t]|
    requires forall t' :: (t', p) in h.votes ==> t' <= t
    ensures var h' := h.(acked := h.acked[(t, p) := end]);
            HistoryOk(h', n) && Grows(h, h')
  {
    var h' := h.(acked := h.acked[(t, p) := end]);
    assert Grows(h, h');
    forall t1 {:trigger VictoryOk(h', n, t1)} | t1 in h'.leaders ensures VictoryOk(h', n, t1) {
      assert VictoryOk(h, n, t1);
    }
    forall t1, p1 {:trigger VoteOk(h', n, t1, p1)} | (t1, p1) in h'.votes ensures VoteOk(h', n, t1, p1) {
      VoteOkGrows(h, h', n, t1, p1);
    }
    forall t1, p1 {:trigger AckOk(h', n, t1, p1)} ensures AckOk(h', n, t1, p1) {
      assert AckOk(h, n, t1, p1);
    }
    forall t1, p1, k, t2 {:trigger VoteRetains(h', t1, p1, k, t2)} ensures VoteRetains(h', t1, p1, k, t2) {
      VoteRetainsGrows(h, h', n, t1, p1, k, t2);
    }
  }

  // ---- a leader's log grows by one entry of its term ------------------------

  /** The leader of a term, new or already elected, ends its log with an entry of
      that term; before is the log without it. */
  ghost predicate Leads(h: History, n: nat, node: Node, before: seq<Entry>) {
    var t := node.currentTerm;
    && |before| > 0
    && t >= 1
    && node.id in Range(n)
    && AllRooted(h.termLog, before)
    && LastTermOf(before) <= t
    && |node.log| == |before| + 1
    && node.log == before + [node.log[|before|]]
    && node.log[|before|].index == |before|
    && node.log[|before|].term == t
    && (forall t' :: (t', node.id) in h.votes ==> t' <= t)
  }

  lemma TermLogExtended(h: History, h': History, n: nat, node: Node, before: seq<Entry>)
    requires TermsOk(h, n) && Leads(h, n, node, before)
    requires h'.termLog == h.termLog[node.currentTerm := node.log]
    requires node.currentTerm in h.termLog ==> h.termLog[node.currentTerm] == before
    requires Grows(h, h')
    ensures forall t {:trigger TermLogOk(h'.termLog, t)} :: t in h'.termLog ==> TermLogOk(h'.termLog, t)
  {
    RootedShape(h, n, before);
    forall t {:trigger TermLogOk(h'.termLog, t)} | t in h'.termLog ensures TermLogOk(h'.termLog, t) {
      if t == node.currentTerm {
        RootedGrows(h, h', before);
        forall i {:trigger Rooted(h'.termLog, node.log, i)} | 0 <= i < |node.log|
          ensures Rooted(h'.termLog, node.log, i)
        {
          if i < |before| {
            assert Rooted(h'.termLog, before, i);
          }
        }
      } else {
        assert TermLogOk(h.termLog, t);
        RootedGrows(h, h', h.termLog[t]);
      }
    }
  }

  /** Shared by an election won and a command submitted. */
  lemma RecordLogKeeps(h: History, h': History, n: nat, node: Node, before: seq<Entry>)
    requires HistoryOk(h, n) && Leads(h, n, node, before)
    requires node.currentTerm in h.termLog ==> h.termLog[node.currentTerm] == before
    requires h' == RecordLog(h.(leaders := h'.leaders), node)
    requires node.currentTerm in h'.leaders && h'.leaders == h.leaders[node.currentTerm := h'.leaders[node.currentTerm]]
    requires node.currentTerm in h.leaders ==> h'.leaders == h.leaders
    requires Grows(h, h')
    requires VictoryOk(h', n, node.currentTerm)
    ensures HistoryOk(h', n)
  {
    TermLogExtended(h, h', n, node, before);
    forall t1 {:trigger VictoryOk(h', n, t1)} | t1 in h'.leaders ensures VictoryOk(h', n, t1) {
      if t1 != node.currentTerm {
        assert VictoryOk(h, n, t1);
      }
    }
    forall t1, p1 {:trigger VoteOk(h', n, t1, p1)} | (t1, p1) in h'.votes ensures VoteOk(h', n, t1, p1) {
      VoteOkGrows(h, h', n, t1, p1);
    }
    forall t1, p1 {:trigger AckOk(h', n, t1, p1)} ensures AckOk(h', n, t1, p1) {
      assert AckOk(h, n, t1, p1);
    }
    forall t1, p1, k, t2 {:trigger VoteRetains(h', t1, p1, k, t2)} ensures VoteRetains(h', t1, p1, k, t2) {
      VoteRetainsGrows(h, h', n, t1, p1, k, t2);
    }
  }

  /** The leader's own log after it grew. */
  lemma LeaderLogOk(h: History, h': History, n: nat, node: Node, before: seq<Entry>)
    requires HistoryOk(h, n) && HistoryOk(h', n) && Grows(h, h') && Leads(h, n, node, before)
    requires h'.termLog == h.termLog[node.currentTerm := node.log]
    requires LogOk(h, n, node.id, before, node.commitIndex, node.currentTerm)
    requires forall t :: t != node.currentTerm ==> Acked(h', t, node.id) == Acked(h, t, node.id)
    ensures LogOk(h', n, node.id, node.log, node.commitIndex, node.currentTerm)
  {
    var p, c, term := node.id, node.commitIndex, node.currentTerm;
    assert TermLogOk(h'.termLog, term);
    SafeGrows(h, h', n, before, c, term, term);
    SafeMoves(h', n, before, node.log, c, term);
    forall t, k {:trigger LogRetains(h', p, node.log, term, t, k)}
      ensures LogRetains(h', p, node.log, term, t, k)
    {
      assert AckOk(h', n, t, p);
      if 0 <= k <= Acked(h', t, p) && t != term {
        assert AckOk(h, n, t, p);
        assert LogRetains(h, p, before, term, t, k) && TermLogGrows(h, h', t);
        RetainedGrows(h, h', n, t, k, before, term, term);
      }
    }
  }
}
