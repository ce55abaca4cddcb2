/** The invariant survives the steps that ask for, grant and count votes. */
module Elections {
  import opened RaftLog
  import opened RaftNode
  import opened Cluster
  import opened Invariant
  import opened Completeness
  import opened Growth

  lemma InitHistoryOk(n: nat, h: History)
    requires n > 0 && h == Init(n).past
    ensures HistoryOk(h, n) && Committed(h, n, 0, 0)
  {
    assert AllRooted(h.termLog, [SENTINEL]) && TermLogOk(h.termLog, 0);
    assert Ackers(h, n, 0, 0) == Range(n);
  }

  lemma InitNodeOk(n: nat, p: nat, h: History)
    requires p < n && h == Init(n).past && HistoryOk(h, n) && Committed(h, n, 0, 0)
    ensures NodeOk(h, n, p, InitNode(p, n))
  {
    assert AllRooted(h.termLog, [SENTINEL]);
    assert SafeBy(h, n, [SENTINEL], 0, 0, 0);
  }

  lemma InitOk(n: nat)
    requires n > 0
    ensures Inv(Init(n))
  {
    hide HistoryOk, NodeOk, Committed;
    var s := Init(n);
    InitHistoryOk(n, s.past);
    forall p | 0 <= p < n ensures NodeOk(s.past, n, p, s.nodes[p]) {
      InitNodeOk(n, p, s.past);
    }
  }

  lemma BecomeFollowerOk(h: History, n: nat, p: int, s: Node, term: int)
    requires HistoryOk(h, n) && NodeOk(h, n, p, s) && term > s.currentTerm
    ensures NodeOk(h, n, p, BecomeFollower(s, term))
  {
    LogFrame(h, h, n, p, s.log, s.commitIndex, s.currentTerm, term);
  }

  // ---- Elect ---------------------------------------------------------------

  /** The vote a candidate casts for itself. */
  lemma SelfVoteOk(h: History, n: nat, s: Node, s1: Node)
    requires HistoryOk(h, n) && NodeOk(h, n, s.id, s) && s.id in Range(n)
    requires s1 == s.(currentTerm := s.currentTerm + 1, role := Candidate, votedFor := s.id)
    ensures var h' := h.(votes := h.votes[(s1.currentTerm, s.id) := Vote(s.id, s.log)]);
            HistoryOk(h', n) && Grows(h, h') && OnlyAbout(h, h', s.id) && NodeOk(h', n, s.id, s1)
  {
    var t := s1.currentTerm;
    var h' := h.(votes := h.votes[(t, s.id) := Vote(s.id, s.log)]);
    CastVote(h, n, s.id, s.log, s.commitIndex, s.currentTerm, t, Vote(s.id, s.log));
    LogFrame(h, h', n, s.id, s.log, s.commitIndex, s.currentTerm, t);
  }

  /** A node votes for the first time in term t, with the log it has. Had a leader
      of term t already replaced that log, the vote comes too late to be counted. */
  lemma CastVote(h: History, n: nat, p: int, log: seq<Entry>, c: int, term: int, t: int, v: Vote)
    requires HistoryOk(h, n) && LogOk(h, n, p, log, c, term) && v.log == log
    requires (t, p) !in h.votes && term <= t
    requires VoteOk(h.(votes := h.votes[(t, p) := v]), n, t, p)
    ensures var h' := h.(votes := h.votes[(t, p) := v]);
            HistoryOk(h', n) && Grows(h, h')
  {
    var h' := h.(votes := h.votes[(t, p) := v]);
    forall t0, k ensures VoteRetains(h', t0, p, k, t) {
      assert LogRetains(h, p, log, term, t0, k);
      assert AckOk(h, n, t0, p);
      assert t in h.leaders ==> VictoryOk(h, n, t);
    }
    AddVote(h, n, t, p, v);
  }

  lemma ElectVotingOk(s: State, i: int)
    requires VotingOk(s) && 0 <= i < |s.nodes| && Sane(s.nodes[i]) && s.nodes[i].id == i
    requires Grows(s.past, DoElect(s, i).past)
    ensures VotingOk(DoElect(s, i))
  {
  }

  lemma ElectOk(s: State, i: int)
    requires Inv(s) && 0 <= i < |s.nodes|
    ensures Inv(DoElect(s, i)) && Grows(s.past, DoElect(s, i).past)
  {
    var n, node := |s.nodes|, s.nodes[i];
    var (node', req) := BeginElection(node);
    var s' := DoElect(s, i);
    if req.Some? {
      SelfVoteOk(s.past, n, node, node');
      OthersOk(s, s', i);
      AppendingGrows(s, s');
      ElectVotingOk(s, i);
    }
  }

  // ---- ReceiveVoteRequest ----------------------------------------------------

  lemma GrantOk(h: History, n: nat, s: Node, req: VoteArgs)
    requires HistoryOk(h, n) && NodeOk(h, n, s.id, s) && s.id in Range(n)
    requires VoteRequestOk(h, n, req) && s.id != req.candidateId
    requires s.currentTerm == req.term && (s.votedFor == -1 || s.votedFor == req.candidateId)
    requires UpToDate(req.lastLogTerm, req.lastLogIndex, s.log)
    ensures var s1 := s.(votedFor := req.candidateId);
            var key := (req.term, s.id);
            var h' := if key in h.votes then h else h.(votes := h.votes[key := Vote(req.candidateId, s.log)]);
            && HistoryOk(h', n) && Grows(h, h') && OnlyAbout(h, h', s.id) && NodeOk(h', n, s.id, s1)
            && VotedFor(h', req.term, s.id, req.candidateId)
  {
    var t, c := req.term, req.candidateId;
    if (t, s.id) !in h.votes {
      var v := Vote(c, s.log);
      var h' := h.(votes := h.votes[(t, s.id) := v]);
      assert VoteOk(h, n, t, c);
      assert VoteOk(h', n, t, s.id);
      CastVote(h, n, s.id, s.log, s.commitIndex, s.currentTerm, t, v);
      LogFrame(h, h', n, s.id, s.log, s.commitIndex, s.currentTerm, s.currentTerm);
    }
  }

  lemma VoteRequestVotingOk(s: State, i: int, req: VoteArgs)
    requires VotingOk(s) && 0 <= i < |s.nodes| && Sane(s.nodes[i])
    requires Grows(s.past, DoVoteRequest(s, i, req).past)
    requires OnVoteRequest(s.nodes[i], req).1.granted ==>
               VotedFor(DoVoteRequest(s, i, req).past, req.term, i, req.candidateId)
    ensures VotingOk(DoVoteRequest(s, i, req))
  {
  }

  /** Any vote request, on one node. */
  lemma VoterOk(h: History, h': History, n: nat, s: Node, s1: Node, reply: VoteReply, req: VoteArgs)
    requires HistoryOk(h, n) && NodeOk(h, n, s.id, s) && s.id in Range(n)
    requires VoteRequestOk(h, n, req) && s.id != req.candidateId
    requires (s1, reply) == OnVoteRequest(s, req)
    requires h' == if reply.granted && (req.term, s.id) !in h.votes
                   then h.(votes := h.votes[(req.term, s.id) := Vote(req.candidateId, s1.log)])
                   else h
    ensures HistoryOk(h', n) && Grows(h, h') && OnlyAbout(h, h', s.id) && NodeOk(h', n, s.id, s1)
    ensures reply.granted ==> VotedFor(h', req.term, s.id, req.candidateId)
  {
    if req.term > s.currentTerm {
      BecomeFollowerOk(h, n, s.id, s, req.term);
      if reply.granted {
        GrantOk(h, n, BecomeFollower(s, req.term), req);
      }
    } else if reply.granted {
      GrantOk(h, n, s, req);
    }
  }

  lemma VoteRequestStepOk(s: State, i: int, req: VoteArgs)
    requires Inv(s) && Enabled(s, ReceiveVoteRequest(i, req))
    ensures Inv(DoVoteRequest(s, i, req)) && Grows(s.past, DoVoteRequest(s, i, req).past)
  {
    var n, s' := |s.nodes|, DoVoteRequest(s, i, req);
    VoterOk(s.past, s'.past, n, s.nodes[i], s'.nodes[i], OnVoteRequest(s.nodes[i], req).1, req);
    OthersOk(s, s', i);
    AppendingGrows(s, s');
    VoteRequestVotingOk(s, i, req);
  }

  // ---- ReceiveVoteAnswer -----------------------------------------------------

  /** Election Safety, section 5.2: a majority votes at most once per term. */
  lemma NobodyWonYet(h: History, n: nat, s: Node, electors: set<int>)
    requires TermsOk(h, n) && PastOk(h, s) && s.role == Candidate
    requires electors <= Range(n) && Majority(n, electors)
    requires forall q :: q in electors ==> VotedFor(h, s.currentTerm, q, s.id)
    ensures s.currentTerm !in h.leaders
  {
    var t := s.currentTerm;
    if t in h.leaders {
      assert VictoryOk(h, n, t);
      var p := MajoritiesMeet(n, electors, h.leaders[t].electors);
      assert false;
    }
  }

  lemma WinnerLeads(h: History, n: nat, s: Node, s1: Node)
    requires NodeOk(h, n, s.id, s) && s.role == Candidate && s.id in Range(n)
    requires HistoryOk(h, n) && s1 == BecomeLeader(s)
    ensures Leads(h, n, s1, s.log)
  {
    assert VoteOk(h, n, s.currentTerm, s.id);
  }

  lemma VictoryRecorded(h: History, h': History, n: nat, s: Node, s1: Node, electors: set<int>)
    requires HistoryOk(h, n) && NodeOk(h, n, s.id, s) && s.role == Candidate && s.id in Range(n)
    requires s.currentTerm !in h.leaders
    requires s1 == BecomeLeader(s) && h' == RecordVictory(h, s1, electors)
    ensures s.currentTerm !in h.termLog
    ensures Grows(h, h') && OnlyAbout(h, h', s.id)
  {
    assert VoteOk(h, n, s.currentTerm, s.id);
    assert AckOk(h, n, s.currentTerm, s.id);
  }

  lemma NewVictoryOk(h: History, h': History, n: nat, s: Node, s1: Node, electors: set<int>)
    requires HistoryOk(h, n) && NodeOk(h, n, s.id, s) && s.role == Candidate && s.id in electors
    requires electors <= Range(n) && Majority(n, electors) && s.currentTerm !in h.leaders
    requires forall q :: q in electors ==> VotedFor(h, s.currentTerm, q, s.id)
    requires s1 == BecomeLeader(s) && h' == RecordVictory(h, s1, electors)
    ensures VictoryOk(h', n, s.currentTerm)
  {
    assert VoteOk(h, n, s.currentTerm, s.id);
  }

  lemma VictoryIsOk(h: History, h': History, n: nat, s: Node, s1: Node, electors: set<int>)
    requires HistoryOk(h, n) && NodeOk(h, n, s.id, s) && s.role == Candidate && s.id in electors
    requires electors <= Range(n) && Majority(n, electors)
    requires forall q :: q in electors ==> VotedFor(h, s.currentTerm, q, s.id)
    requires s1 == BecomeLeader(s) && h' == RecordVictory(h, s1, electors)
    ensures HistoryOk(h', n) && Grows(h, h') && OnlyAbout(h, h', s.id) && NodeOk(h', n, s.id, s1)
  {
    NobodyWonYet(h, n, s, electors);
    VictoryRecorded(h, h', n, s, s1, electors);
    WinnerLeads(h, n, s, s1);
    NewVictoryOk(h, h', n, s, s1, electors);
    RecordLogKeeps(h, h', n, s1, s.log);
    LeaderLogOk(h, h', n, s1, s.log);
  }

  lemma CampaignStepOk(s: State, a: VoteAnswer)
    requires VotingOk(s) && Enabled(s, ReceiveVoteAnswer(a)) && Sane(s.nodes[a.args.candidateId])
    requires Grows(s.past, DoVoteAnswer(s, a).past)
    ensures VotingOk(DoVoteAnswer(s, a))
  {
    var key := (a.args.term, a.args.candidateId);
    var s' := DoVoteAnswer(s, a);
    VotingGrows(s, s'.(campaigns := s.campaigns));
    assert CampaignOk(s'.past, |s.nodes|, key.0, key.1, s.campaigns[key]);
    assert VoteAnswerOk(s.past, |s.nodes|, a);
    assert CampaignOk(s'.past, |s.nodes|, key.0, key.1, s'.campaigns[key]);
  }

  lemma AnswererKnown(s: State, a: VoteAnswer)
    requires NodesOk(s) && VotingOk(s) && Enabled(s, ReceiveVoteAnswer(a))
    ensures Sane(s.nodes[a.args.candidateId]) && s.nodes[a.args.candidateId].id == a.args.candidateId
    ensures |s.nodes[a.args.candidateId].nextIndex| == |s.nodes|
    ensures NodeOk(s.past, |s.nodes|, a.args.candidateId, s.nodes[a.args.candidateId])
    ensures CampaignOk(s.past, |s.nodes|, a.args.term, a.args.candidateId, s.campaigns[(a.args.term, a.args.candidateId)])
    ensures VoteAnswerOk(s.past, |s.nodes|, a)
  {
    assert NodeOk(s.past, |s.nodes|, a.args.candidateId, s.nodes[a.args.candidateId]);
  }

  /** A vote reply, on the node that asked. */
  lemma CandidateOkAfter(h: History, h': History, n: nat, s: Node, s1: Node, a: VoteAnswer, c: Campaign, votes: int)
    requires HistoryOk(h, n) && NodeOk(h, n, s.id, s) && |s.nextIndex| == n && s.id == a.args.candidateId
    requires CampaignOk(h, n, a.args.term, s.id, c) && VoteAnswerOk(h, n, a) && a.voter in c.waiting
    requires (s1, votes) == OnVoteReply(s, a.args.term, c.votes, a.reply)
    requires h' == if s.role != Leader && s1.role == Leader
                   then RecordVictory(h, s1, c.counted + {a.voter} + {s.id}) else h
    ensures HistoryOk(h', n) && Grows(h, h') && OnlyAbout(h, h', s.id) && NodeOk(h', n, s.id, s1)
  {
    if s.role != Leader && s1.role == Leader {
      var electors := c.counted + {a.voter} + {s.id};
      assert |electors| == votes;
      QuorumIsMajority(n, electors);
      VictoryIsOk(h, h', n, s, s1, electors);
    } else {
      SamePast(h);
      NoNews(h, n, s.id);
      if a.reply.term > s.currentTerm {
        BecomeFollowerOk(h, n, s.id, s, a.reply.term);
      }
    }
  }

  lemma VoteAnswerStepOk(s: State, a: VoteAnswer)
    requires Inv(s) && Enabled(s, ReceiveVoteAnswer(a))
    ensures Inv(DoVoteAnswer(s, a)) && Grows(s.past, DoVoteAnswer(s, a).past)
  {
    hide HistoryOk, NodesOk, VotingOk, AppendingOk, NodeOk, CampaignOk, Grows, OnlyAbout, RecordVictory;
    AnswererKnown(s, a);
    var n, i, s' := |s.nodes|, a.args.candidateId, DoVoteAnswer(s, a);
    var node, c := s.nodes[i], s.campaigns[(a.args.term, i)];
    var (node', votes) := OnVoteReply(node, a.args.term, c.votes, a.reply);
    CandidateOkAfter(s.past, s'.past, n, node, node', a, c, votes);
    OthersOk(s, s', i);
    AppendingGrows(s, s');
    CampaignStepOk(s, a);
  }
}
