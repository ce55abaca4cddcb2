/** What the cluster can always still do: from every state of every run, any majority of
    the nodes can, without the others, get a leader and commit a new command. */
module Availability {
  import opened Options
  import opened RaftLog
  import opened RaftNode
  import opened Cluster
  import opened Sets
  import opened Invariant
  import opened Appends
  import opened Safety
  import opened Replication
  import opened Repair
  import opened Replies

  /** The run goes on with one more step. */
  lemma Extend(n: nat, run: seq<State>, step: Step) returns (longer: seq<State>)
    requires IsRun(n, run) && Enabled(Final(run), step)
    ensures |Final(run).nodes| == n && RunsThrough(Final(run), step)
    ensures IsRun(n, longer) && run <= longer && Final(longer) == Do(Final(run), step)
  {
    RunOk(n, run, |run| - 1);
    EnabledRunsThrough(Final(run), step);
    var s' := Do(Final(run), step);
    longer := run + [s'];
    assert Next(Final(run), s');
    forall i {:trigger StepAt(longer, i)} ensures StepAt(longer, i) {
      assert StepAt(run, i);
    }
  }

  lemma NodeNow(n: nat, run: seq<State>, p: nat)
    requires IsRun(n, run) && p < n
    ensures |Final(run).nodes| == n && Sane(Final(run).nodes[p]) && Final(run).nodes[p].id == p
    ensures |Final(run).nodes[p].nextIndex| == n && 0 <= Final(run).nodes[p].currentTerm
  {
    RunOk(n, run, |run| - 1);
    assert NodeOk(Final(run).past, n, p, Final(run).nodes[p]);
  }

  ghost predicate OnlyIn(s: State, s': State, group: set<int>) {
    |s'.nodes| == |s.nodes| && forall q :: 0 <= q < |s.nodes| && q !in group ==> s'.nodes[q] == s.nodes[q]
  }

  // ---- a vote request reaches a group --------------------------------------------

  lemma AskOne(n: nat, run: seq<State>, req: VoteArgs, q: nat) returns (longer: seq<State>)
    requires IsRun(n, run) && req in Final(run).voteRequests && q < n && req.candidateId != q
    ensures IsRun(n, longer) && run <= longer && |Final(run).nodes| == n && Sane(Final(run).nodes[q])
    ensures Final(longer).nodes == Final(run).nodes[q := OnVoteRequest(Final(run).nodes[q], req).0]
    ensures Final(longer).campaigns == Final(run).campaigns && Final(longer).voteRequests == Final(run).voteRequests
    ensures VoteAnswer(q, req, OnVoteRequest(Final(run).nodes[q], req).1) in Final(longer).voteAnswers
  {
    NodeNow(n, run, q);
    longer := Extend(n, run, ReceiveVoteRequest(q, req));
  }

  /** What the request brings about in each of the group. */
  ghost predicate Asked(s: State, s': State, req: VoteArgs, q: int) {
    && 0 <= q < |s.nodes| == |s'.nodes| && Sane(s.nodes[q])
    && s'.nodes[q] == OnVoteRequest(s.nodes[q], req).0
    && VoteAnswer(q, req, OnVoteRequest(s.nodes[q], req).1) in s'.voteAnswers
  }

  lemma {:induction false} Ask(n: nat, run: seq<State>, req: VoteArgs, todo: set<int>) returns (longer: seq<State>)
    requires IsRun(n, run) && req in Final(run).voteRequests && |Final(run).nodes| == n
    requires todo <= Range(n) && req.candidateId !in todo
    ensures IsRun(n, longer) && run <= longer && OnlyIn(Final(run), Final(longer), todo)
    ensures Final(longer).campaigns == Final(run).campaigns
    ensures forall q :: q in todo ==> Asked(Final(run), Final(longer), req, q)
    decreases |todo|
  {
    if todo == {} {
      longer := run;
    } else {
      var q := SomeMember(todo);
      var one := AskOne(n, run, req, q);
      longer := Ask(n, one, req, todo - {q});
      hide OnVoteRequest;
      var a := VoteAnswer(q, req, OnVoteRequest(Final(run).nodes[q], req).1);
      VoteAnswersStay(n, one, longer, a);
      hide IsRun;
      AskedAll(Final(run), Final(one), Final(longer), req, q, todo);
    }
  }

  lemma AskedAll(s: State, s1: State, s': State, req: VoteArgs, q: int, todo: set<int>)
    requires q in todo && 0 <= q < |s.nodes| && Sane(s.nodes[q])
    requires s1.nodes == s.nodes[q := OnVoteRequest(s.nodes[q], req).0]
    requires VoteAnswer(q, req, OnVoteRequest(s.nodes[q], req).1) in s'.voteAnswers
    requires OnlyIn(s1, s', todo - {q}) && forall r :: r in todo - {q} ==> Asked(s1, s', req, r)
    ensures OnlyIn(s, s', todo) && forall r :: r in todo ==> Asked(s, s', req, r)
  {
    hide OnVoteRequest;
    forall r | r in todo ensures Asked(s, s', req, r) {
      if r != q {
        assert Asked(s1, s', req, r);
      }
    }
  }

  lemma VoteAnswersStay(n: nat, run: seq<State>, longer: seq<State>, a: VoteAnswer)
    requires IsRun(n, run) && IsRun(n, longer) && run <= longer && a in Final(run).voteAnswers
    ensures a in Final(longer).voteAnswers
  {
    VoteAnswersStayTo(n, longer, |run| - 1, |longer| - 1, a);
  }

  lemma {:induction false} VoteAnswersStayTo(n: nat, run: seq<State>, i: nat, j: nat, a: VoteAnswer)
    requires IsRun(n, run) && i <= j < |run| && a in run[i].voteAnswers
    ensures a in run[j].voteAnswers
  {
    if i < j {
      VoteAnswersStayTo(n, run, i, j - 1, a);
      RunStep(n, run, j - 1);
    }
  }

  // ---- the votes come in -----------------------------------------------------------

  predicate Grants(a: VoteAnswer, p: int, t: int, q: int) {
    GrantedBy(a, t, p, q) && a.reply.term == t
  }

  ghost predicate Promised(s: State, p: int, t: int, q: int) {
    exists a :: a in s.voteAnswers && Grants(a, p, t, q)
  }

  /** A candidate that still waits for enough granted votes can be elected. */
  lemma {:induction false} Collect(n: nat, run: seq<State>, p: nat, t: int, todo: set<int>) returns (longer: seq<State>)
    requires IsRun(n, run) && p < n && |Final(run).nodes| == n
    requires Final(run).nodes[p].role == Candidate && Final(run).nodes[p].currentTerm == t
    requires (t, p) in Final(run).campaigns && todo <= Final(run).campaigns[(t, p)].waiting
    requires forall q :: q in todo ==> Promised(Final(run), p, t, q)
    requires 2 * Final(run).campaigns[(t, p)].votes <= n < 2 * (Final(run).campaigns[(t, p)].votes + |todo|)
    ensures IsRun(n, longer) && run <= longer && OnlyIn(Final(run), Final(longer), {p})
    ensures Sane(Final(run).nodes[p]) && Elected(Final(run).nodes[p], Final(longer).nodes[p])
    decreases |todo|
  {
    NodeNow(n, run, p);
    var q := SomeMember(todo);
    assert Promised(Final(run), p, t, q);
    var a :| a in Final(run).voteAnswers && Grants(a, p, t, q);
    var one := Extend(n, run, ReceiveVoteAnswer(a));
    var s, s1 := Final(run), Final(one);
    var c := s.campaigns[(t, p)];
    var (node, votes) := OnVoteReply(s.nodes[p], t, c.votes, a.reply);
    VoteCountsIff(s.nodes[p], t, c.votes, a.reply, node, votes);
    assert s1.nodes == s.nodes[p := node];
    if 2 * votes > n {
      longer := one;
    } else {
      assert s1.campaigns[(t, p)].waiting == c.waiting - {q};
      forall r | r in todo - {q} ensures Promised(s1, p, t, r) {
        assert Promised(s, p, t, r);
        var b :| b in s.voteAnswers && Grants(b, p, t, r);
        assert b in s1.voteAnswers;
      }
      longer := Collect(n, one, p, t, todo - {q});
    }
  }

  // ---- some node of the group is elected ---------------------------------------------

  lemma Stand(n: nat, run: seq<State>, p: nat) returns (longer: seq<State>, req: VoteArgs)
    requires IsRun(n, run) && p < n && |Final(run).nodes| == n && Final(run).nodes[p].role != Leader
    ensures IsRun(n, longer) && run <= longer && Sane(Final(run).nodes[p]) && Final(run).nodes[p].id == p
    ensures req in Final(longer).voteRequests && |Final(longer).nodes| == n
    ensures Final(longer).nodes == Final(run).nodes[p := Final(longer).nodes[p]]
    ensures (Final(longer).nodes[p], Some(req)) == BeginElection(Final(run).nodes[p])
    ensures (req.term, p) in Final(longer).campaigns
    ensures Final(longer).campaigns[(req.term, p)] == Campaign(1, Range(n) - {p}, {})
  {
    NodeNow(n, run, p);
    longer := Extend(n, run, Elect(p));
    req := BeginElection(Final(run).nodes[p]).1.value;
  }

  /** All of the group are in one term, and none of them leads. */
  ghost predicate Settled(s: State, group: set<int>, t: int) {
    forall q :: q in group ==> 0 <= q < |s.nodes| && s.nodes[q].role != Leader && s.nodes[q].currentTerm == t
  }

  lemma AskedSteps(s: Node, req: VoteArgs)
    requires Sane(s) && s.currentTerm < req.term
    ensures var (s1, reply) := OnVoteRequest(s, req);
            s1.role == Follower && s1.currentTerm == req.term == reply.term && s1.log == s.log
  {
    VoteGrantedIff(s, req, OnVoteRequest(s, req).0, OnVoteRequest(s, req).1);
  }

  /** A node whose term is the greatest, if it does not lead, unsettles every leader of
      the group by standing for election. */
  lemma Settle(n: nat, run: seq<State>, group: set<int>, h: nat) returns (longer: seq<State>)
    requires IsRun(n, run) && |Final(run).nodes| == n && group <= Range(n) && h in group
    requires Final(run).nodes[h].role != Leader
    requires forall q :: q in group ==> Final(run).nodes[q].currentTerm <= Final(run).nodes[h].currentTerm
    ensures IsRun(n, longer) && run <= longer && OnlyIn(Final(run), Final(longer), group)
    ensures Settled(Final(longer), group, Final(run).nodes[h].currentTerm + 1)
  {
    var stood, req := Stand(n, run, h);
    StandsIff(Final(run).nodes[h], Final(stood).nodes[h], Some(req));
    longer := Ask(n, stood, req, group - {h});
    hide IsRun;
    var s, s' := Final(stood), Final(longer);
    forall q | q in group
      ensures s'.nodes[q].role != Leader && s'.nodes[q].currentTerm == req.term
    {
      if q != h {
        assert Asked(s, s', req, q);
        AskedSteps(s.nodes[q], req);
      }
    }
  }

  /** The group's best log is asked for its votes, and all promise them. */
  lemma AskForBest(n: nat, run: seq<State>, group: set<int>, t: int, p: nat) returns (longer: seq<State>)
    requires IsRun(n, run) && |Final(run).nodes| == n && group <= Range(n) && p in group && Settled(Final(run), group, t)
    requires forall q :: q in group ==> |Final(run).nodes[q].log| > 0 && |Final(run).nodes[p].log| > 0
    requires forall q :: q in group ==> GoodFor(Final(run).nodes[p].log, Final(run).nodes[q].log)
    ensures IsRun(n, longer) && run <= longer && OnlyIn(Final(run), Final(longer), group)
    ensures Final(longer).nodes[p].role == Candidate && Final(longer).nodes[p].currentTerm == t + 1
    ensures (t + 1, p) in Final(longer).campaigns
    ensures Final(longer).campaigns[(t + 1, p)] == Campaign(1, Range(n) - {p}, {})
    ensures forall q :: q in group - {p} ==>
              Promised(Final(longer), p, t + 1, q) && Final(longer).nodes[q].currentTerm == t + 1
  {
    var stood, req := Stand(n, run, p);
    StandsIff(Final(run).nodes[p], Final(stood).nodes[p], Some(req));
    forall q | q in group ensures Sane(Final(run).nodes[q]) {
      NodeNow(n, run, q);
    }
    longer := Ask(n, stood, req, group - {p});
    hide IsRun, OnVoteRequest, GoodFor;
    assert forall q :: q in group - {p} ==> Asked(Final(stood), Final(longer), req, q);
    AllPromise(Final(run), Final(longer), p, req, group - {p});
  }

  lemma OneFewer(group: set<int>, p: int)
    requires p in group
    ensures |group - {p}| == |group| - 1
  {
  }

  lemma AllInNextTerm(s: State, s1: State, s2: State, group: set<int>, p: nat, t: int)
    requires p < |s.nodes| && p in group && OnlyIn(s, s1, group) && OnlyIn(s1, s2, {p})
    requires group <= Range(|s.nodes|) && Sane(s1.nodes[p]) && Elected(s1.nodes[p], s2.nodes[p])
    requires s1.nodes[p].currentTerm == t && forall q :: q in group - {p} ==> s1.nodes[q].currentTerm == t
    ensures OnlyIn(s, s2, group) && s2.nodes[p].role == Leader
    ensures forall q :: q in group ==> s2.nodes[q].currentTerm == t
  {
  }

  /** The group's best log wins the next term. */
  lemma ElectBest(n: nat, run: seq<State>, group: set<int>, t: int) returns (longer: seq<State>, p: nat)
    requires IsRun(n, run) && |Final(run).nodes| == n >= 2 && group <= Range(n) && Majority(n, group)
    requires Settled(Final(run), group, t)
    ensures IsRun(n, longer) && run <= longer && OnlyIn(Final(run), Final(longer), group)
    ensures p in group && Final(longer).nodes[p].role == Leader && Final(longer).nodes[p].currentTerm == t + 1
    ensures forall q :: q in group ==> Final(longer).nodes[q].currentTerm == t + 1
  {
    forall q | q in group ensures Sane(Final(run).nodes[q]) {
      NodeNow(n, run, q);
    }
    p := BestLog(Final(run).nodes, group);
    var asked := AskForBest(n, run, group, t, p);
    OneFewer(group, p);
    hide IsRun, GoodFor, Settled, Elected;
    longer := Collect(n, asked, p, t + 1, group - {p});
    AllInNextTerm(Final(run), Final(asked), Final(longer), group, p, t + 1);
  }

  lemma AllPromise(s: State, s': State, p: nat, req: VoteArgs, others: set<int>)
    requires p < |s.nodes| && Sane(s.nodes[p]) && BeginElection(s.nodes[p]).1 == Some(req) && s.nodes[p].id == p
    requires forall q :: q in others ==>
               && 0 <= q < |s.nodes| == |s'.nodes| && Sane(s.nodes[q])
               && s.nodes[q].currentTerm < req.term && GoodFor(s.nodes[p].log, s.nodes[q].log)
               && s'.nodes[q] == OnVoteRequest(s.nodes[q], req).0
               && VoteAnswer(q, req, OnVoteRequest(s.nodes[q], req).1) in s'.voteAnswers
    ensures forall q :: q in others ==> Promised(s', p, req.term, q) && s'.nodes[q].currentTerm == req.term
  {
    forall q | q in others ensures Promised(s', p, req.term, q) && s'.nodes[q].currentTerm == req.term {
      var (s1, reply) := OnVoteRequest(s.nodes[q], req);
      VoteGrantedIff(s.nodes[q], req, s1, reply);
      assert Grants(VoteAnswer(q, req, reply), p, req.term, q);
    }
  }

  lemma {:induction false} LatestTerm(nodes: seq<Node>, group: set<int>) returns (h: int)
    requires group != {}
    requires forall p :: p in group ==> 0 <= p < |nodes|
    ensures h in group && forall p :: p in group ==> nodes[p].currentTerm <= nodes[h].currentTerm
    decreases |group|
  {
    var p := SomeMember(group);
    if group == {p} {
      h := p;
    } else {
      h := LatestTerm(nodes, group - {p});
      h := if nodes[p].currentTerm >= nodes[h].currentTerm then p else h;
    }
  }

  /** From every state of every run, a majority of at least two nodes can come to have a
      leader that is up to date with the group's terms, whatever state its members are
      in and without the others. */
  lemma MajorityCanElect(n: nat, run: seq<State>, group: set<int>) returns (longer: seq<State>, p: nat)
    requires IsRun(n, run) && n >= 2 && group <= Range(n) && Majority(n, group)
    ensures |Final(run).nodes| == n
    ensures IsRun(n, longer) && run <= longer && OnlyIn(Final(run), Final(longer), group)
    ensures p in group && Final(longer).nodes[p].role == Leader
    ensures forall q :: q in group ==> Final(longer).nodes[q].currentTerm <= Final(longer).nodes[p].currentTerm
  {
    NodeNow(n, run, 0);
    assert group != {};
    var h := LatestTerm(Final(run).nodes, group);
    if Final(run).nodes[h].role == Leader {
      longer, p := run, h;
    } else {
      var settled := Settle(n, run, group, h);
      longer, p := ElectBest(n, settled, group, Final(run).nodes[h].currentTerm + 1);
    }
  }

  // ---- a leader commits ----------------------------------------------------------------

  /** What repairing one peer leaves of the leader. */
  ghost predicate StillLeads(s: Node, s1: Node) {
    && s1.role == Leader && s1.currentTerm == s.currentTerm && s1.log == s.log && s1.id == s.id
    && |s1.matchIndex| == |s.matchIndex| == |s1.nextIndex| == |s.nextIndex|
  }

  /** Everything the leader has is committed as soon as a majority holds it. */
  ghost predicate CommitsAll(s: Node) {
    Sane(s) && (MajorityMatched(s, LastIndexOf(s.log)) ==> s.commitIndex == LastIndexOf(s.log))
  }

  lemma SameMajority(s: Node, s1: Node, k: int)
    requires Sane(s) && s1 == s.(commitIndex := s1.commitIndex) && Sane(s1)
    ensures MajorityMatched(s1, k) <==> MajorityMatched(s, k)
  {
  }

  lemma SuccessCommits(s: Node, peer: nat, args: AppendArgs, reply: AppendReply, s1: Node)
    requires CanRepair(s, peer) && Current(s, args, reply) && reply.success
    requires args.prevLogIndex + |args.entries| == LastIndexOf(s.log)
    requires s1 == OnAppendReply(s, peer, args, reply)
    ensures StillLeads(s, s1) && s1.matchIndex == s.matchIndex[peer := LastIndexOf(s.log)]
    ensures CommitsAll(s1)
  {
    ReplyMovesProgress(s, peer, args, reply, s1);
    assert s1.matchIndex == s.matchIndex[peer := LastIndexOf(s.log)];
    var pr := Progress(s, peer, LastIndexOf(s.log));
    assert s1 == AdvanceCommit(pr) && CanRepair(pr, peer);
    hide OnAppendReply, MajorityMatched;
    AdvanceCommitIsGreatest(pr, s1.commitIndex);
    SameMajority(pr, s1, LastIndexOf(s.log));
  }

  /** One request and its reply, on the leader p and the peer q. */
  lemma ExchangeOne(n: nat, run: seq<State>, p: nat, q: nat) returns (longer: seq<State>, accepted: bool)
    requires IsRun(n, run) && p < n && q < n && p != q && |Final(run).nodes| == n
    requires Final(run).nodes[p].role == Leader && Final(run).nodes[q].currentTerm <= Final(run).nodes[p].currentTerm
    ensures IsRun(n, longer) && run <= longer && OnlyIn(Final(run), Final(longer), {p, q})
    ensures StillLeads(Final(run).nodes[p], Final(longer).nodes[p])
    ensures Final(longer).nodes[q].currentTerm == Final(run).nodes[p].currentTerm
    ensures q < |Final(run).nodes[p].nextIndex| == n
    ensures accepted ==>
              && Final(longer).nodes[p].matchIndex
                 == Final(run).nodes[p].matchIndex[q := LastIndexOf(Final(run).nodes[p].log)]
              && CommitsAll(Final(longer).nodes[p])
    ensures !accepted ==>
              && Final(longer).nodes[p].matchIndex == Final(run).nodes[p].matchIndex
              && 0 < Final(longer).nodes[p].nextIndex[q] < Final(run).nodes[p].nextIndex[q]
  {
    NodeNow(n, run, p);
    NodeNow(n, run, q);
    RunsCanRepair(n, run, |run| - 1, p, q);
    var l, f := Final(run).nodes[p], Final(run).nodes[q];
    MessageIsWellFormed(l, q);
    var args := MakeAppend(l, q);
    var (f1, reply) := OnAppend(f, args);
    var l1 := OnAppendReply(l, q, args, reply);
    longer := Deliver(n, run, p, q, args, f1, reply, l1);
    hide IsRun, OnAppend, MakeAppend, LogsMatch;
    Exchange(l, q, f, args, f1, reply);
    accepted := reply.success;
    if accepted {
      SuccessCommits(l, q, args, reply, l1);
    } else {
      ReplyMovesProgress(l, q, args, reply, l1);
      assert l1.matchIndex == l.matchIndex;
    }
  }

  lemma Deliver(n: nat, run: seq<State>, p: nat, q: nat, args: AppendArgs, f1: Node, reply: AppendReply, l1: Node)
    returns (longer: seq<State>)
    requires IsRun(n, run) && p < n && q < n && p != q && |Final(run).nodes| == n
    requires Final(run).nodes[p].role == Leader
    requires Sane(Final(run).nodes[p]) && Sane(Final(run).nodes[q]) && |Final(run).nodes[p].nextIndex| == n
    requires Final(run).nodes[p].id == p
    requires args == MakeAppend(Final(run).nodes[p], q) && WellFormedAppend(args)
    requires (f1, reply) == OnAppend(Final(run).nodes[q], args)
    requires l1 == OnAppendReply(Final(run).nodes[p], q, args, reply)
    ensures IsRun(n, longer) && run <= longer
    ensures Final(longer).nodes == Final(run).nodes[q := f1][p := l1]
  {
    var sent := Extend(n, run, SendAppend(p, q));
    var received := Extend(n, sent, ReceiveAppend(AppendMsg(q, args)));
    longer := Extend(n, received, ReceiveAppendAnswer(AppendAnswer(q, args, reply)));
  }

  /** A peer is brought up to date with the leader. */
  lemma {:induction false} RepairOne(n: nat, run: seq<State>, p: nat, q: nat) returns (longer: seq<State>)
    requires IsRun(n, run) && p < n && q < n && p != q && |Final(run).nodes| == n
    requires Final(run).nodes[p].role == Leader && Final(run).nodes[q].currentTerm <= Final(run).nodes[p].currentTerm
    requires q < |Final(run).nodes[p].nextIndex|
    ensures IsRun(n, longer) && run <= longer && OnlyIn(Final(run), Final(longer), {p, q})
    ensures StillLeads(Final(run).nodes[p], Final(longer).nodes[p])
    ensures Final(longer).nodes[q].currentTerm == Final(run).nodes[p].currentTerm
    ensures q < |Final(run).nodes[p].matchIndex|
    ensures Final(longer).nodes[p].matchIndex
         == Final(run).nodes[p].matchIndex[q := LastIndexOf(Final(run).nodes[p].log)]
    ensures CommitsAll(Final(longer).nodes[p])
    decreases Final(run).nodes[p].nextIndex[q]
  {
    NodeNow(n, run, p);
    ProgressBounds(n, run, |run| - 1, p, q);
    var accepted;
    longer, accepted := ExchangeOne(n, run, p, q);
    hide IsRun;
    if !accepted {
      longer := RepairOne(n, longer, p, q);
    }
  }

  ghost predicate Matches(s: Node, group: set<int>) {
    forall q :: q in group ==> 0 <= q < |s.matchIndex| && s.matchIndex[q] == LastIndexOf(s.log)
  }

  lemma OneMoreMatches(s: Node, s1: Node, q: int, ready: set<int>)
    requires StillLeads(s, s1) && Matches(s, ready) && 0 <= q < |s.matchIndex|
    requires s1.matchIndex == s.matchIndex[q := LastIndexOf(s.log)]
    ensures Matches(s1, ready + {q})
  {
  }

  ghost predicate NoneAhead(s: State, p: nat, group: set<int>) {
    p < |s.nodes| && forall q :: q in group ==> 0 <= q < |s.nodes| && s.nodes[q].currentTerm <= s.nodes[p].currentTerm
  }

  lemma OthersStayBehind(s: State, s1: State, p: nat, q: int, group: set<int>)
    requires NoneAhead(s, p, group) && OnlyIn(s, s1, {p, q}) && p !in group
    requires StillLeads(s.nodes[p], s1.nodes[p])
    ensures NoneAhead(s1, p, group - {q})
  {
  }

  lemma RepairNext(n: nat, run: seq<State>, p: nat, q: nat, ready: set<int>, todo: set<int>) returns (longer: seq<State>)
    requires IsRun(n, run) && p < n && |Final(run).nodes| == n && Final(run).nodes[p].role == Leader
    requires q in todo && todo <= Range(n) && p !in todo && NoneAhead(Final(run), p, todo)
    requires Matches(Final(run).nodes[p], ready)
    ensures IsRun(n, longer) && run <= longer && |longer| > 0 && |Final(longer).nodes| == n
    ensures OnlyIn(Final(run), Final(longer), {p, q})
    ensures Final(longer).nodes[p].role == Leader && StillLeads(Final(run).nodes[p], Final(longer).nodes[p])
    ensures Matches(Final(longer).nodes[p], ready + {q}) && CommitsAll(Final(longer).nodes[p])
    ensures NoneAhead(Final(longer), p, todo - {q})
  {
    NodeNow(n, run, p);
    hide Matches, CommitsAll;
    longer := RepairOne(n, run, p, q);
    OneMoreMatches(Final(run).nodes[p], Final(longer).nodes[p], q, ready);
    OthersStayBehind(Final(run), Final(longer), p, q, todo);
  }

  lemma RepairedTwice(s: State, s1: State, s2: State, p: nat, q: int, todo: set<int>)
    requires p < |s.nodes| && q in todo && OnlyIn(s, s1, {p, q}) && StillLeads(s.nodes[p], s1.nodes[p])
    requires OnlyIn(s1, s2, todo - {q} + {p}) && StillLeads(s1.nodes[p], s2.nodes[p])
    ensures OnlyIn(s, s2, todo + {p}) && StillLeads(s.nodes[p], s2.nodes[p])
  {
  }

  lemma OneMoreReady(ready: set<int>, q: int, todo: set<int>)
    requires q in todo
    ensures ready + {q} + (todo - {q}) == ready + todo
  {
  }

  /** All peers of a group are brought up to date, one after the other. */
  lemma {:induction false} RepairAll(n: nat, run: seq<State>, p: nat, ready: set<int>, todo: set<int>)
    returns (longer: seq<State>)
    requires IsRun(n, run) && p < n && |Final(run).nodes| == n && Final(run).nodes[p].role == Leader
    requires todo <= Range(n) && p !in todo && todo != {} && NoneAhead(Final(run), p, todo)
    requires Matches(Final(run).nodes[p], ready)
    ensures IsRun(n, longer) && run <= longer && OnlyIn(Final(run), Final(longer), todo + {p})
    ensures StillLeads(Final(run).nodes[p], Final(longer).nodes[p])
    ensures Matches(Final(longer).nodes[p], ready + todo) && CommitsAll(Final(longer).nodes[p])
    decreases |todo|
  {
    assert |run| > 0;
    hide IsRun, CommitsAll, Matches, NoneAhead, OnlyIn, StillLeads;
    var q := SomeMember(todo);
    var one := RepairNext(n, run, p, q, ready, todo);
    if todo == {q} {
      longer := one;
      assert {p, q} == todo + {p};
    } else {
      assert todo - {q} != {};
      longer := RepairAll(n, one, p, ready + {q}, todo - {q});
      OneMoreReady(ready, q, todo);
      RepairedTwice(Final(run), Final(one), Final(longer), p, q, todo);
    }
  }

  lemma LeaderEndsInItsTerm(n: nat, run: seq<State>, p: nat)
    requires IsRun(n, run) && p < n && |Final(run).nodes| == n && Final(run).nodes[p].role == Leader
    ensures |Final(run).nodes[p].log| >= 2
    ensures LastTermOf(Final(run).nodes[p].log) == Final(run).nodes[p].currentTerm
  {
    RunOk(n, run, |run| - 1);
    var h, s := Final(run).past, Final(run).nodes[p];
    assert NodeOk(h, n, p, s);
    assert TermLogOk(h.termLog, s.currentTerm) && VictoryOk(h, n, s.currentTerm);
  }

  lemma GroupMatches(n: nat, s: Node, p: nat, group: set<int>)
    requires Sane(s) && s.id == p && |s.matchIndex| == n && group <= Range(n) && p in group && Majority(n, group)
    requires |s.log| >= 2 && LastTermOf(s.log) == s.currentTerm && Matches(s, group - {p})
    ensures MajorityMatched(s, LastIndexOf(s.log))
  {
    var matched := set q | q in Range(|s.matchIndex|) && (q == s.id || s.matchIndex[q] >= LastIndexOf(s.log));
    assert group <= matched;
    SubsetIsNoLarger(group, matched);
  }

  /** The group's new leader takes a command. */
  lemma TakeCommand(n: nat, run: seq<State>, group: set<int>, command: string) returns (longer: seq<State>, p: nat)
    requires IsRun(n, run) && n >= 2 && group <= Range(n) && Majority(n, group)
    ensures |Final(run).nodes| == n && IsRun(n, longer) && run <= longer
    ensures OnlyIn(Final(run), Final(longer), group) && p in group && Final(longer).nodes[p].role == Leader
    ensures NoneAhead(Final(longer), p, group - {p}) && |Final(longer).nodes[p].log| > 0
    ensures Final(longer).nodes[p].log[LastIndexOf(Final(longer).nodes[p].log)]
         == Entry(LastIndexOf(Final(longer).nodes[p].log), Final(longer).nodes[p].currentTerm, command)
  {
    var elected;
    elected, p := MajorityCanElect(n, run, group);
    NodeNow(n, elected, p);
    longer := Extend(n, elected, Submit(p, command));
    StartIff(Final(elected).nodes[p], command, Final(longer).nodes[p]);
  }

  lemma NothingMatches(s: Node)
    ensures Matches(s, {})
  {
  }

  /** The cluster never gets stuck: from every state of every run, any majority of at
      least two nodes can, while the others do nothing, come to have a leader that takes
      a new command and commits it, with all of its log. */
  lemma MajorityCanCommit(n: nat, run: seq<State>, group: set<int>, command: string)
    returns (longer: seq<State>, p: nat)
    requires IsRun(n, run) && n >= 2 && group <= Range(n) && Majority(n, group)
    ensures |Final(run).nodes| == n
    ensures IsRun(n, longer) && run <= longer && OnlyIn(Final(run), Final(longer), group)
    ensures p in group && Final(longer).nodes[p].role == Leader
    ensures |Final(longer).nodes[p].log| > 1
    ensures Final(longer).nodes[p].log[LastIndexOf(Final(longer).nodes[p].log)]
         == Entry(LastIndexOf(Final(longer).nodes[p].log), Final(longer).nodes[p].currentTerm, command)
    ensures Final(longer).nodes[p].commitIndex == LastIndexOf(Final(longer).nodes[p].log)
  {
    hide IsRun, MajorityMatched, Matches;
    var started;
    started, p := TakeCommand(n, run, group, command);
    assert |group - {p}| == |group| - 1 >= 1;
    NothingMatches(Final(started).nodes[p]);
    longer := RepairAll(n, started, p, {}, group - {p});
    LeaderEndsInItsTerm(n, longer, p);
    NodeNow(n, longer, p);
    assert {} + (group - {p}) == group - {p};
    GroupMatches(n, Final(longer).nodes[p], p, group);
  }

  lemma AnswerNeedsPeer(s: State, a: VoteAnswer)
    requires Inv(s) && Enabled(s, ReceiveVoteAnswer(a))
    ensures |s.nodes| >= 2
  {
    var c := s.campaigns[(a.args.term, a.args.candidateId)];
    assert CampaignOk(s.past, |s.nodes|, a.args.term, a.args.candidateId, c);
    assert a.voter in Range(|s.nodes|) && a.voter != a.args.candidateId;
  }

  lemma OnlyAnswersElect(s: State, s': State, step: Step, p: nat)
    requires Enabled(s, step) && RunsThrough(s, step) && s' == Do(s, step) && !step.ReceiveVoteAnswer?
    requires p < |s.nodes| == |s'.nodes| && s.nodes[p].role != Leader
    ensures s'.nodes[p].role != Leader
  {
  }

  lemma NextSingle(s: State, s': State)
    requires Inv(s) && Next(s, s') && |s.nodes| == 1 == |s'.nodes| && s.nodes[0].role != Leader
    ensures s'.nodes[0].role != Leader
  {
    if s' != s {
      var step :| Enabled(s, step) && RunsThrough(s, step) && s' == Do(s, step);
      if step.ReceiveVoteAnswer? {
        AnswerNeedsPeer(s, step.voteAnswer);
      } else {
        OnlyAnswersElect(s, s', step, 0);
      }
    }
  }

  lemma SingleStep(run: seq<State>, i: nat)
    requires IsRun(1, run) && i + 1 < |run|
    requires |run[i].nodes| == 1 && run[i].nodes[0].role != Leader
    ensures |run[i + 1].nodes| == 1 && run[i + 1].nodes[0].role != Leader
  {
    hide Next, Inv;
    RunOk(1, run, i);
    RunOk(1, run, i + 1);
    RunStep(1, run, i);
    hide IsRun;
    NextSingle(run[i], run[i + 1]);
  }

  /** A single node, though it would be a majority, never leads: only a peer's reply can
      complete an election. */
  lemma {:induction false} SingleNodeNeverLeads(run: seq<State>, i: nat)
    requires IsRun(1, run) && i < |run|
    ensures |run[i].nodes| == 1 && run[i].nodes[0].role != Leader
  {
    hide Next, Inv;
    RunSize(1, run, i);
    if i > 0 {
      SingleNodeNeverLeads(run, i - 1);
      SingleStep(run, i - 1);
    } else {
      assert run[0] == Init(1);
    }
  }

  ghost predicate CanLead(n: nat) {
    exists run: seq<State> :: SomeoneLeads(n, run)
  }

  ghost predicate SomeoneLeads(n: nat, run: seq<State>) {
    IsRun(n, run) && exists p :: 0 <= p < |Final(run).nodes| && Final(run).nodes[p].role == Leader
  }

  /** A cluster can have a leader if and only if it has at least two nodes. */
  lemma CanLeadIff(n: nat)
    ensures CanLead(n) <==> n >= 2
  {
    if n >= 2 {
      var run, p := MajorityCanElect(n, [Init(n)], Range(n));
      assert SomeoneLeads(n, run);
    } else if CanLead(n) {
      var run :| SomeoneLeads(n, run);
      SingleNodeNeverLeads(run, |run| - 1);
      assert false;
    }
  }
}
