/** Concrete runs that show where a promise stops: a rejection that arrives late
    breaks the documented "matchIndex < nextIndex always", and an acknowledged put
    may be missing from a leader of a later term. */
module Scenario {
  import opened RaftLog
  import opened RaftNode
  import opened Cluster
  import opened Appends
  import opened Safety
  import opened KvCodec
  import opened KvCluster

  ghost predicate Reached(n: nat, s: KvState) {
    exists run :: EndsRun(n, run, s)
  }

  ghost predicate EndsRun(n: nat, run: seq<KvState>, s: KvState) {
    IsKvRun(n, run) && run[|run| - 1] == s
  }

  lemma StartReached(n: nat)
    requires n > 0
    ensures Reached(n, KvInit(n))
  {
    assert EndsRun(n, [KvInit(n)], KvInit(n));
  }

  lemma KvTake(n: nat, s: KvState, step: KvStep) returns (s': KvState)
    requires Reached(n, s) && KvEnabled(s, step)
    ensures s' == KvDo(s, step) && Reached(n, s')
  {
    var run :| EndsRun(n, run, s);
    s' := KvDo(s, step);
    var run' := run + [s'];
    assert KvNext(s, s');
    forall i {:trigger KvStepAt(run', i)} ensures KvStepAt(run', i) {
      assert KvStepAt(run, i);
    }
    assert EndsRun(n, run', s');
  }

  /** An enabled step of a reached cluster runs to its end. */
  lemma RunsOn(n: nat, s: KvState, step: Step)
    requires Reached(n, s) && Enabled(s.raft, step)
    ensures RunsThrough(s.raft, step) && |s.raft.nodes| == |s.replicas| == n
  {
    var run :| EndsRun(n, run, s);
    RaftsRun(n, run);
    RunOk(n, Rafts(run), |run| - 1);
    KvRunOk(n, run, |run| - 1);
    EnabledRunsThrough(s.raft, step);
  }

  lemma Take(n: nat, s: KvState, step: Step) returns (s': KvState)
    requires Reached(n, s) && Enabled(s.raft, step) && !step.Submit?
    ensures RunsThrough(s.raft, step) && Reached(n, s') && s' == s.(raft := Do(s.raft, step))
    ensures |s.raft.nodes| == n
  {
    RunsOn(n, s, step);
    s' := KvTake(n, s, Internal(step));
  }

  /** May c ask v for its vote and get it? */
  predicate WouldVote(n: nat, s: State, c: nat, v: nat) {
    && 2 <= n <= 3 && |s.nodes| == n && c < n && v < n && c != v
    && Sane(s.nodes[c]) && Sane(s.nodes[v]) && s.nodes[c].id == c && |s.nodes[c].nextIndex| == n
    && s.nodes[c].role != Leader && s.nodes[v].currentTerm <= s.nodes[c].currentTerm
    && UpToDate(LastTermOf(s.nodes[c].log), LastIndexOf(s.nodes[c].log), s.nodes[v].log)
  }

  /** What a node asks when it stands for the next term. */
  function Request(s: Node): VoteArgs
    requires |s.log| > 0
  {
    VoteArgs(s.currentTerm + 1, s.id, LastIndexOf(s.log), LastTermOf(s.log))
  }

  function Voted(s: Node, term: int, c: nat): Node {
    BecomeFollower(s, term).(votedFor := c)
  }

  lemma Vote(n: nat, s: KvState, c: nat, v: nat) returns (s': KvState, answer: VoteAnswer)
    requires Reached(n, s) && WouldVote(n, s.raft, c, v)
    ensures Reached(n, s') && Enabled(s'.raft, ReceiveVoteAnswer(answer)) && answer.args.candidateId == c
    ensures answer.args.term == s.raft.nodes[c].currentTerm + 1 == answer.reply.term && answer.reply.granted
    ensures s'.raft.campaigns[(answer.args.term, c)].votes == 1
    ensures s' == s.(raft := s'.raft) && Request(s.raft.nodes[c]) in s'.raft.voteRequests
    ensures s'.raft.nodes == s.raft.nodes[c := BeginElection(s.raft.nodes[c]).0]
                                         [v := Voted(s.raft.nodes[v], s.raft.nodes[c].currentTerm + 1, c)]
  {
    hide Reached;
    var req := BeginElection(s.raft.nodes[c]).1.value;
    var s1 := Take(n, s, Elect(c));
    s' := Take(n, s1, ReceiveVoteRequest(v, req));
    answer := VoteAnswer(v, req, OnVoteRequest(s1.raft.nodes[v], req).1);
    assert s'.raft.campaigns[(req.term, c)] == Campaign(1, Range(n) - {c}, {});
  }

  /** In a cluster of two or three, one vote beside its own makes c leader. */
  lemma Win(n: nat, s: KvState, c: nat, v: nat) returns (s': KvState)
    requires Reached(n, s) && WouldVote(n, s.raft, c, v)
    ensures Reached(n, s') && s' == s.(raft := s'.raft) && Request(s.raft.nodes[c]) in s'.raft.voteRequests
    ensures s'.raft.nodes == s.raft.nodes[c := BecomeLeader(BeginElection(s.raft.nodes[c]).0)]
                                         [v := Voted(s.raft.nodes[v], s.raft.nodes[c].currentTerm + 1, c)]
  {
    hide Reached;
    var s1, answer := Vote(n, s, c, v);
    s' := Take(n, s1, ReceiveVoteAnswer(answer));
  }

  /** A node whose election timer has fired k times in a row. */
  function Stood(s: Node, k: nat): Node {
    if k == 0 then s else s.(currentTerm := s.currentTerm + k, role := Candidate, votedFor := s.id)
  }

  lemma {:induction false} Stand(n: nat, s: KvState, c: nat, k: nat) returns (s': KvState)
    requires Reached(n, s) && c < n == |s.raft.nodes| && Sane(s.raft.nodes[c]) && s.raft.nodes[c].role != Leader
    ensures Reached(n, s') && s' == s.(raft := s'.raft)
    ensures s'.raft.nodes == s.raft.nodes[c := Stood(s.raft.nodes[c], k)]
  {
    hide Reached;
    if k == 0 {
      s' := s;
    } else {
      var s1 := Stand(n, s, c, k - 1);
      s' := Take(n, s1, Elect(c));
    }
  }

  function Noop(index: int, term: int): Entry {
    Entry(index, term, NOOP)
  }

  // ---- a late rejection --------------------------------------------------------

  /** Node 0 leads term 1. */
  lemma FirstReign() returns (s: KvState)
    ensures Reached(2, s)
    ensures s.raft.nodes == [Node(0, 1, 0, Leader, [SENTINEL, Noop(1, 1)], 0, 0, [1, 1], [0, 0], []),
                             Node(1, 1, 0, Follower, [SENTINEL], 0, 0, [0, 0], [0, 0], [])]
  {
    hide Reached;
    var s0 := KvInit(2);
    StartReached(2);
    assert s0.raft.nodes[0].nextIndex == [0, 0] && s0.raft.nodes[0].matchIndex == [0, 0];
    assert s0.raft.nodes[1].nextIndex == [0, 0] && s0.raft.nodes[1].matchIndex == [0, 0];
    s := Win(2, s0, 0, 1);
    assert s.raft.nodes[0].nextIndex == [1, 1] && s.raft.nodes[0].matchIndex == [0, 0];
    assert s.raft.nodes[0].log == [SENTINEL, Noop(1, 1)];
  }

  /** Node 1's term 2 unseats it. */
  lemma Unseated() returns (s: KvState)
    ensures Reached(2, s)
    ensures s.raft.nodes == [Node(0, 2, -1, Follower, [SENTINEL, Noop(1, 1)], 0, 0, [1, 1], [0, 0], []),
                             Node(1, 2, 1, Candidate, [SENTINEL], 0, 0, [0, 0], [0, 0], [])]
  {
    hide Reached;
    var s0 := FirstReign();
    var s1 := Take(2, s0, Elect(1));
    s := Take(2, s1, ReceiveVoteRequest(0, VoteArgs(2, 1, 0, 0)));
  }

  /** It comes back in term 3. */
  lemma LeaderAgain() returns (s: KvState)
    ensures Reached(2, s)
    ensures s.raft.nodes == [Node(0, 3, 0, Leader, [SENTINEL, Noop(1, 1), Noop(2, 3)], 0, 0, [2, 2], [0, 0], []),
                             Node(1, 3, 0, Follower, [SENTINEL], 0, 0, [0, 0], [0, 0], [])]
  {
    hide Reached;
    var s0 := Unseated();
    s := Win(2, s0, 0, 1);
    assert s.raft.nodes[0].nextIndex == [2, 2] && s.raft.nodes[0].matchIndex == [0, 0];
    assert s.raft.nodes[0].log == [SENTINEL, Noop(1, 1), Noop(2, 3)];
  }

  const EARLY := AppendArgs(3, 0, 1, 1, [Noop(2, 3)], 0)
  const RETRY := AppendArgs(3, 0, 0, 0, [Noop(1, 1), Noop(2, 3)], 0)

  /** Two overlapping senders have the same request rejected. */
  lemma BothRejected() returns (s: KvState)
    ensures Reached(2, s) && AppendAnswer(1, EARLY, AppendReply(3, false)) in s.raft.appendAnswers
    ensures s.raft.nodes == [Node(0, 3, 0, Leader, [SENTINEL, Noop(1, 1), Noop(2, 3)], 0, 0, [2, 2], [0, 0], []),
                             Node(1, 3, 0, Follower, [SENTINEL], 0, 0, [0, 0], [0, 0], [])]
  {
    hide Reached;
    var s0 := LeaderAgain();
    assert MakeAppend(s0.raft.nodes[0], 1) == EARLY by { assert s0.raft.nodes[0].log[2..3] == [Noop(2, 3)]; }
    var s1 := Take(2, s0, SendAppend(0, 1));
    var s2 := Take(2, s1, SendAppend(0, 1));
    var s3 := Take(2, s2, ReceiveAppend(AppendMsg(1, EARLY)));
    s := Take(2, s3, ReceiveAppend(AppendMsg(1, EARLY)));
  }

  /** The first sender handles its rejection and sends again from the start. */
  lemma RejectedTwice() returns (s: KvState)
    ensures Reached(2, s) && AppendMsg(1, RETRY) in s.raft.appends
    ensures AppendAnswer(1, EARLY, AppendReply(3, false)) in s.raft.appendAnswers
    ensures s.raft.nodes == [Node(0, 3, 0, Leader, [SENTINEL, Noop(1, 1), Noop(2, 3)], 0, 0, [2, 1], [0, 0], []),
                             Node(1, 3, 0, Follower, [SENTINEL], 0, 0, [0, 0], [0, 0], [])]
  {
    hide Reached;
    var s0 := BothRejected();
    var s1 := Take(2, s0, ReceiveAppendAnswer(AppendAnswer(1, EARLY, AppendReply(3, false))));
    assert s1.raft.nodes[0].nextIndex == [2, 1];
    s := Take(2, s1, SendAppend(0, 1));
    assert MakeAppend(s1.raft.nodes[0], 1) == RETRY by {
      assert s1.raft.nodes[0].log[1..3] == [Noop(1, 1), Noop(2, 3)];
    }
  }

  /** The first sender's retry succeeds before the second handles its rejection:
      the leader's match reaches its next index. */
  lemma MatchBelowNextFails() returns (s: KvState)
    ensures Reached(2, s) && |s.raft.nodes| == 2 && s.raft.nodes[0].role == Leader
    ensures |s.raft.nodes[0].matchIndex| == |s.raft.nodes[0].nextIndex| == 2
    ensures s.raft.nodes[0].matchIndex[1] == s.raft.nodes[0].nextIndex[1]
  {
    hide Reached;
    var s0 := RejectedTwice();
    var s1 := Take(2, s0, ReceiveAppend(AppendMsg(1, RETRY)));
    var s2 := Take(2, s1, ReceiveAppendAnswer(AppendAnswer(1, RETRY, AppendReply(3, true))));
    assert s2.raft.nodes[0].nextIndex == [2, 3] && s2.raft.nodes[0].matchIndex == [0, 2];
    s := Take(2, s2, ReceiveAppendAnswer(AppendAnswer(1, EARLY, AppendReply(3, false))));
  }

  // ---- a later leader without an acknowledged put ------------------------------

  /** A put that node 0 takes as leader of term t, and acknowledges in term u. */
  datatype Story = Story(key: string, value: string, t: int, u: int)

  predicate Told(x: Story) {
    x.t >= 1 && x.u >= x.t + 2
  }

  function Own(x: Story): Entry {
    Entry(2, x.t, EncodeCommand(x.key, x.value))
  }

  function Mine(x: Story): seq<Entry> {
    [SENTINEL, Noop(1, x.t), Own(x)]
  }

  function Idle(id: int, term: int, vote: int): Node {
    Node(id, term, vote, Follower, [SENTINEL], 0, 0, [0, 0, 0], [0, 0, 0], [])
  }

  ghost predicate PutPending(s: KvState, x: Story) {
    && Reached(3, s) && |s.replicas| == 3
    && s.puts == [Put.Put(0, x.key, x.value, 2, x.t, Waiting)]
    && s.replicas[0].consumed == 0 && s.replicas[0].pending == map[2 := 0]
  }

  /** After t - 1 elections in vain node 0 leads term t. */
  lemma TermLed(x: Story) returns (s: KvState)
    requires Told(x)
    ensures Reached(3, s) && s == KvInit(3).(raft := s.raft)
    ensures s.raft.nodes == [Node(0, x.t, 0, Leader, [SENTINEL, Noop(1, x.t)], 0, 0, [1, 1, 1], [0, 0, 0], []),
                             Idle(1, x.t, 0), Idle(2, 0, -1)]
  {
    hide Reached;
    var s0 := KvInit(3);
    StartReached(3);
    assert s0.raft.nodes[0].nextIndex == [0, 0, 0] && s0.raft.nodes[0].matchIndex == [0, 0, 0];
    assert s0.raft.nodes[1].nextIndex == [0, 0, 0] && s0.raft.nodes[1].matchIndex == [0, 0, 0];
    assert s0.raft.nodes[2].nextIndex == [0, 0, 0] && s0.raft.nodes[2].matchIndex == [0, 0, 0];
    var s1 := Stand(3, s0, 0, x.t - 1);
    s := Win(3, s1, 0, 1);
    assert s.raft.nodes[0].nextIndex == [1, 1, 1] && s.raft.nodes[0].matchIndex == [0, 0, 0];
    assert s.raft.nodes[0].log == [SENTINEL, Noop(1, x.t)];
  }

  /** It takes a put, for which its handler waits. */
  lemma PutWaits(x: Story) returns (s: KvState)
    requires Told(x)
    ensures PutPending(s, x)
    ensures s.raft.nodes == [Node(0, x.t, 0, Leader, Mine(x), 0, 0, [1, 1, 1], [0, 0, 0], []),
                             Idle(1, x.t, 0), Idle(2, 0, -1)]
  {
    hide Reached;
    var s0 := TermLed(x);
    RunsOn(3, s0, Submit(0, EncodeCommand(x.key, x.value)));
    var s1 := KvTake(3, s0, BeginPut(0, x.key, x.value));
    assert s1.raft.nodes[0].log == Mine(x);
    s := KvTake(3, s1, Register(0));
  }

  /** Node 2, a leader of the next term that never saw the put. */
  function Rival(x: Story): Node {
    Node(2, x.t + 1, 2, Leader, [SENTINEL, Noop(1, x.t + 1)], 0, 0, [1, 1, 1], [0, 0, 0], [])
  }

  lemma RivalLeads(x: Story) returns (s: KvState)
    requires Told(x)
    ensures PutPending(s, x) && VoteArgs(x.t + 1, 2, 0, 0) in s.raft.voteRequests
    ensures s.raft.nodes == [Node(0, x.t, 0, Leader, Mine(x), 0, 0, [1, 1, 1], [0, 0, 0], []),
                             Idle(1, x.t + 1, 2), Rival(x)]
  {
    hide Reached;
    var s0 := PutWaits(x);
    var s1 := Stand(3, s0, 2, x.t);
    s := Win(3, s1, 2, 1);
    assert s.raft.nodes[2].nextIndex == [1, 1, 1] && s.raft.nodes[2].matchIndex == [0, 0, 0];
    assert s.raft.nodes[2].log == [SENTINEL, Noop(1, x.t + 1)];
  }

  function Whole(x: Story): seq<Entry> {
    Mine(x) + [Noop(3, x.u)]
  }

  function Chief(x: Story, next: int, match_: int, commit: int): Node {
    Node(0, x.u, 0, Leader, Whole(x), commit, 0, [3, next, 3], [0, match_, 0], [])
  }

  function Follows(x: Story, log: seq<Entry>): Node {
    Idle(1, x.u, 0).(log := log)
  }

  /** Node 2's request unseats node 0. */
  lemma PutLeaderUnseated(x: Story) returns (s: KvState)
    requires Told(x)
    ensures PutPending(s, x)
    ensures s.raft.nodes == [Node(0, x.t + 1, -1, Follower, Mine(x), 0, 0, [1, 1, 1], [0, 0, 0], []),
                             Idle(1, x.t + 1, 2), Rival(x)]
  {
    hide Reached;
    var s0 := RivalLeads(x);
    s := Take(3, s0, ReceiveVoteRequest(0, VoteArgs(x.t + 1, 2, 0, 0)));
  }

  /** More elections in vain bring node 0 to lead term u. */
  lemma PutLeaderReturns(x: Story) returns (s: KvState)
    requires Told(x)
    ensures PutPending(s, x)
    ensures s.raft.nodes == [Chief(x, 3, 0, 0), Follows(x, [SENTINEL]), Rival(x)]
  {
    hide Reached;
    var s0 := PutLeaderUnseated(x);
    var s1 := Stand(3, s0, 0, x.u - x.t - 2);
    s := Win(3, s1, 0, 1);
    assert s.raft.nodes[0].nextIndex == [3, 3, 3] && s.raft.nodes[0].matchIndex == [0, 0, 0];
    assert s.raft.nodes[0].log == Whole(x);
  }

  /** One rejected exchange moves nextIndex one down. */
  lemma StepDown(s: KvState, x: Story, next: int) returns (s': KvState)
    requires Told(x) && PutPending(s, x) && 2 <= next <= 3
    requires s.raft.nodes == [Chief(x, next, 0, 0), Follows(x, [SENTINEL]), Rival(x)]
    ensures PutPending(s', x)
    ensures s'.raft.nodes == [Chief(x, next - 1, 0, 0), Follows(x, [SENTINEL]), Rival(x)]
  {
    hide Reached;
    var args := MakeAppend(s.raft.nodes[0], 1);
    assert args.prevLogIndex == next - 1 && args.entries == Whole(x)[next..];
    var s1 := Take(3, s, SendAppend(0, 1));
    var s2 := Take(3, s1, ReceiveAppend(AppendMsg(1, args)));
    s' := Take(3, s2, ReceiveAppendAnswer(AppendAnswer(1, args, AppendReply(x.u, false))));
    assert s'.raft.nodes[0].nextIndex == [3, next - 1, 3];
  }

  function FromStart(x: Story): AppendArgs {
    AppendArgs(x.u, 0, 0, 0, [Noop(1, x.t), Own(x), Noop(3, x.u)], 0)
  }

  lemma PutSent(x: Story) returns (s: KvState)
    requires Told(x)
    ensures PutPending(s, x) && AppendMsg(1, FromStart(x)) in s.raft.appends
    ensures s.raft.nodes == [Chief(x, 1, 0, 0), Follows(x, [SENTINEL]), Rival(x)]
  {
    hide Reached;
    var s0 := PutLeaderReturns(x);
    var s1 := StepDown(s0, x, 3);
    var s2 := StepDown(s1, x, 2);
    s := Take(3, s2, SendAppend(0, 1));
    assert MakeAppend(s2.raft.nodes[0], 1) == FromStart(x) by { assert Whole(x)[1..] == FromStart(x).entries; }
  }

  lemma PutReplicated(x: Story) returns (s: KvState)
    requires Told(x)
    ensures PutPending(s, x)
    ensures s.raft.nodes == [Chief(x, 1, 0, 0), Follows(x, Whole(x)), Rival(x)]
    ensures AppendAnswer(1, FromStart(x), AppendReply(x.u, true)) in s.raft.appendAnswers
  {
    hide Reached;
    var s0 := PutSent(x);
    s := Take(3, s0, ReceiveAppend(AppendMsg(1, FromStart(x))));
    assert Merge([SENTINEL], 0, FromStart(x).entries) == Whole(x);
  }

  /** The accepted exchange commits everything in term u. */
  lemma PutCommitted(x: Story) returns (s: KvState)
    requires Told(x)
    ensures PutPending(s, x)
    ensures s.raft.nodes == [Chief(x, 4, 3, 3), Follows(x, Whole(x)), Rival(x)]
  {
    hide Reached;
    var s0 := PutReplicated(x);
    s := Take(3, s0, ReceiveAppendAnswer(AppendAnswer(1, FromStart(x), AppendReply(x.u, true))));
    AllCommitted(Chief(x, 1, 0, 0), Chief(x, 4, 3, 0));
  }

  lemma AllCommitted(before: Node, after: Node)
    requires Sane(before) && before.matchIndex == [0, 0, 0] && |before.nextIndex| == 3 && before.id == 0
    requires after == RaftNode.Progress(before, 1, 3) && |before.log| == 4 && before.log[3].term == before.currentTerm
    requires before.commitIndex == 0
    ensures AdvanceCommit(after).commitIndex == 3
  {
    assert Matched(after, 3) == {0, 1};
  }

  lemma PutApplied(x: Story) returns (s: KvState)
    requires Told(x)
    ensures PutPending(s, x) && |s.raft.nodes| == 3 && s.raft.nodes[2] == Rival(x)
    ensures s.raft.nodes[0].currentTerm == x.u
    ensures s.raft.nodes[0].stream == [ApplyMsg(1, x.t, NOOP), ApplyMsg(2, x.t, EncodeCommand(x.key, x.value))]
  {
    hide Reached;
    var s0 := PutCommitted(x);
    var s1 := Take(3, s0, Apply(0));
    s := Take(3, s1, Apply(0));
  }

  /** For every key and value, every term t and every u at least two above: the put
      of term t is acknowledged by a server that has reached term u, while node 2
      leads term t + 1 without it. */
  lemma LaterLeaderMayLackPut(x: Story) returns (s: KvState)
    requires Told(x)
    ensures Reached(3, s) && |s.puts| == 1 && |s.raft.nodes| == 3
    ensures s.puts[0] == Put.Put(0, x.key, x.value, 2, x.t, Answered(true))
    ensures s.raft.nodes[0].currentTerm == x.u
    ensures s.raft.nodes[2].role == Leader && s.raft.nodes[2].currentTerm == x.t + 1
    ensures !Holds(s.raft.nodes[2].log, s.puts[0])
  {
    hide Reached;
    var s0 := PutApplied(x);
    var s1 := KvTake(3, s0, Consume(0));
    assert s1.puts == s0.puts && s1.replicas[0].pending == map[2 := 0];
    var s2 := KvTake(3, s1, Consume(0));
    assert s2.puts[0].progress == Woken(x.t);
    s := KvTake(3, s2, Answer(0));
  }

  // ---- the exact condition -----------------------------------------------------

  /** A put of term t, acknowledged by a server that stands at term u. */
  ghost predicate Acknowledged(n: nat, run: seq<KvState>, i: nat, id: nat, t: int, u: int) {
    && IsKvRun(n, run) && i < |run| && id < |run[i].puts|
    && run[i].puts[id].progress == Answered(true) && run[i].puts[id].term == t
    && run[i].puts[id].server < |run[i].raft.nodes|
    && run[i].raft.nodes[run[i].puts[id].server].currentTerm == u
  }

  ghost predicate LaterLeadersHold(run: seq<KvState>, put: Put) {
    forall j, q {:trigger run[j].raft.nodes[q]} :: 0 <= j < |run| && 0 <= q < |run[j].raft.nodes| ==>
      LeadsLater(run[j].raft.nodes[q], put) ==> Holds(run[j].raft.nodes[q].log, put)
  }

  ghost predicate AlwaysHeld(t: int, u: int) {
    forall n: nat, run: seq<KvState>, i: nat, id: nat :: Acknowledged(n, run, i, id, t, u) ==> LaterLeadersHold(run, run[i].puts[id])
  }

  lemma HeldWhenClose(n: nat, run: seq<KvState>, i: nat, id: nat, t: int, u: int)
    requires Acknowledged(n, run, i, id, t, u) && u <= t + 1
    ensures LaterLeadersHold(run, run[i].puts[id])
  {
    var put := run[i].puts[id];
    forall j, q {:trigger run[j].raft.nodes[q]} | 0 <= j < |run| && 0 <= q < |run[j].raft.nodes|
      && LeadsLater(run[j].raft.nodes[q], put)
      ensures Holds(run[j].raft.nodes[q].log, put)
    {
      RaftsRun(n, run);
      RunSize(n, Rafts(run), j);
      AcknowledgedIsDurable(n, run, i, id, j, q);
    }
  }

  /** All leaders of all later terms, at all times, hold an acknowledged put of term
      t if and only if its server had not got beyond term t + 1 when it answered. */
  lemma LaterLeadersHoldIff(t: int, u: int)
    requires 1 <= t <= u
    ensures AlwaysHeld(t, u) <==> u <= t + 1
  {
    if u <= t + 1 {
      forall n: nat, run: seq<KvState>, i: nat, id: nat | Acknowledged(n, run, i, id, t, u)
        ensures LaterLeadersHold(run, run[i].puts[id])
      {
        HeldWhenClose(n, run, i, id, t, u);
      }
    } else {
      var s := LaterLeaderMayLackPut(Story("k", "v", t, u));
      var run: seq<KvState> :| EndsRun(3, run, s);
      assert Acknowledged(3, run, |run| - 1, 0, t, u);
      assert LeadsLater(run[|run| - 1].raft.nodes[2], s.puts[0]);
    }
  }
}
