/** All nodes and the network between them, as one state machine. Each step is
    one lock-held section of one node; messages stay in flight for ever, so a
    run may lose, delay, reorder or repeat them. */
module Cluster {
  import opened RaftLog
  import opened RaftNode

  /** A reply travels with the request it answers, as in an RPC. */
  datatype VoteAnswer = VoteAnswer(voter: int, args: VoteArgs, reply: VoteReply)
  datatype AppendMsg = AppendMsg(to: int, args: AppendArgs)
  datatype AppendAnswer = AppendAnswer(from: int, args: AppendArgs, reply: AppendReply)

  /** One run of startElection: its counter, the peers whose single reply is
      still to come, and the peers whose vote was counted. */
  datatype Campaign = Campaign(votes: int, waiting: set<int>, counted: set<int>)

  /** What a proof needs to remember of the past; no step reads it.
      termLog[t]: the log of the leader of term t, while it leads and ever after.
      leaders[t]: who won term t, and the votes it counted (its own included).
      votes[(t, p)]: whom p first voted for in term t, and p's log at that moment.
      acked[(t, p)]: how far p has confirmed the log of the leader of term t. */
  datatype Vote = Vote(candidate: int, log: seq<Entry>)
  datatype Victory = Victory(leader: int, electors: set<int>)
  datatype History = History(
    termLog: map<int, seq<Entry>>,
    leaders: map<int, Victory>,
    votes: map<(int, int), Vote>,
    acked: map<(int, int), int>)

  datatype State = State(
    nodes: seq<Node>,
    campaigns: map<(int, int), Campaign>,
    voteRequests: set<VoteArgs>,
    voteAnswers: set<VoteAnswer>,
    appends: set<AppendMsg>,
    appendAnswers: set<AppendAnswer>,
    past: History)

  datatype Step =
    | Elect(node: int)
    | ReceiveVoteRequest(node: int, voteArgs: VoteArgs)
    | ReceiveVoteAnswer(voteAnswer: VoteAnswer)
    | SendAppend(node: int, peer: int)
    | ReceiveAppend(append: AppendMsg)
    | ReceiveAppendAnswer(appendAnswer: AppendAnswer)
    | Submit(node: int, command: string)
    | Apply(node: int)

  function Acked(h: History, t: int, p: int): int {
    if (t, p) in h.acked then h.acked[(t, p)] else -1
  }

  function Range(n: nat): (r: set<int>)
    ensures forall p :: p in r <==> 0 <= p < n
    ensures |r| == n
  {
    if n == 0 then {} else Range(n - 1) + {n - 1}
  }

  function Init(n: nat): State {
    State(seq(n, i => InitNode(i, n)), map[], {}, {}, {}, {},
          History(map[0 := [SENTINEL]], map[], map[], map p: int | 0 <= p < n :: (0, p) := 0))
  }

  /** The node a step runs on. */
  function Actor(step: Step): int {
    match step
    case Elect(i) => i
    case ReceiveVoteRequest(i, _) => i
    case ReceiveVoteAnswer(a) => a.args.candidateId
    case SendAppend(i, _) => i
    case ReceiveAppend(m) => m.to
    case ReceiveAppendAnswer(a) => a.args.leaderId
    case Submit(i, _) => i
    case Apply(i) => i
  }

  /** When the program may take a step: the message exists, and a vote reply
      reaches the closure waiting for it only once. */
  predicate Enabled(s: State, step: Step) {
    && 0 <= Actor(step) < |s.nodes|
    && match step
       case Elect(_) => true
       case ReceiveVoteRequest(i, req) => req in s.voteRequests && i != req.candidateId
       case ReceiveVoteAnswer(a) =>
         && a in s.voteAnswers
         && (a.args.term, a.args.candidateId) in s.campaigns
         && a.voter in s.campaigns[(a.args.term, a.args.candidateId)].waiting
       case SendAppend(i, peer) => 0 <= peer < |s.nodes| && peer != i && s.nodes[i].role == Leader
       case ReceiveAppend(m) => m in s.appends
       case ReceiveAppendAnswer(a) => a in s.appendAnswers
       case Submit(_, _) => true
       case Apply(_) => true
  }

  /** When the code of an enabled step runs to its end: no index out of range and
      no panic in Log.Append. */
  predicate RunsThrough(s: State, step: Step)
    requires Enabled(s, step)
  {
    var node := s.nodes[Actor(step)];
    && Sane(node)
    && |node.nextIndex| == |s.nodes|
    && (step.ReceiveAppend? ==> WellFormedAppend(step.append.args))
    && (step.ReceiveAppendAnswer? ==> 0 <= step.appendAnswer.from < |s.nodes|)
  }

  ghost function Do(s: State, step: Step): State
    requires Enabled(s, step) && RunsThrough(s, step)
  {
    match step
    case Elect(i) => DoElect(s, i)
    case ReceiveVoteRequest(i, req) => DoVoteRequest(s, i, req)
    case ReceiveVoteAnswer(a) => DoVoteAnswer(s, a)
    case SendAppend(i, peer) => s.(appends := s.appends + {AppendMsg(peer, MakeAppend(s.nodes[i], peer))})
    case ReceiveAppend(m) => DoAppend(s, m)
    case ReceiveAppendAnswer(a) =>
      var i := a.args.leaderId;
      s.(nodes := s.nodes[i := OnAppendReply(s.nodes[i], a.from, a.args, a.reply)])
    case Submit(i, command) => DoSubmit(s, i, command)
    case Apply(i) => s.(nodes := s.nodes[i := ApplyNext(s.nodes[i])])
  }

  ghost function DoElect(s: State, i: int): State
    requires 0 <= i < |s.nodes| && Sane(s.nodes[i])
  {
    var (node, req) := BeginElection(s.nodes[i]);
    if req.None? then s else
    var key := (node.currentTerm, i);
    s.(nodes := s.nodes[i := node],
       campaigns := s.campaigns[key := Campaign(1, Range(|s.nodes|) - {i}, {})],
       voteRequests := s.voteRequests + {req.value},
       past := s.past.(votes := s.past.votes[key := Vote(i, node.log)]))
  }

  ghost function DoVoteRequest(s: State, i: int, req: VoteArgs): State
    requires 0 <= i < |s.nodes| && Sane(s.nodes[i])
  {
    var (node, reply) := OnVoteRequest(s.nodes[i], req);
    var key := (req.term, i);
    s.(nodes := s.nodes[i := node],
       voteAnswers := s.voteAnswers + {VoteAnswer(i, req, reply)},
       past := if reply.granted && key !in s.past.votes
               then s.past.(votes := s.past.votes[key := Vote(req.candidateId, node.log)])
               else s.past)
  }

  ghost function DoVoteAnswer(s: State, a: VoteAnswer): State
    requires Enabled(s, ReceiveVoteAnswer(a)) && Sane(s.nodes[a.args.candidateId])
  {
    var i := a.args.candidateId;
    var key := (a.args.term, i);
    var c := s.campaigns[key];
    var (node, votes) := OnVoteReply(s.nodes[i], a.args.term, c.votes, a.reply);
    var counted := if votes > c.votes then c.counted + {a.voter} else c.counted;
    s.(nodes := s.nodes[i := node],
       campaigns := s.campaigns[key := Campaign(votes, c.waiting - {a.voter}, counted)],
       past := if s.nodes[i].role != Leader && node.role == Leader
               then RecordVictory(s.past, node, counted + {i})
               else s.past)
  }

  function RecordVictory(h: History, node: Node, electors: set<int>): History {
    RecordLog(h.(leaders := h.leaders[node.currentTerm := Victory(node.id, electors)]), node)
  }

  /** A leader's log is its term's log, and the leader itself holds all of it. */
  function RecordLog(h: History, node: Node): History {
    h.(termLog := h.termLog[node.currentTerm := node.log],
       acked := h.acked[(node.currentTerm, node.id) := LastIndexOf(node.log)])
  }

  ghost function DoAppend(s: State, m: AppendMsg): State
    requires 0 <= m.to < |s.nodes| && Sane(s.nodes[m.to]) && WellFormedAppend(m.args)
  {
    var (node, reply) := OnAppend(s.nodes[m.to], m.args);
    var end := m.args.prevLogIndex + |m.args.entries|;
    s.(nodes := s.nodes[m.to := node],
       appendAnswers := s.appendAnswers + {AppendAnswer(m.to, m.args, reply)},
       past := if reply.success && end > Acked(s.past, m.args.term, m.to)
               then s.past.(acked := s.past.acked[(m.args.term, m.to) := end])
               else s.past)
  }

  ghost function DoSubmit(s: State, i: int, command: string): State
    requires 0 <= i < |s.nodes| && Sane(s.nodes[i])
  {
    var node := StartCommand(s.nodes[i], command);
    s.(nodes := s.nodes[i := node],
       past := if node.role == Leader then RecordLog(s.past, node) else s.past)
  }

  /** One step, or none, so that a run of a larger system is also a run of its cluster. */
  ghost predicate Next(s: State, s': State) {
    s' == s || exists step: Step :: Enabled(s, step) && RunsThrough(s, step) && s' == Do(s, step)
  }

  /** A run of a cluster of n nodes. */
  ghost predicate IsRun(n: nat, run: seq<State>) {
    && n > 0
    && |run| > 0
    && run[0] == Init(n)
    && forall i {:trigger StepAt(run, i)} :: StepAt(run, i)
  }

  ghost predicate StepAt(run: seq<State>, i: int) {
    0 <= i < |run| - 1 ==> Next(run[i], run[i + 1])
  }

  lemma RunStep(n: nat, run: seq<State>, i: nat)
    requires IsRun(n, run) && i + 1 < |run|
    ensures Next(run[i], run[i + 1])
  {
    assert StepAt(run, i);
  }
}
