/** The replicated key-value store: a Raft cluster, the server on each node that
    consumes its commit channel, and every Put there has ever been. */
module KvCluster {
  import opened RaftLog
  import opened RaftNode
  import opened Cluster
  import opened Invariant
  import opened Safety
  import opened KvCodec

  /** How far a Put handler has come. Woken carries the term that the apply loop
      wrote before it closed the handler's channel. */
  datatype Progress = Submitted | Waiting | Woken(term: int) | Answered(ok: bool) | TimedOut

  datatype Put = Put(server: nat, key: string, value: string, index: int, term: int, progress: Progress)

  /** pending maps a log index to the Put that waits for it. */
  datatype Replica = Replica(consumed: nat, store: Store, pending: map<int, nat>)

  datatype KvState = KvState(raft: State, replicas: seq<Replica>, puts: seq<Put>)

  datatype KvStep =
    | Internal(step: Step)
    | BeginPut(server: nat, key: string, value: string)
    | Register(put: nat)
    | Consume(server: nat)
    | Answer(put: nat)
    | TimeOut(put: nat)

  ghost predicate KvEnabled(s: KvState, step: KvStep) {
    && |s.replicas| == |s.raft.nodes|
    && match step
       case Internal(st) => !st.Submit? && Enabled(s.raft, st) && RunsThrough(s.raft, st)
       case BeginPut(i, key, value) =>
         var st := Submit(i, EncodeCommand(key, value));
         Enabled(s.raft, st) && RunsThrough(s.raft, st)
       case Register(id) => id < |s.puts| && s.puts[id].progress == Submitted && s.puts[id].server < |s.replicas|
       case Consume(i) => i < |s.replicas| && s.replicas[i].consumed < |s.raft.nodes[i].stream|
       case Answer(id) => id < |s.puts| && s.puts[id].progress.Woken?
       case TimeOut(id) =>
         && id < |s.puts| && s.puts[id].server < |s.replicas|
         && (s.puts[id].progress == Waiting || s.puts[id].progress.Woken?)
  }

  ghost function KvDo(s: KvState, step: KvStep): KvState
    requires KvEnabled(s, step)
  {
    match step
    case Internal(st) => s.(raft := Do(s.raft, st))
    case BeginPut(i, key, value) => DoBeginPut(s, i, key, value)
    case Register(id) =>
      var put := s.puts[id];
      SetPending(s, put.server, s.replicas[put.server].pending[put.index := id])
        .(puts := s.puts[id := put.(progress := Waiting)])
    case Consume(i) => DoConsume(s, i)
    case Answer(id) =>
      var put := s.puts[id];
      s.(puts := s.puts[id := put.(progress := Answered(put.progress.term == put.term))])
    case TimeOut(id) =>
      var put := s.puts[id];
      SetPending(s, put.server, s.replicas[put.server].pending - {put.index})
        .(puts := s.puts[id := put.(progress := TimedOut)])
  }

  function SetPending(s: KvState, i: nat, pending: map<int, nat>): KvState
    requires i < |s.replicas|
  {
    s.(replicas := s.replicas[i := s.replicas[i].(pending := pending)])
  }

  /** Start either appends the command or, on a node that does not lead, nothing; the
      handler then redirects the client. */
  ghost function DoBeginPut(s: KvState, i: nat, key: string, value: string): KvState
    requires KvEnabled(s, BeginPut(i, key, value))
  {
    var node := s.raft.nodes[i];
    s.(raft := Do(s.raft, Submit(i, EncodeCommand(key, value))),
       puts := if node.role == Leader
               then s.puts + [Put(i, key, value, |node.log|, node.currentTerm, Submitted)]
               else s.puts)
  }

  /** One round of the server's apply loop. */
  ghost function DoConsume(s: KvState, i: nat): KvState
    requires KvEnabled(s, Consume(i))
  {
    var r := s.replicas[i];
    var msg := s.raft.nodes[i].stream[r.consumed];
    s.(replicas := s.replicas[i := Replica(r.consumed + 1, ApplyCommand(r.store, msg.command), r.pending - {msg.index})],
       puts := if msg.index in r.pending && r.pending[msg.index] < |s.puts|
               then Wake(s.puts, r.pending[msg.index], msg.term)
               else s.puts)
  }

  function Wake(puts: seq<Put>, id: nat, term: int): seq<Put>
    requires id < |puts|
  {
    puts[id := puts[id].(progress := Woken(term))]
  }

  function KvInit(n: nat): KvState {
    KvState(Init(n), seq(n, _ => Replica(0, map[], map[])), [])
  }

  ghost predicate KvNext(s: KvState, s': KvState) {
    exists step: KvStep :: KvEnabled(s, step) && s' == KvDo(s, step)
  }

  ghost predicate IsKvRun(n: nat, run: seq<KvState>) {
    && n > 0
    && |run| > 0
    && run[0] == KvInit(n)
    && forall i {:trigger KvStepAt(run, i)} :: KvStepAt(run, i)
  }

  ghost predicate KvStepAt(run: seq<KvState>, i: int) {
    0 <= i < |run| - 1 ==> KvNext(run[i], run[i + 1])
  }

  lemma KvRunStep(n: nat, run: seq<KvState>, i: nat)
    requires IsKvRun(n, run) && i + 1 < |run|
    ensures KvNext(run[i], run[i + 1])
  {
    assert KvStepAt(run, i);
  }

  // ---- the cluster's part of a run ------------------------------------------------

  function Rafts(run: seq<KvState>): (r: seq<State>)
    ensures |r| == |run| && forall i :: 0 <= i < |run| ==> r[i] == run[i].raft
  {
    seq(|run|, i requires 0 <= i < |run| => run[i].raft)
  }

  lemma RaftsRun(n: nat, run: seq<KvState>)
    requires IsKvRun(n, run)
    ensures IsRun(n, Rafts(run))
  {
    var r := Rafts(run);
    forall i {:trigger StepAt(r, i)} ensures StepAt(r, i) {
      if 0 <= i < |r| - 1 {
        KvRunStep(n, run, i);
        RaftNext(run[i], run[i + 1]);
      }
    }
  }

  lemma RaftNext(s: KvState, s': KvState)
    requires KvNext(s, s')
    ensures Next(s.raft, s'.raft)
  {
    var step :| KvEnabled(s, step) && s' == KvDo(s, step);
    if step.BeginPut? {
      assert s'.raft == Do(s.raft, Submit(step.server, EncodeCommand(step.key, step.value)));
    }
  }

  // ---- what holds of servers and puts ---------------------------------------------

  /** Term t's leader put this command at its index. */
  ghost predicate Recorded(h: History, put: Put) {
    && put.term in h.termLog
    && 1 <= put.index < |h.termLog[put.term]|
    && h.termLog[put.term][put.index] == Entry(put.index, put.term, EncodeCommand(put.key, put.value))
  }

  /** The server has consumed a message of the given term at the put's index. */
  ghost predicate Seen(consumed: nat, stream: seq<ApplyMsg>, put: Put, term: int) {
    1 <= put.index <= consumed <= |stream| && stream[put.index - 1].term == term
  }

  ghost predicate PutOk(h: History, put: Put, consumed: nat, stream: seq<ApplyMsg>) {
    && Recorded(h, put)
    && (put.progress.Woken? ==> Seen(consumed, stream, put, put.progress.term))
    && (put.progress == Answered(true) ==> Seen(consumed, stream, put, put.term))
  }

  /** Every handler that is waited for is indeed waiting, where and for what the
      pending map says. */
  ghost predicate PendingOk(puts: seq<Put>, pending: map<int, nat>, i: nat) {
    forall x :: x in pending ==>
      && pending[x] < |puts|
      && puts[pending[x]].index == x
      && puts[pending[x]].server == i
      && puts[pending[x]].progress == Waiting
  }

  ghost predicate StoreOk(r: Replica, stream: seq<ApplyMsg>) {
    r.consumed <= |stream| && r.store == StoreAfter(stream[..r.consumed])
  }

  ghost predicate KvInv(s: KvState) {
    && |s.replicas| == |s.raft.nodes|
    && (forall i {:trigger s.replicas[i]} :: 0 <= i < |s.replicas| ==>
          StoreOk(s.replicas[i], s.raft.nodes[i].stream) && PendingOk(s.puts, s.replicas[i].pending, i))
    && (forall id {:trigger s.puts[id]} :: 0 <= id < |s.puts| ==>
          && s.puts[id].server < |s.replicas|
          && PutOk(s.raft.past, s.puts[id], s.replicas[s.puts[id].server].consumed,
                   s.raft.nodes[s.puts[id].server].stream))
  }

  /** The streams and the past only grow under servers and puts. */
  ghost predicate RaftGrows(s: State, s': State) {
    && |s'.nodes| == |s.nodes|
    && Grows(s.past, s'.past)
    && forall p {:trigger s'.nodes[p]} :: 0 <= p < |s.nodes| ==> s.nodes[p].stream <= s'.nodes[p].stream
  }

  lemma RaftStepGrows(s: State, s': State)
    requires Inv(s) && Next(s, s')
    ensures RaftGrows(s, s')
  {
    NextOk(s, s');
    forall p {:trigger s'.nodes[p]} | 0 <= p < |s.nodes| ensures s.nodes[p].stream <= s'.nodes[p].stream {
      NextNeverGoesBack(s, s', p);
    }
  }

  lemma RecordedGrows(h: History, h': History, put: Put)
    requires Grows(h, h') && Recorded(h, put)
    ensures Recorded(h', put)
  {
    assert TermLogGrows(h, h', put.term);
  }

  lemma RaftMoves(s: KvState, s': KvState)
    requires KvInv(s) && RaftGrows(s.raft, s'.raft) && s' == s.(raft := s'.raft)
    ensures KvInv(s')
  {
    forall i {:trigger s'.replicas[i]} | 0 <= i < |s'.replicas|
      ensures StoreOk(s'.replicas[i], s'.raft.nodes[i].stream)
    {
      var c, stream, stream' := s.replicas[i].consumed, s.raft.nodes[i].stream, s'.raft.nodes[i].stream;
      assert stream'[..c] == stream[..c];
    }
    forall id {:trigger s'.puts[id]} | 0 <= id < |s'.puts|
      ensures s'.puts[id].server < |s'.replicas|
              && PutOk(s'.raft.past, s'.puts[id], s'.replicas[s'.puts[id].server].consumed,
                       s'.raft.nodes[s'.puts[id].server].stream)
    {
      var put := s.puts[id];
      assert s.raft.nodes[put.server].stream <= s'.raft.nodes[put.server].stream;
      RecordedGrows(s.raft.past, s'.raft.past, put);
    }
  }

  ghost predicate InOrder(stream: seq<ApplyMsg>) {
    forall x :: 0 <= x < |stream| ==> stream[x].index == x + 1
  }

  // ---- each step --------------------------------------------------------------------

  lemma SubmittedIsRecorded(s: State, i: nat, key: string, value: string)
    requires Inv(s) && i < |s.nodes| && s.nodes[i].role == Leader
    requires Enabled(s, Submit(i, EncodeCommand(key, value))) && RunsThrough(s, Submit(i, EncodeCommand(key, value)))
    ensures Recorded(Do(s, Submit(i, EncodeCommand(key, value))).past,
                     Put(i, key, value, |s.nodes[i].log|, s.nodes[i].currentTerm, Submitted))
  {
  }

  lemma BeginPutOk(s: KvState, s': KvState, i: nat, key: string, value: string)
    requires Inv(s.raft) && KvInv(s) && KvEnabled(s, BeginPut(i, key, value)) && s' == DoBeginPut(s, i, key, value)
    ensures KvInv(s')
  {
    assert Next(s.raft, s'.raft);
    RaftStepGrows(s.raft, s'.raft);
    RaftMoves(s, s.(raft := s'.raft));
    if s.raft.nodes[i].role == Leader {
      SubmittedIsRecorded(s.raft, i, key, value);
      PutAdded(s.(raft := s'.raft), s', s'.puts[|s.puts|]);
    }
  }

  lemma PutAdded(s: KvState, s': KvState, put: Put)
    requires KvInv(s) && s' == s.(puts := s.puts + [put])
    requires put.progress == Submitted && put.server < |s.replicas| && Recorded(s.raft.past, put)
    ensures KvInv(s')
  {
    forall k {:trigger s'.replicas[k]} | 0 <= k < |s'.replicas|
      ensures PendingOk(s'.puts, s'.replicas[k].pending, k)
    {
      assert PendingOk(s.puts, s.replicas[k].pending, k);
    }
  }

  /** A put moves on, and enters pending at its index or is taken from there. */
  lemma PutMoves(s: KvState, s': KvState, id: nat, i: nat)
    requires KvInv(s) && id < |s.puts| && i == s.puts[id].server && i < |s.replicas|
    requires |s'.puts| == |s.puts| && s' == s.(puts := s.puts[id := s'.puts[id]], replicas := s'.replicas)
    requires |s'.replicas| == |s.replicas| && s'.replicas == s.replicas[i := s'.replicas[i]]
    requires s'.puts[id] == s.puts[id].(progress := s'.puts[id].progress)
    requires s'.replicas[i] == s.replicas[i].(pending := s'.replicas[i].pending)
    requires forall x :: x in s'.replicas[i].pending && x != s.puts[id].index ==>
               x in s.replicas[i].pending && s'.replicas[i].pending[x] == s.replicas[i].pending[x]
    requires s.puts[id].index in s'.replicas[i].pending ==>
               s'.puts[id].progress == Waiting && s'.replicas[i].pending[s.puts[id].index] == id
    requires PutOk(s.raft.past, s'.puts[id], s.replicas[i].consumed, s.raft.nodes[i].stream)
    ensures KvInv(s')
  {
    forall k {:trigger s'.replicas[k]} | 0 <= k < |s'.replicas|
      ensures PendingOk(s'.puts, s'.replicas[k].pending, k)
    {
      assert PendingOk(s.puts, s.replicas[k].pending, k);
    }
    forall k {:trigger s'.replicas[k]} | 0 <= k < |s'.replicas|
      ensures StoreOk(s'.replicas[k], s'.raft.nodes[k].stream)
    {
      assert StoreOk(s.replicas[k], s.raft.nodes[k].stream);
    }
  }

  lemma ConsumePendingOk(puts: seq<Put>, puts': seq<Put>, pending: map<int, nat>, i: nat, x: int, term: int, k: nat,
                         other: map<int, nat>)
    requires PendingOk(puts, pending, i) && PendingOk(puts, other, k) && (k == i ==> other == pending)
    requires puts' == if x in pending && pending[x] < |puts| then Wake(puts, pending[x], term) else puts
    ensures PendingOk(puts', if k == i then pending - {x} else other, k)
  {
  }

  lemma ConsumePutsOk(s: KvState, s': KvState, i: nat, id: nat)
    requires KvInv(s) && KvEnabled(s, Consume(i)) && s' == DoConsume(s, i) && id < |s.puts|
    requires s.raft.nodes[i].stream[s.replicas[i].consumed].index == s.replicas[i].consumed + 1
    ensures |s'.puts| == |s.puts| && s'.puts[id].server < |s'.replicas|
    ensures PutOk(s'.raft.past, s'.puts[id], s'.replicas[s'.puts[id].server].consumed,
                  s'.raft.nodes[s'.puts[id].server].stream)
  {
    assert PendingOk(s.puts, s.replicas[i].pending, i);
  }

  lemma ConsumeOk(s: KvState, s': KvState, i: nat)
    requires KvInv(s) && KvEnabled(s, Consume(i)) && s' == DoConsume(s, i)
    requires s.raft.nodes[i].stream[s.replicas[i].consumed].index == s.replicas[i].consumed + 1
    ensures KvInv(s')
  {
    var r, stream := s.replicas[i], s.raft.nodes[i].stream;
    var msg := stream[r.consumed];
    assert StoreOk(r, stream);
    forall k {:trigger s'.replicas[k]} | 0 <= k < |s'.replicas|
      ensures PendingOk(s'.puts, s'.replicas[k].pending, k)
    {
      ConsumePendingOk(s.puts, s'.puts, r.pending, i, msg.index, msg.term, k, s.replicas[k].pending);
    }
    StoreAfterOneMore(stream[..r.consumed], msg);
    assert stream[..r.consumed + 1] == stream[..r.consumed] + [msg];
    forall k {:trigger s'.replicas[k]} | 0 <= k < |s'.replicas|
      ensures StoreOk(s'.replicas[k], s'.raft.nodes[k].stream)
    {
      assert StoreOk(s.replicas[k], s.raft.nodes[k].stream);
    }
    forall id {:trigger s'.puts[id]} | 0 <= id < |s'.puts|
      ensures s'.puts[id].server < |s'.replicas|
              && PutOk(s'.raft.past, s'.puts[id], s'.replicas[s'.puts[id].server].consumed,
                       s'.raft.nodes[s'.puts[id].server].stream)
    {
      ConsumePutsOk(s, s', i, id);
    }
  }

  lemma HandlerStepOk(s: KvState, s': KvState, step: KvStep)
    requires KvInv(s) && KvEnabled(s, step) && s' == KvDo(s, step)
    requires step.Register? || step.Answer? || step.TimeOut?
    ensures KvInv(s')
  {
    var id := match step case Register(id) => id case Answer(id) => id case TimeOut(id) => id;
    var i := s.puts[id].server;
    assert PendingOk(s.puts, s.replicas[i].pending, i);
    if step.Answer? {
      assert s.puts[id].index in s.replicas[i].pending ==> s.replicas[i].pending[s.puts[id].index] != id;
      AnswerOk(s, s', id);
    } else {
      PutMoves(s, s', id, i);
    }
  }

  lemma AnswerOk(s: KvState, s': KvState, id: nat)
    requires KvInv(s) && KvEnabled(s, Answer(id)) && s' == KvDo(s, Answer(id))
    ensures KvInv(s')
  {
    forall k {:trigger s'.replicas[k]} | 0 <= k < |s'.replicas|
      ensures PendingOk(s'.puts, s'.replicas[k].pending, k)
    {
      assert PendingOk(s.puts, s.replicas[k].pending, k);
    }
  }

  lemma KvStepOk(s: KvState, s': KvState, step: KvStep)
    requires Inv(s.raft) && KvInv(s) && StreamsInOrder(s.raft) && KvEnabled(s, step) && s' == KvDo(s, step)
    ensures KvInv(s')
  {
    match step
    case Internal(st) =>
      assert Next(s.raft, s'.raft);
      RaftStepGrows(s.raft, s'.raft);
      RaftMoves(s, s');
    case BeginPut(i, key, value) => BeginPutOk(s, s', i, key, value);
    case Consume(i) => ConsumeOk(s, s', i);
    case _ => HandlerStepOk(s, s', step);
  }

  lemma KvNextOk(n: nat, run: seq<KvState>, i: nat)
    requires IsKvRun(n, run) && i + 1 < |run| && KvInv(run[i])
    ensures KvInv(run[i + 1])
  {
    KvRunStep(n, run, i);
    var step :| KvEnabled(run[i], step) && run[i + 1] == KvDo(run[i], step);
    RaftsRun(n, run);
    hide IsKvRun, KvEnabled, KvDo, Inv, KvInv, StreamsInOrder;
    RunOk(n, Rafts(run), i);
    RunStreamsInOrder(n, Rafts(run), i);
    KvStepOk(run[i], run[i + 1], step);
  }

  lemma KvInitOk(n: nat)
    ensures KvInv(KvInit(n))
  {
  }

  ghost predicate StreamsInOrder(s: State) {
    forall p {:trigger s.nodes[p]} :: 0 <= p < |s.nodes| ==> InOrder(s.nodes[p].stream)
  }

  lemma RunStreamsInOrder(n: nat, run: seq<State>, i: nat)
    requires IsRun(n, run) && i < |run|
    ensures StreamsInOrder(run[i])
  {
    RunSize(n, run, i);
    forall p {:trigger run[i].nodes[p]} | 0 <= p < n ensures InOrder(run[i].nodes[p].stream) {
      AppliedInOrder(n, run, i, p);
    }
  }

  lemma {:induction false} KvRunOk(n: nat, run: seq<KvState>, i: nat)
    requires IsKvRun(n, run) && i < |run|
    ensures KvInv(run[i]) && |run[i].replicas| == n
  {
    RaftsRun(n, run);
    RunSize(n, Rafts(run), i);
    hide KvNext, IsRun;
    if i == 0 {
      KvInitOk(n);
    } else {
      KvRunOk(n, run, i - 1);
      KvNextOk(n, run, i - 1);
    }
  }

  // ---- theorems ---------------------------------------------------------------------

  /** What the server of an acknowledged put consumed at its index is that put. */
  lemma AcknowledgedIsOwn(n: nat, run: seq<KvState>, i: nat, id: nat)
    requires IsKvRun(n, run) && i < |run| && id < |run[i].puts| && run[i].puts[id].progress == Answered(true)
    ensures var put := run[i].puts[id];
            && put.server < n == |run[i].raft.nodes| == |run[i].replicas|
            && 1 <= put.index <= run[i].replicas[put.server].consumed
            && var a := run[i].raft.nodes[put.server];
               && put.index <= |a.stream| && put.index <= a.commitIndex < |a.log|
               && a.log[put.index] == Entry(put.index, put.term, EncodeCommand(put.key, put.value))
               && a.stream[put.index - 1] == ApplyMsg(put.index, put.term, EncodeCommand(put.key, put.value))
  {
    KvRunOk(n, run, i);
    RaftsRun(n, run);
    var put := run[i].puts[id];
    AppliedInOrder(n, Rafts(run), i, put.server);
    RunOk(n, Rafts(run), i);
    var a := run[i].raft.nodes[put.server];
    assert NodeOk(run[i].raft.past, n, put.server, a);
    assert a.stream[put.index - 1].term == a.log[put.index].term;
    assert Rooted(run[i].raft.past.termLog, a.log, put.index);
  }

  /** A handler that is woken answers Ok if and only if what its server applied at the
      put's index is the put itself: matching the term suffices. */
  lemma OkIffOwnCommand(n: nat, run: seq<KvState>, i: nat, id: nat)
    requires IsKvRun(n, run) && i < |run| && id < |run[i].puts| && run[i].puts[id].progress.Woken?
    requires KvEnabled(run[i], Answer(id))
    ensures |run[i].raft.nodes| == n && run[i].puts[id].server < n
    ensures var put := run[i].puts[id];
            && 1 <= put.index <= |run[i].raft.nodes[put.server].stream|
            && (KvDo(run[i], Answer(id)).puts[id].progress == Answered(true) <==>
                  run[i].raft.nodes[put.server].stream[put.index - 1]
                  == ApplyMsg(put.index, put.term, EncodeCommand(put.key, put.value)))
            && (KvDo(run[i], Answer(id)).puts[id].progress == Answered(false) <==>
                  run[i].raft.nodes[put.server].stream[put.index - 1]
                  != ApplyMsg(put.index, put.term, EncodeCommand(put.key, put.value)))
  {
    KvRunOk(n, run, i);
    RaftsRun(n, run);
    RunSize(n, Rafts(run), i);
    var put := run[i].puts[id];
    AppliedInOrder(n, Rafts(run), i, put.server);
    RunOk(n, Rafts(run), i);
    SeenIsOwn(run[i].raft, put);
  }

  lemma SeenIsOwn(s: State, put: Put)
    requires Inv(s) && put.server < |s.nodes| && Recorded(s.past, put)
    requires 1 <= put.index <= |s.nodes[put.server].stream|
    ensures s.nodes[put.server].stream[put.index - 1].term == put.term ==>
              s.nodes[put.server].stream[put.index - 1] == ApplyMsg(put.index, put.term, EncodeCommand(put.key, put.value))
  {
    var a := s.nodes[put.server];
    assert NodeOk(s.past, |s.nodes|, put.server, a);
    assert Rooted(s.past.termLog, a.log, put.index);
  }

  predicate LeadsLater(s: Node, put: Put) {
    s.role == Leader && s.currentTerm > put.term
  }

  /** Ok=true means durable: at any time, on any node, whatever is applied at the
      put's index is the put, and every leader of a later term holds it there, if
      its term is no lower than the one the server had reached when it answered. */
  lemma AcknowledgedIsDurable(n: nat, run: seq<KvState>, i: nat, id: nat, j: nat, q: nat)
    requires IsKvRun(n, run) && i < |run| && id < |run[i].puts| && run[i].puts[id].progress == Answered(true)
    requires j < |run| && q < n
    ensures var put := run[i].puts[id];
            && put.server < |run[i].raft.nodes| && |run[j].raft.nodes| == n && 1 <= put.index
            && var b := run[j].raft.nodes[q];
               && (|b.stream| >= put.index ==>
                     b.stream[put.index - 1] == ApplyMsg(put.index, put.term, EncodeCommand(put.key, put.value)))
               && (LeadsLater(b, put) && b.currentTerm >= run[i].raft.nodes[put.server].currentTerm ==> Holds(b.log, put))
  {
    AcknowledgedIsOwn(n, run, i, id);
    RaftsRun(n, run);
    var put := run[i].puts[id];
    AppliedInOrder(n, Rafts(run), j, q);
    StateMachineSafety(n, Rafts(run), i, put.server, j, q);
    var b := run[j].raft.nodes[q];
    if LeadsLater(b, put) && b.currentTerm >= run[i].raft.nodes[put.server].currentTerm {
      CommittedEntryReaches(n, Rafts(run), i, put.server, j, q, put.index);
    }
  }

  ghost predicate Holds(log: seq<Entry>, put: Put) {
    && 0 <= put.index < |log|
    && log[put.index] == Entry(put.index, put.term, EncodeCommand(put.key, put.value))
  }

  /** The put does not reach back into the log of its term as the history knows it. */
  ghost predicate StartsAbove(h: History, put: Put) {
    put.term in h.termLog ==> put.index >= |h.termLog[put.term]|
  }

  lemma PutsStay(s: KvState, s': KvState, id: nat)
    requires KvNext(s, s') && id < |s.puts|
    ensures id < |s'.puts|
    ensures s'.puts[id] == s.puts[id].(progress := s'.puts[id].progress)
  {
  }

  lemma NewPutIsALeaders(s: KvState, s': KvState, id: nat) returns (i: nat)
    requires KvNext(s, s') && |s.puts| <= id < |s'.puts|
    ensures i < |s.raft.nodes| && s.raft.nodes[i].role == Leader
    ensures s'.puts[id].term == s.raft.nodes[i].currentTerm && s'.puts[id].index == |s.raft.nodes[i].log|
  {
    var step :| KvEnabled(s, step) && s' == KvDo(s, step);
    i := step.server;
  }

  lemma LeaderLogIsRecorded(s: State, i: nat)
    requires Inv(s) && i < |s.nodes| && s.nodes[i].role == Leader
    ensures s.nodes[i].currentTerm in s.past.termLog && s.nodes[i].log == s.past.termLog[s.nodes[i].currentTerm]
  {
    assert NodeOk(s.past, |s.nodes|, i, s.nodes[i]);
  }

  lemma NewPutStartsAbove(n: nat, run: seq<KvState>, i: nat, j: nat, id: nat)
    requires IsKvRun(n, run) && i <= j < |run| - 1 && |run[j].puts| <= id < |run[j + 1].puts|
    ensures StartsAbove(run[i].raft.past, run[j + 1].puts[id])
  {
    hide KvNext, Inv, Next;
    KvRunStep(n, run, j);
    RaftsRun(n, run);
    RunOk(n, Rafts(run), j);
    var leader := NewPutIsALeaders(run[j], run[j + 1], id);
    LeaderLogIsRecorded(run[j].raft, leader);
    RunGrows(n, Rafts(run), i, j);
    hide IsKvRun, IsRun, Grows;
    LogsOnlyGrow(run[i].raft.past, run[j].raft.past, run[j + 1].puts[id].term);
  }

  lemma {:induction false} LaterPutsStartAbove(n: nat, run: seq<KvState>, i: nat, j: nat, id: nat)
    requires IsKvRun(n, run) && i <= j < |run| && |run[i].puts| <= id < |run[j].puts|
    ensures StartsAbove(run[i].raft.past, run[j].puts[id])
    decreases j
  {
    hide KvNext, StartsAbove;
    KvRunStep(n, run, j - 1);
    if id < |run[j - 1].puts| {
      LaterPutsStartAbove(n, run, i, j - 1, id);
      PutsStay(run[j - 1], run[j], id);
      SamePlace(run[i].raft.past, run[j - 1].puts[id], run[j].puts[id]);
    } else {
      NewPutStartsAbove(n, run, i, j - 1, id);
    }
  }

  lemma SamePlace(h: History, put: Put, put': Put)
    requires put' == put.(progress := put'.progress) && StartsAbove(h, put)
    ensures StartsAbove(h, put')
  {
  }

  lemma LogsOnlyGrow(h: History, h': History, t: int)
    requires Grows(h, h')
    ensures t in h.termLog ==> t in h'.termLog && |h.termLog[t]| <= |h'.termLog[t]|
  {
    assert t in h.termLog ==> TermLogGrows(h, h', t);
  }

  /** Acknowledged puts respect real time: one that is submitted after another was
      acknowledged, on whatever server, comes later in the log. */
  lemma AcknowledgedInOrder(n: nat, run: seq<KvState>, i: nat, j: nat, a: nat, b: nat)
    requires IsKvRun(n, run) && i <= j < |run| && a < |run[i].puts| <= b < |run[j].puts|
    requires run[i].puts[a].progress == Answered(true) && run[j].puts[b].progress == Answered(true)
    ensures run[i].puts[a].index < run[j].puts[b].index
  {
    AcknowledgedIsOwn(n, run, i, a);
    AcknowledgedIsOwn(n, run, j, b);
    LaterPutsStartAbove(n, run, i, j, b);
    RaftsRun(n, run);
    RunOk(n, Rafts(run), i);
    var x, y := run[i].puts[a], run[j].puts[b];
    CommittedPrefixesAgree(n, Rafts(run), i, x.server, j, y.server);
    EntryIsRecorded(run[i].raft, x.server, y);
  }

  /** A put that some log holds is within the recorded log of its term. */
  lemma EntryIsRecorded(s: State, p: nat, put: Put)
    requires Inv(s) && p < |s.nodes|
    ensures Holds(s.nodes[p].log, put) ==> !StartsAbove(s.past, put)
  {
    assert NodeOk(s.past, |s.nodes|, p, s.nodes[p]);
    if Holds(s.nodes[p].log, put) {
      assert Rooted(s.past.termLog, s.nodes[p].log, put.index);
    }
  }

  /** Each store is the fold of the commands its server has consumed, so servers
      that have consumed equally much, at any times, hold the same map. */
  lemma ReplicasAgree(n: nat, run: seq<KvState>, i: nat, p: nat, j: nat, q: nat)
    requires IsKvRun(n, run) && i < |run| && j < |run| && p < n && q < n
    ensures |run[i].replicas| == n && |run[j].replicas| == n
    ensures run[i].replicas[p].consumed == run[j].replicas[q].consumed ==>
              run[i].replicas[p].store == run[j].replicas[q].store
  {
    KvRunOk(n, run, i);
    KvRunOk(n, run, j);
    RaftsRun(n, run);
    RunOk(n, Rafts(run), i);
    RunOk(n, Rafts(run), j);
    StateMachineSafety(n, Rafts(run), i, p, j, q);
    assert StoreOk(run[i].replicas[p], run[i].raft.nodes[p].stream);
    assert StoreOk(run[j].replicas[q], run[j].raft.nodes[q].stream);
    var a, b, c := run[i].raft.nodes[p].stream, run[j].raft.nodes[q].stream, run[i].replicas[p].consumed;
    if c == run[j].replicas[q].consumed {
      assert a[..c] == b[..c];
    }
  }

  /** A replica that has just consumed an acknowledged put has its value under its
      key, unless the key contains the separator. */
  lemma AcknowledgedIsStored(n: nat, run: seq<KvState>, i: nat, id: nat, j: nat, q: nat)
    requires IsKvRun(n, run) && i < |run| && id < |run[i].puts| && run[i].puts[id].progress == Answered(true)
    requires j < |run| && q < n && SEPARATOR !in run[i].puts[id].key
    ensures |run[j].replicas| == n
    ensures var (put, r) := (run[i].puts[id], run[j].replicas[q]);
            r.consumed == put.index ==> put.key in r.store && r.store[put.key] == put.value
  {
    KvRunOk(n, run, j);
    AcknowledgedIsOwn(n, run, i, id);
    AcknowledgedIsDurable(n, run, i, id, j, q);
    var put, r, stream := run[i].puts[id], run[j].replicas[q], run[j].raft.nodes[q].stream;
    assert StoreOk(r, stream);
    if r.consumed == put.index {
      var before := stream[..put.index - 1];
      assert stream[..put.index] == before + [stream[put.index - 1]];
      StoreAfterOneMore(before, stream[put.index - 1]);
      ApplyPut(StoreAfter(before), put.key, put.value);
    }
  }
}
