/** The server object of hw3/server/main.go around one Raft object. */
module KvServer {
  import opened RaftLog
  import opened RaftNode
  import opened RaftObject
  import opened KvCodec
  import Cluster
  import Kv = KvCluster

  /** What Put answers once its channel is closed. */
  datatype PutReply = Done | LeadershipChanged

  /** A Put handler waiting for its log entry. */
  class PendingPut {
    var term: int
    var closed: bool

    constructor (term: int)
      ensures this.term == term && !closed
    {
      this.term := term;
      closed := false;
    }
  }

  class Server {
    const rf: Raft
    var st: Store
    var pending: map<int, PendingPut>
    /** Which put of the cluster each handler that has registered here belongs to. */
    ghost var handlers: map<nat, PendingPut>

    constructor (rf: Raft)
      ensures this.rf == rf && st == map[] && pending == map[] && handlers == map[]
      ensures forall n: nat {:trigger Kv.KvInit(n)} :: 0 <= rf.id < n ==> Represents(Kv.KvInit(n))
    {
      this.rf := rf;
      st := map[];
      pending := map[];
      handlers := map[];
    }

    /** This server is what the cluster state s says of its replica and its puts: the
        same store, the same handlers waiting at the same indices, and each handler's
        channel closed, with the term left in it, exactly if the put was woken. */
    ghost predicate Represents(s: Kv.KvState)
      reads this, handlers.Values
    {
      && 0 <= rf.id < |s.replicas| == |s.raft.nodes|
      && st == s.replicas[rf.id].store
      && pending.Keys == s.replicas[rf.id].pending.Keys
      && (forall x :: x in pending ==> Waits(s.replicas[rf.id].pending[x], pending[x]))
      && (forall id, id' :: id in handlers && id' in handlers && id != id' ==> handlers[id] != handlers[id'])
      && (forall id :: id in handlers ==> id < |s.puts| && HandlerOk(handlers[id], s.puts[id], rf.id))
      && (forall id :: 0 <= id < |s.puts| && Expects(s.puts[id], rf.id) ==> id in handlers)
    }

    ghost predicate Waits(id: nat, pp: PendingPut)
      reads this
    {
      id in handlers && handlers[id] == pp
    }

    /** The first part of Put: hand the command to Raft. A leader's server thereby
        begins the put that the cluster's step begins. */
    method Submit(key: string, value: string, ghost s: Kv.KvState) returns (index: int, term: int, isLeader: bool)
      requires rf.Valid()
      modifies rf.log
      ensures rf.Valid() && rf.View() == StartCommand(old(rf.View()), EncodeCommand(key, value))
      ensures isLeader == (rf.role == Leader) && term == rf.currentTerm
      ensures isLeader ==> index == LastIndexOf(rf.log.entries)
                           && rf.log.entries[index] == Entry(index, term, EncodeCommand(key, value))
      ensures old(Represents(s)) && rf.id >= 0 && Kv.KvEnabled(s, Kv.BeginPut(rf.id, key, value))
              && old(rf.View()) == s.raft.nodes[rf.id] ==>
                var s' := Kv.KvDo(s, Kv.BeginPut(rf.id, key, value));
                && Represents(s') && rf.View() == s'.raft.nodes[rf.id]
                && s'.puts == if isLeader
                              then s.puts + [Kv.Put.Put(rf.id, key, value, index, term, Kv.Submitted)]
                              else s.puts
    {
      index, term, isLeader := rf.Start(EncodeCommand(key, value));
    }

    /** The second part of Put: wait at the index, replacing whoever waits there. */
    method Register(index: int, term: int, ghost s: Kv.KvState, ghost id: nat) returns (pp: PendingPut)
      modifies this`pending, this`handlers
      ensures fresh(pp) && pp.term == term && !pp.closed
      ensures pending == old(pending)[index := pp] && handlers == old(handlers)[id := pp]
      ensures old(Represents(s)) && Kv.KvEnabled(s, Kv.Register(id)) && s.puts[id].server == rf.id
              && s.puts[id].index == index && s.puts[id].term == term ==>
                Represents(Kv.KvDo(s, Kv.Register(id)))
    {
      pp := new PendingPut(term);
      pending := pending[index := pp];
      handlers := handlers[id := pp];
    }

    /** The last part of Put, after the channel was closed. */
    method Answer(pp: PendingPut, submittedTerm: int, ghost s: Kv.KvState, ghost id: nat) returns (reply: PutReply)
      requires pp.closed
      ensures reply == Done <==> pp.term == submittedTerm
      ensures Represents(s) && Kv.KvEnabled(s, Kv.Answer(id)) && s.puts[id].term == submittedTerm
              && id in handlers && handlers[id] == pp ==>
                && Represents(Kv.KvDo(s, Kv.Answer(id)))
                && Kv.KvDo(s, Kv.Answer(id)).puts[id].progress == Kv.Answered(reply == Done)
    {
      if pp.term != submittedTerm {
        return LeadershipChanged;
      }
      return Done;
    }

    /** Put gives up: whoever waits at the index now no longer does. */
    method TimeOut(index: int, ghost s: Kv.KvState, ghost id: nat)
      modifies this`pending
      ensures pending == old(pending) - {index}
      ensures old(Represents(s)) && Kv.KvEnabled(s, Kv.TimeOut(id)) && s.puts[id].server == rf.id
              && s.puts[id].index == index ==>
                Represents(Kv.KvDo(s, Kv.TimeOut(id)))
    {
      pending := pending - {index};
    }

    /** One round of the apply loop. */
    method ApplyMsg(msg: ApplyMsg)
      modifies this`st, this`pending, if msg.index in pending then {pending[msg.index]} else {}
      ensures st == ApplyCommand(old(st), msg.command)
      ensures pending == old(pending) - {msg.index}
      ensures msg.index in old(pending) ==>
                old(pending)[msg.index].term == msg.term && old(pending)[msg.index].closed
    {
      var (op, key, value) := DecodeCommand(msg.command);
      if op == PUT {
        st := st[key := value];
      }
      if msg.index in pending {
        var pp := pending[msg.index];
        pp.term := msg.term;
        pending := pending - {msg.index};
        pp.closed := true;
      }
    }

    /** Such a round is the cluster's Consume step. */
    method Consume(msg: ApplyMsg, ghost s: Kv.KvState)
      modifies this`st, this`pending, if msg.index in pending then {pending[msg.index]} else {}
      ensures st == ApplyCommand(old(st), msg.command)
      ensures pending == old(pending) - {msg.index}
      ensures msg.index in old(pending) ==>
                old(pending)[msg.index].term == msg.term && old(pending)[msg.index].closed
      ensures old(Represents(s)) && IsNext(s, rf.id, msg) ==> Represents(Kv.KvDo(s, Kv.Consume(rf.id)))
    {
      hide ApplyCommand;
      ghost var follows := Represents(s) && IsNext(s, rf.id, msg);
      ApplyMsg(msg);
      if follows {
        ghost var s' := Kv.KvDo(s, Kv.Consume(rf.id));
        assert msg.index in old(pending) ==>
            old(Waits(s.replicas[rf.id].pending[msg.index], pending[msg.index]));
        forall id | id in handlers ensures id < |s'.puts| && HandlerOk(handlers[id], s'.puts[id], rf.id) {
          assert old(HandlerOk(handlers[id], s.puts[id], rf.id));
        }
        forall x | x in pending ensures Waits(s'.replicas[rf.id].pending[x], pending[x]) {
          assert old(Waits(s.replicas[rf.id].pending[x], pending[x]));
        }
      }
    }

    /** No step of another server, nor of the cluster below, unsettles this one. */
    lemma OthersStepRepresented(s: Kv.KvState, step: Kv.KvStep)
      requires Represents(s) && Kv.KvInv(s) && Kv.KvEnabled(s, step) && ServerOf(s, step) != rf.id
      ensures Represents(Kv.KvDo(s, step))
    {
      OthersStepShape(s, Kv.KvDo(s, step), step, rf.id);
      hide Kv.KvDo, Kv.KvEnabled, Kv.KvInv;
      var s' := Kv.KvDo(s, step);
      forall id | id in handlers ensures id < |s'.puts| && HandlerOk(handlers[id], s'.puts[id], rf.id) {
        assert HandlerOk(handlers[id], s.puts[id], rf.id);
      }
    }

    /** The apply loop over the next messages of the commit channel, done being those
        it has consumed before: the store follows the stream, and the first message
        at an index closes the channel waiting there and leaves its own term in it. */
    method ApplyLoop(msgs: seq<ApplyMsg>, ghost done: seq<ApplyMsg>, ghost s: Kv.KvState)
      requires st == StoreAfter(done)
      requires forall x, y :: x in pending && y in pending && x != y ==> pending[x] != pending[y]
      modifies this`st, this`pending, pending.Values
      ensures st == StoreAfter(done + msgs)
      ensures pending == old(pending) - Indices(msgs)
      ensures forall i :: 0 <= i < |msgs| && msgs[i].index in old(pending) && FirstAt(msgs, i) ==>
                old(pending)[msgs[i].index].closed && old(pending)[msgs[i].index].term == msgs[i].term
      ensures old(Represents(s)) && AreNext(s, rf.id, msgs) ==> Represents(Consumed(s, rf.id, |msgs|))
    {
      hide ApplyCommand, StoreAfter;
      ghost var waiting := pending;
      ghost var follows := Represents(s) && AreNext(s, rf.id, msgs);
      assert done + msgs[..0] == done;
      for i := 0 to |msgs|
        invariant st == StoreAfter(done + msgs[..i])
        invariant pending == waiting - Indices(msgs[..i])
        invariant forall k :: 0 <= k < i && msgs[k].index in waiting && FirstAt(msgs, k) ==>
                    waiting[msgs[k].index].closed && waiting[msgs[k].index].term == msgs[k].term
        invariant follows ==> Represents(Consumed(s, rf.id, i))
      {
        IndicesNext(msgs, i);
        StoreNext(done, msgs, i);
        ghost var now := if follows then Consumed(s, rf.id, i) else s;
        if follows {
          NextConsumed(s, rf.id, msgs, i);
        }
        Consume(msgs[i], now);
      }
      assert msgs[..|msgs|] == msgs;
    }
  }

  /** The server whose handler or apply loop takes a step; -1 for the cluster's own. */
  ghost function ServerOf(s: Kv.KvState, step: Kv.KvStep): int
    requires Kv.KvEnabled(s, step)
  {
    match step
    case Internal(_) => -1
    case BeginPut(i, _, _) => i
    case Register(id) => s.puts[id].server
    case Consume(i) => i
    case Answer(id) => s.puts[id].server
    case TimeOut(id) => s.puts[id].server
  }

  ghost predicate Untouched(s: Kv.KvState, s': Kv.KvState, i: int) {
    && |s'.replicas| == |s.replicas| == |s'.raft.nodes| && |s.puts| <= |s'.puts|
    && (0 <= i < |s.replicas| ==> s'.replicas[i] == s.replicas[i])
    && (forall id :: 0 <= id < |s.puts| && s.puts[id].server == i ==> s'.puts[id] == s.puts[id])
    && (forall id :: 0 <= id < |s'.puts| && s'.puts[id].server == i ==> id < |s.puts| && s.puts[id].server == i)
  }

  lemma ConsumeLeavesOthers(s: Kv.KvState, j: nat, i: int)
    requires Kv.KvInv(s) && Kv.KvEnabled(s, Kv.Consume(j)) && j != i
    ensures Untouched(s, Kv.KvDo(s, Kv.Consume(j)), i)
  {
    hide ApplyCommand;
    assert Kv.PendingOk(s.puts, s.replicas[j].pending, j);
  }

  lemma StepKeepsSize(s: Cluster.State, step: Cluster.Step)
    requires Cluster.Enabled(s, step) && Cluster.RunsThrough(s, step)
    ensures |Cluster.Do(s, step).nodes| == |s.nodes|
  {
  }

  lemma OthersStepShape(s: Kv.KvState, s': Kv.KvState, step: Kv.KvStep, i: int)
    requires Kv.KvInv(s) && Kv.KvEnabled(s, step) && s' == Kv.KvDo(s, step)
    requires ServerOf(s, step) != i
    ensures Untouched(s, s', i)
  {
    match step
    case Internal(st) =>
      hide Kv.KvInv;
      StepKeepsSize(s.raft, st);
    case BeginPut(j, key, value) =>
      hide Kv.KvInv;
      StepKeepsSize(s.raft, Cluster.Submit(j, EncodeCommand(key, value)));
    case Consume(j) => ConsumeLeavesOthers(s, j, i);
    case _ => hide Kv.KvInv;
  }

  predicate Expects(put: Kv.Put, server: int) {
    put.server == server && (put.progress == Kv.Waiting || put.progress.Woken?)
  }

  /** What a handler's object shows of its put. */
  ghost predicate HandlerOk(pp: PendingPut, put: Kv.Put, server: int)
    reads pp
  {
    && put.server == server && put.progress != Kv.Submitted
    && (put.progress == Kv.Waiting ==> !pp.closed && pp.term == put.term)
    && (put.progress.Woken? ==> pp.closed && pp.term == put.progress.term)
  }

  // ---- the cluster's side of the apply loop ------------------------------------

  ghost predicate IsNext(s: Kv.KvState, i: int, msg: ApplyMsg) {
    && 0 <= i && Kv.KvEnabled(s, Kv.Consume(i))
    && s.raft.nodes[i].stream[s.replicas[i].consumed] == msg
  }

  ghost predicate AreNext(s: Kv.KvState, i: int, msgs: seq<ApplyMsg>) {
    && 0 <= i < |s.replicas| == |s.raft.nodes|
    && s.replicas[i].consumed + |msgs| <= |s.raft.nodes[i].stream|
    && forall k :: 0 <= k < |msgs| ==> s.raft.nodes[i].stream[s.replicas[i].consumed + k] == msgs[k]
  }

  /** Server i after it has consumed k more messages. */
  ghost function Consumed(s: Kv.KvState, i: int, k: nat): (s': Kv.KvState)
    requires 0 <= i < |s.replicas| == |s.raft.nodes|
    requires s.replicas[i].consumed + k <= |s.raft.nodes[i].stream|
    ensures |s'.replicas| == |s.replicas| && s'.raft == s.raft
    ensures s'.replicas[i].consumed == s.replicas[i].consumed + k
  {
    if k == 0 then s else Kv.KvDo(Consumed(s, i, k - 1), Kv.Consume(i))
  }

  lemma NextConsumed(s: Kv.KvState, i: int, msgs: seq<ApplyMsg>, k: nat)
    requires AreNext(s, i, msgs) && k < |msgs|
    ensures IsNext(Consumed(s, i, k), i, msgs[k])
    ensures Consumed(s, i, k + 1) == Kv.KvDo(Consumed(s, i, k), Kv.Consume(i))
  {
  }

  ghost predicate FirstAt(msgs: seq<ApplyMsg>, i: nat)
    requires i < |msgs|
  {
    msgs[i].index !in Indices(msgs[..i])
  }

  ghost function Indices(msgs: seq<ApplyMsg>): set<int> {
    set m | m in msgs :: m.index
  }

  lemma IndicesNext(msgs: seq<ApplyMsg>, i: nat)
    requires i < |msgs|
    ensures Indices(msgs[..i + 1]) == Indices(msgs[..i]) + {msgs[i].index}
    ensures forall k :: 0 <= k < i ==> msgs[k].index in Indices(msgs[..i])
  {
    assert msgs[..i + 1] == msgs[..i] + [msgs[i]];
    forall k | 0 <= k < i ensures msgs[k].index in Indices(msgs[..i]) {
      assert msgs[..i][k] == msgs[k];
    }
  }

  lemma StoreNext(done: seq<ApplyMsg>, msgs: seq<ApplyMsg>, i: nat)
    requires i < |msgs|
    ensures StoreAfter(done + msgs[..i + 1]) == ApplyCommand(StoreAfter(done + msgs[..i]), msgs[i].command)
  {
    assert done + msgs[..i + 1] == (done + msgs[..i]) + [msgs[i]];
    StoreAfterOneMore(done + msgs[..i], msgs[i]);
  }
}
