/** At-least-once execution against executing each task once: what the index holds
    after any run of the pipeline. */
module Execution {
  import opened Options
  import opened Broker
  import opened Pipeline

  /** The index is that of executing each written task once in every order if and
      only if these tasks do not clash. */
  lemma IndexIsOnceEachIff(env: Env, steps: seq<Step>, s: System)
    requires Possible(env, Start(), steps) && s == After(env, Start(), steps)
    ensures AllDecodable(env, s.writes)
    ensures (forall order :: OnceEach(order, Elements(s.writes)) ==>
               AllDecodable(env, order) && s.index == Replay(env, order))
       <==> ClashFree(env, Elements(s.writes))
  {
    EveryRunOk(env, steps);
    var tasks := Elements(s.writes);
    OrderFreeIffClashFree(env, tasks);
    if ClashFree(env, tasks) {
      forall order | OnceEach(order, tasks)
        ensures AllDecodable(env, order) && s.index == Replay(env, order)
      {
        assert forall t :: t in order ==> t in Elements(order);
        SameTasksSameIndex(env, s.writes, order);
      }
    }
  }

  /** In every run, clashes or not, the index is what executing each written task
      once leaves, in some order. */
  lemma IndexIsOnceEachInSomeOrder(env: Env, steps: seq<Step>, s: System) returns (order: seq<Task>)
    requires Possible(env, Start(), steps) && s == After(env, Start(), steps)
    ensures OnceEach(order, Elements(s.writes)) && AllDecodable(env, order)
    ensures s.index == Replay(env, order)
  {
    EveryRunOk(env, steps);
    order := LastExecutionsCount(env, s.writes);
  }

  ghost predicate Clash(env: Env, x: string, y: string) {
    && Decodable(env, Task("a", x)) && Decodable(env, Task("b", y))
    && KeyOf(env, Task("a", x)) == KeyOf(env, Task("b", y))
    && ValueOf(env, Task("a", x)) != ValueOf(env, Task("b", y))
  }

  ghost predicate NeverClashes(env: Env) {
    forall x, y :: !Clash(env, x, y)
  }

  /** Reusing a chunk id for another text is a clash, whatever embedder and hash do. */
  lemma ReusedChunkClashes(env: Env, x: string, y: string)
    requires env.decode(x).Some? && env.decode(y).Some?
    requires env.decode(x).value.chunkID == env.decode(y).value.chunkID
    requires env.decode(x).value.text != env.decode(y).value.text
    ensures Clash(env, x, y)
  {
  }

  /** One worker each for two tasks that clash: both polled, both upserts sent. */
  lemma BothSent(env: Env, x: string, y: string) returns (steps: seq<Step>)
    requires Clash(env, x, y)
    ensures Possible(env, Start(), steps)
    ensures After(env, Start(), steps).attempts
         == [Attempt(Task("a", x), true, false, None), Attempt(Task("b", y), true, false, None)]
    ensures After(env, Start(), steps).writes == [] && After(env, Start(), steps).index == map[]
  {
    steps := [];
    assert Possible(env, Start(), steps) && After(env, Start(), steps) == Start();
    hide Possible, After;
    steps := Continue(env, Start(), steps, Submit("a", x));
    steps := Continue(env, Start(), steps, Submit("b", y));
    steps := Continue(env, Start(), steps, Poll("v", 0));
    steps := Continue(env, Start(), steps, Poll("w", 0));
    steps := Continue(env, Start(), steps, Send(0));
    steps := Continue(env, Start(), steps, Send(1));
  }

  /** A run in which a clash shows: the second task's point stays, and executing the
      two once each the other way round leaves the first one's. */
  lemma ClashShows(env: Env, x: string, y: string) returns (steps: seq<Step>)
    requires Clash(env, x, y)
    ensures Possible(env, Start(), steps)
    ensures After(env, Start(), steps).writes == [Task("a", x), Task("b", y)]
    ensures OnceEach([Task("b", y), Task("a", x)], Elements(After(env, Start(), steps).writes))
    ensures AllDecodable(env, [Task("b", y), Task("a", x)])
    ensures After(env, Start(), steps).index != Replay(env, [Task("b", y), Task("a", x)])
  {
    steps := BothSent(env, x, y);
    hide Possible, After;
    steps := Continue(env, Start(), steps, Write(0));
    steps := Continue(env, Start(), steps, Write(1));
    var a, b := Task("a", x), Task("b", y);
    var s := After(env, Start(), steps);
    assert s.index[KeyOf(env, b)] == ValueOf(env, b);
    assert [b, a][..1] == [b];
    assert Replay(env, [b, a])[KeyOf(env, a)] == ValueOf(env, a);
  }

  ghost predicate OnceEachAlways(env: Env) {
    forall steps: seq<Step>, order: seq<Task> {:trigger Same(env, steps, order)} :: Same(env, steps, order)
  }

  /** If order lists the tasks written in this run once each, it leaves the run's index. */
  ghost predicate Same(env: Env, steps: seq<Step>, order: seq<Task>) {
    Possible(env, Start(), steps) && OnceEach(order, Elements(After(env, Start(), steps).writes)) ==>
      AllDecodable(env, order) && After(env, Start(), steps).index == Replay(env, order)
  }

  /** At-least-once execution equals executing each task once in every order, in all
      runs, if and only if no two payloads write different points under one id. */
  lemma OnceEachAlwaysIff(env: Env)
    ensures OnceEachAlways(env) <==> NeverClashes(env)
  {
    if x, y :| Clash(env, x, y) {
      var steps := ClashShows(env, x, y);
      assert !Same(env, steps, [Task("b", y), Task("a", x)]);
    } else {
      forall steps: seq<Step>, order: seq<Task> ensures Same(env, steps, order) {
        if Possible(env, Start(), steps) && OnceEach(order, Elements(After(env, Start(), steps).writes)) {
          var s := After(env, Start(), steps);
          EveryRunOk(env, steps);
          NoClashAmong(env, s.writes);
          IndexIsOnceEachIff(env, steps, s);
        }
      }
    }
  }

  lemma NoClashAmong(env: Env, tasks: seq<Task>)
    requires AllDecodable(env, tasks) && NeverClashes(env)
    ensures ClashFree(env, Elements(tasks))
  {
    forall t, u | t in Elements(tasks) && u in Elements(tasks) && KeyOf(env, t) == KeyOf(env, u)
      ensures ValueOf(env, t) == ValueOf(env, u)
    {
      assert !Clash(env, t.payload, u.payload);
    }
  }

  ghost function Corpus(s: System): set<Task> {
    set id | id in s.submitted :: Task(id, s.submitted[id])
  }

  /** When every submitted task came back without an error, the index is that of the
      whole corpus, each task executed once. */
  lemma FinishedCorpusIsIndexed(env: Env, steps: seq<Step>, s: System, order: seq<Task>)
    requires Possible(env, Start(), steps) && s == After(env, Start(), steps)
    requires forall id :: id in s.submitted ==> ResultOf(s.broker, id) == Finished("")
    requires OnceEach(order, Corpus(s))
    ensures AllDecodable(env, order)
    ensures ClashFree(env, Corpus(s)) ==> s.index == Replay(env, order)
  {
    EveryRunOk(env, steps);
    forall t | t in Corpus(s)
      ensures t in s.writes
    {
      SuccessIsIndexed(env, steps, t.id, s);
    }
    assert Elements(s.writes) == Corpus(s);
    assert forall t :: t in order ==> t in Elements(order);
    if ClashFree(env, Corpus(s)) {
      SameTasksSameIndex(env, s.writes, order);
    }
  }

  // ---- no task is ever stuck -----------------------------------------------------------

  /** One run after another. */
  lemma {:induction false} InTurn(env: Env, s: System, first: seq<Step>, then_: seq<Step>) returns (steps: seq<Step>)
    requires Possible(env, s, first) && Possible(env, After(env, s, first), then_)
    ensures Possible(env, s, steps) && After(env, s, steps) == After(env, After(env, s, first), then_)
    decreases |first|
  {
    if first == [] {
      steps := then_;
    } else {
      var rest := InTurn(env, Do(env, s, first[0]), first[1..], then_);
      steps := [first[0]] + rest;
      assert steps[1..] == rest;
    }
  }

  lemma {:induction false} ListOf(ids: set<string>) returns (order: seq<string>)
    ensures Distinct(order) && forall id :: id in order <==> id in ids
    decreases |ids|
  {
    if ids == {} {
      order := [];
    } else {
      var id :| id in ids;
      var rest := ListOf(ids - {id});
      order := [id] + rest;
    }
  }

  /** A task that is in flight with nobody at work on it comes back to the queue. */
  lemma Unstick(env: Env, s: System, id: string) returns (step: Step)
    requires SystemInv(env, s) && id in s.broker.inflight
    ensures Enabled(env, s, step) && Queued(Do(env, s, step).broker, id)
    ensures Do(env, s, step).submitted == s.submitted
  {
    var b, now := s.broker, s.broker.inflight[id].lastHeartbeat + TASK_TIMEOUT + 1;
    var order := ListOf(set x | x in b.inflight && Stalled(b, x, now));
    step := Stall(order, now);
    assert Enabled(env, s, step);
    HeardFromStaysUntilTimeout(b, id, b.inflight[id].lastHeartbeat, now, order);
    var pending := Do(env, s, step).broker.pending;
    var i :| 0 <= i < |pending| && pending[i] == b.inflight[id].task;
    assert pending[i].id == id;
  }

  ghost predicate JustPolled(env: Env, s: System, id: string) {
    && |s.attempts| > 0 && id in s.broker.inflight && id in s.submitted
    && s.attempts[|s.attempts| - 1] == Attempt(Task(id, s.submitted[id]), false, false, None)
  }

  /** A queued task's turn comes. */
  lemma {:induction false} PollUntil(env: Env, s: System, id: string) returns (steps: seq<Step>)
    requires SystemInv(env, s) && Queued(s.broker, id)
    ensures Possible(env, s, steps) && JustPolled(env, After(env, s, steps), id)
    ensures After(env, s, steps).submitted == s.submitted
    decreases |s.broker.pending|
  {
    var i :| 0 <= i < |s.broker.pending| && s.broker.pending[i].id == id;
    var s1 := Do(env, s, Poll("w", 0));
    SystemStepOk(env, s, Poll("w", 0));
    if i == 0 {
      steps := [Poll("w", 0)];
      assert steps[1..] == [];
      assert s.broker.pending[0] == Task(id, s.submitted[id]);
    } else {
      assert s1.broker.pending[i - 1].id == id;
      var rest := PollUntil(env, s1, id);
      steps := [Poll("w", 0)] + rest;
      assert steps[1..] == rest;
    }
  }

  /** A worker that has just polled a task can carry it through. */
  lemma CarryThrough(env: Env, s: System, id: string) returns (steps: seq<Step>)
    requires JustPolled(env, s, id) && Decodable(env, Task(id, s.submitted[id]))
    ensures Possible(env, s, steps)
    ensures ResultOf(After(env, s, steps).broker, id) == Finished("")
  {
    var k := |s.attempts| - 1;
    steps := [];
    assert Possible(env, s, steps) && After(env, s, steps) == s;
    hide Possible, After;
    steps := Continue(env, s, steps, Send(k));
    steps := Continue(env, s, steps, Write(k));
    steps := Continue(env, s, steps, Succeed(k));
    var reported := Continue(env, s, steps, Report(k));
    ReportIsAnswered(After(env, s, steps).broker, id, "", After(env, s, reported).broker);
    steps := reported;
  }

  /** From every state of every run, whatever workers were lost before, a submitted task
      that is not yet done and whose payload decodes can still be brought to be done
      without error. */
  lemma EveryTaskCanFinish(env: Env, steps: seq<Step>, s: System, id: string) returns (more: seq<Step>)
    requires Possible(env, Start(), steps) && s == After(env, Start(), steps)
    requires id in s.submitted && Decodable(env, Task(id, s.submitted[id])) && id !in s.broker.done
    ensures Possible(env, s, more) && ResultOf(After(env, s, more).broker, id) == Finished("")
  {
    EveryRunOk(env, steps);
    if id in s.broker.inflight {
      var step := Unstick(env, s, id);
      SystemStepOk(env, s, step);
      more := FinishQueued(env, Do(env, s, step), id);
      var rest := more;
      more := [step] + rest;
      assert more[1..] == rest;
    } else {
      more := FinishQueued(env, s, id);
    }
  }

  lemma FinishQueued(env: Env, s: System, id: string) returns (steps: seq<Step>)
    requires SystemInv(env, s) && Queued(s.broker, id)
    requires id in s.submitted && Decodable(env, Task(id, s.submitted[id]))
    ensures Possible(env, s, steps) && ResultOf(After(env, s, steps).broker, id) == Finished("")
  {
    var polled := PollUntil(env, s, id);
    var carried := CarryThrough(env, After(env, s, polled), id);
    steps := InTurn(env, s, polled, carried);
  }
}
