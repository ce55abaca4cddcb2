/** The broker and its workers as one system (hw4/broker/main.go,
    hw4/worker/main.go): tasks are handed out, stall, are handed out again and are
    reported late, twice or never, while their vectors land in one shared index. */
module Pipeline {
  import opened Options
  import opened Broker

  datatype Chunk = Chunk(docID: string, chunkID: string, title: string, text: string)

  datatype Point = Point(vector: seq<real>, docID: string, title: string, text: string)

  /** What lies outside: JSON decoding, the embedder and the hash from chunk ids to
      point ids, each a function of its input. */
  datatype Env = Env(decode: string -> Option<Chunk>, embed: (string, string) -> seq<real>, pointID: string -> nat)

  /** One worker's attempt at a task: whether its upsert was sent, whether it was
      written, and what it concluded (the empty string is success). */
  datatype Attempt = Attempt(task: Task, sent: bool, written: bool, verdict: Option<string>)

  /** writes lists the upserts the index carried out, in order. */
  datatype System = System(
    broker: Broker,
    submitted: map<string, string>,
    attempts: seq<Attempt>,
    index: map<nat, Point>,
    writes: seq<Task>)

  datatype Step =
    | Submit(id: string, payload: string)
    | Poll(worker: string, now: int)
    | Heartbeat(id: string, now: int)
    | Stall(order: seq<string>, now: int)
    | Send(k: nat)
    | Write(k: nat)
    | Succeed(k: nat)
    | Fail(k: nat, error: string)
    | Report(k: nat)

  function Start(): System {
    System(NewBroker(), map[], [], map[], [])
  }

  function PointOf(env: Env, c: Chunk): Point {
    Point(env.embed(c.chunkID, c.text), c.docID, c.title, c.text)
  }

  predicate Decodable(env: Env, t: Task) {
    env.decode(t.payload).Some?
  }

  function KeyOf(env: Env, t: Task): nat
    requires Decodable(env, t)
  {
    env.pointID(env.decode(t.payload).value.chunkID)
  }

  function ValueOf(env: Env, t: Task): Point
    requires Decodable(env, t)
  {
    PointOf(env, env.decode(t.payload).value)
  }

  function Upserted(env: Env, index: map<nat, Point>, t: Task): map<nat, Point>
    requires Decodable(env, t)
  {
    index[KeyOf(env, t) := ValueOf(env, t)]
  }

  ghost predicate Enabled(env: Env, s: System, step: Step) {
    match step
    case Submit(id, _) => id !in s.submitted
    case Poll(_, _) => true
    case Heartbeat(_, _) => true
    case Stall(order, now) => Distinct(order) && forall id :: id in order <==> Stalled(s.broker, id, now)
    case Send(k) => k < |s.attempts| && s.attempts[k].verdict.None? && Decodable(env, s.attempts[k].task)
    case Write(k) => k < |s.attempts| && s.attempts[k].sent && Decodable(env, s.attempts[k].task)
    case Succeed(k) => k < |s.attempts| && s.attempts[k].verdict.None? && s.attempts[k].written
    case Fail(k, error) => k < |s.attempts| && s.attempts[k].verdict.None? && error != ""
    case Report(k) => k < |s.attempts| && s.attempts[k].verdict.Some?
  }

  ghost function Do(env: Env, s: System, step: Step): System
    requires Enabled(env, s, step)
  {
    match step
    case Submit(id, payload) =>
      s.(broker := OnSubmit(s.broker, id, payload), submitted := s.submitted[id := payload])
    case Poll(worker, now) =>
      var (broker, task) := OnPoll(s.broker, worker, now);
      s.(broker := broker,
         attempts := if task.Some? then s.attempts + [Attempt(task.value, false, false, None)] else s.attempts)
    case Heartbeat(id, now) => s.(broker := OnHeartbeat(s.broker, id, now))
    case Stall(order, now) => s.(broker := ReEnqueue(s.broker, order))
    case Send(k) => s.(attempts := s.attempts[k := s.attempts[k].(sent := true)])
    case Write(k) =>
      s.(attempts := s.attempts[k := s.attempts[k].(written := true)],
         index := Upserted(env, s.index, s.attempts[k].task),
         writes := s.writes + [s.attempts[k].task])
    case Succeed(k) => s.(attempts := s.attempts[k := s.attempts[k].(verdict := Some(""))])
    case Fail(k, error) => s.(attempts := s.attempts[k := s.attempts[k].(verdict := Some(error))])
    case Report(k) => s.(broker := OnComplete(s.broker, s.attempts[k].task.id, s.attempts[k].verdict.value))
  }

  ghost predicate Possible(env: Env, s: System, steps: seq<Step>)
    decreases |steps|
  {
    steps == [] ||
    (Enabled(env, s, steps[0]) && Possible(env, Do(env, s, steps[0]), steps[1..]))
  }

  ghost function After(env: Env, s: System, steps: seq<Step>): System
    requires Possible(env, s, steps)
    decreases |steps|
  {
    if steps == [] then s else After(env, Do(env, s, steps[0]), steps[1..])
  }

  /** One more step at the end of a run. */
  lemma {:induction false} Continue(env: Env, s: System, steps: seq<Step>, step: Step) returns (more: seq<Step>)
    requires Possible(env, s, steps) && Enabled(env, After(env, s, steps), step)
    ensures more == steps + [step]
    ensures Possible(env, s, more) && After(env, s, more) == Do(env, After(env, s, steps), step)
    decreases |steps|
  {
    more := steps + [step];
    if steps != [] {
      var rest := Continue(env, Do(env, s, steps[0]), steps[1..], step);
      assert more[1..] == rest;
    } else {
      assert more == [step] && more[1..] == [];
    }
  }

  /** The steps of one attempt. */
  predicate About(step: Step, k: nat) {
    step == Send(k) || step == Write(k) || step == Succeed(k) || (step.Fail? && step.k == k)
  }

  /** Whatever other workers, clients and the stall scan do in between, an attempt
      stands where its worker left it. */
  lemma {:induction false} OthersLeaveAttempt(env: Env, s: System, steps: seq<Step>, k: nat)
    requires Possible(env, s, steps) && k < |s.attempts|
    requires forall i :: 0 <= i < |steps| ==> !About(steps[i], k)
    ensures k < |After(env, s, steps).attempts| && After(env, s, steps).attempts[k] == s.attempts[k]
    decreases |steps|
  {
    if steps != [] {
      OthersLeaveAttempt(env, Do(env, s, steps[0]), steps[1..], k);
    }
  }

  // ---- conservation --------------------------------------------------------

  predicate Queued(b: Broker, id: string) {
    exists i :: 0 <= i < |b.pending| && b.pending[i].id == id
  }

  predicate DistinctIds(pending: seq<Task>) {
    forall i, j :: 0 <= i < j < |pending| ==> pending[i].id != pending[j].id
  }

  lemma PushFront(pending: seq<Task>, t: Task)
    requires DistinctIds(pending) && forall i :: 0 <= i < |pending| ==> pending[i].id != t.id
    ensures DistinctIds([t] + pending)
  {
  }

  /** Every submitted task, with its own payload, is in exactly one of the queue
      (once), the in-flight table and the set of finished tasks. */
  predicate Conserved(b: Broker, submitted: map<string, string>) {
    && DistinctIds(b.pending)
    && (forall i :: 0 <= i < |b.pending| ==>
          && b.pending[i].id in submitted && b.pending[i].payload == submitted[b.pending[i].id]
          && b.pending[i].id !in b.inflight && b.pending[i].id !in b.done)
    && (forall id :: id in b.inflight ==>
          id in submitted && b.inflight[id].task == Task(id, submitted[id]) && id !in b.done)
    && b.done <= submitted.Keys
    && b.errors.Keys == b.done
    && (forall id :: id in submitted ==> Queued(b, id) || id in b.inflight || id in b.done)
  }

  lemma SubmitConserves(b: Broker, submitted: map<string, string>, id: string, payload: string)
    requires Conserved(b, submitted) && id !in submitted
    ensures Conserved(OnSubmit(b, id, payload), submitted[id := payload])
  {
    var b' := OnSubmit(b, id, payload);
    assert b'.pending[|b.pending|].id == id;
    forall x | x in submitted && Queued(b, x)
      ensures Queued(b', x)
    {
      var i :| 0 <= i < |b.pending| && b.pending[i].id == x;
      assert b'.pending[i].id == x;
    }
  }

  lemma PollConserves(b: Broker, submitted: map<string, string>, worker: string, now: int)
    requires Conserved(b, submitted)
    ensures Conserved(OnPoll(b, worker, now).0, submitted)
  {
    if b.pending != [] {
      var b' := OnPoll(b, worker, now).0;
      forall x | x in submitted && Queued(b, x) && x != b.pending[0].id
        ensures Queued(b', x)
      {
        var i :| 0 <= i < |b.pending| && b.pending[i].id == x;
        assert b'.pending[i - 1].id == x;
      }
    }
  }

  lemma CompleteConserves(b: Broker, submitted: map<string, string>, id: string, error: string)
    requires Conserved(b, submitted)
    ensures Conserved(OnComplete(b, id, error), submitted)
  {
    var b' := OnComplete(b, id, error);
    assert forall x :: Queued(b, x) ==> Queued(b', x) by { assert b'.pending == b.pending; }
  }

  lemma HeartbeatConserves(b: Broker, submitted: map<string, string>, id: string, now: int)
    requires Conserved(b, submitted)
    ensures Conserved(OnHeartbeat(b, id, now), submitted)
  {
    var b' := OnHeartbeat(b, id, now);
    assert forall x :: Queued(b, x) ==> Queued(b', x) by { assert b'.pending == b.pending; }
  }

  lemma MoveConserves(b: Broker, submitted: map<string, string>, id: string, b': Broker)
    requires Conserved(b, submitted) && id in b.inflight
    requires b' == b.(pending := [b.inflight[id].task] + b.pending, inflight := b.inflight - {id})
    ensures Conserved(b', submitted)
  {
    PushFront(b.pending, b.inflight[id].task);
    hide DistinctIds;
    assert b'.pending[0].id == id;
    forall x | Queued(b, x)
      ensures Queued(b', x)
    {
      var i :| 0 <= i < |b.pending| && b.pending[i].id == x;
      assert b'.pending[i + 1] == b.pending[i];
    }
  }

  /** A stall scan, whatever the order it visits the tasks in, loses and
      duplicates none, and leaves what is finished alone. */
  lemma {:induction false} ReEnqueueConserves(b: Broker, submitted: map<string, string>, order: seq<string>)
    requires Conserved(b, submitted)
    ensures Conserved(ReEnqueue(b, order), submitted)
    ensures ReEnqueue(b, order).done == b.done && ReEnqueue(b, order).errors == b.errors
    decreases |order|
  {
    if order != [] {
      var rest, id := order[..|order| - 1], order[|order| - 1];
      ReEnqueueConserves(b, submitted, rest);
      var b1 := ReEnqueue(b, rest);
      if id in b1.inflight {
        MoveConserves(b1, submitted, id, ReEnqueue(b, order));
      }
    }
  }

  // ---- the index -----------------------------------------------------------

  ghost predicate AllDecodable(env: Env, tasks: seq<Task>) {
    forall t :: t in tasks ==> Decodable(env, t)
  }

  /** The index that executing these tasks one after another leaves. */
  ghost function Replay(env: Env, tasks: seq<Task>): map<nat, Point>
    requires AllDecodable(env, tasks)
  {
    if tasks == [] then map[]
    else Upserted(env, Replay(env, tasks[..|tasks| - 1]), tasks[|tasks| - 1])
  }

  /** No two of these tasks write different points under one point id. */
  ghost predicate ClashFree(env: Env, tasks: set<Task>)
    requires forall t :: t in tasks ==> Decodable(env, t)
  {
    forall t, u :: t in tasks && u in tasks && KeyOf(env, t) == KeyOf(env, u) ==> ValueOf(env, t) == ValueOf(env, u)
  }

  function Elements(tasks: seq<Task>): set<Task> {
    set t | t in tasks
  }

  /** Replaying writes exactly the tasks' keys, each with the point of some task. */
  lemma {:induction false} ReplayHolds(env: Env, tasks: seq<Task>, key: nat)
    requires AllDecodable(env, tasks)
    ensures key in Replay(env, tasks) <==> exists t :: t in tasks && KeyOf(env, t) == key
    ensures key in Replay(env, tasks) ==>
              exists t :: t in tasks && KeyOf(env, t) == key && ValueOf(env, t) == Replay(env, tasks)[key]
    decreases |tasks|
  {
    if tasks != [] {
      var rest, last := tasks[..|tasks| - 1], tasks[|tasks| - 1];
      assert tasks == rest + [last];
      ReplayHolds(env, rest, key);
      if KeyOf(env, last) == key {
        assert last in tasks;
      } else if key in Replay(env, rest) {
        var t :| t in rest && KeyOf(env, t) == key && ValueOf(env, t) == Replay(env, rest)[key];
        assert t in tasks;
      }
    }
  }

  /** Without clashes every executed task's point is in the index. */
  lemma ReplayFinds(env: Env, tasks: seq<Task>, t: Task)
    requires AllDecodable(env, tasks) && ClashFree(env, Elements(tasks)) && t in tasks
    ensures KeyOf(env, t) in Replay(env, tasks) && Replay(env, tasks)[KeyOf(env, t)] == ValueOf(env, t)
  {
    ReplayHolds(env, tasks, KeyOf(env, t));
    var u :| u in tasks && KeyOf(env, u) == KeyOf(env, t) && ValueOf(env, u) == Replay(env, tasks)[KeyOf(env, t)];
    assert t in Elements(tasks) && u in Elements(tasks);
  }

  /** Two executions of the same clash-free tasks, in any order and any number of
      times each, leave one index. */
  lemma SameTasksSameIndex(env: Env, a: seq<Task>, b: seq<Task>)
    requires AllDecodable(env, a) && AllDecodable(env, b)
    requires Elements(a) == Elements(b) && ClashFree(env, Elements(a))
    ensures Replay(env, a) == Replay(env, b)
  {
    assert forall t :: t in a <==> t in b by {
      assert forall t :: t in a <==> t in Elements(a);
      assert forall t :: t in b <==> t in Elements(b);
    }
    forall key: nat
      ensures key in Replay(env, a) <==> key in Replay(env, b)
      ensures key in Replay(env, a) ==> Replay(env, a)[key] == Replay(env, b)[key]
    {
      ReplayHolds(env, a, key);
      ReplayHolds(env, b, key);
      if key in Replay(env, a) {
        var t :| t in a && KeyOf(env, t) == key && ValueOf(env, t) == Replay(env, a)[key];
        ReplayFinds(env, b, t);
      }
    }
  }

  predicate OnceEach(order: seq<Task>, tasks: set<Task>) {
    Distinct(order) && Elements(order) == tasks
  }

  /** Every finite set can be listed with a chosen member last. */
  lemma {:induction false} ListEndingIn(tasks: set<Task>, t: Task) returns (order: seq<Task>)
    requires t in tasks
    ensures OnceEach(order, tasks) && order != [] && order[|order| - 1] == t
    decreases |tasks|
  {
    var rest := tasks - {t};
    if rest == {} {
      order := [t];
      assert tasks == {t};
    } else {
      var u :| u in rest;
      var before := ListEndingIn(rest, u);
      order := before + [t];
      forall i, j | 0 <= i < j < |order|
        ensures order[i] != order[j]
      {
        assert before[i] in Elements(before);
      }
      assert Elements(order) == Elements(before) + {t};
    }
  }

  /** Re-execution in any order is harmless exactly when the tasks do not clash:
      otherwise two of them race for one point id. */
  lemma OrderFreeIffClashFree(env: Env, tasks: set<Task>)
    requires forall t :: t in tasks ==> Decodable(env, t)
    ensures (forall a, b :: OnceEach(a, tasks) && OnceEach(b, tasks) ==>
               AllDecodable(env, a) && AllDecodable(env, b) && Replay(env, a) == Replay(env, b))
       <==> ClashFree(env, tasks)
  {
    forall a | OnceEach(a, tasks)
      ensures AllDecodable(env, a)
    {
      assert forall t :: t in a ==> t in Elements(a);
    }
    if ClashFree(env, tasks) {
      forall a, b | OnceEach(a, tasks) && OnceEach(b, tasks)
        ensures AllDecodable(env, a) && AllDecodable(env, b) && Replay(env, a) == Replay(env, b)
      {
        SameTasksSameIndex(env, a, b);
      }
    } else {
      var t, u :| t in tasks && u in tasks && KeyOf(env, t) == KeyOf(env, u) && ValueOf(env, t) != ValueOf(env, u);
      var a := ListEndingIn(tasks, t);
      var b := ListEndingIn(tasks, u);
      assert Replay(env, a)[KeyOf(env, t)] == ValueOf(env, t);
      assert Replay(env, b)[KeyOf(env, t)] == ValueOf(env, u);
    }
  }

  function Without(tasks: seq<Task>, t: Task): (rest: seq<Task>)
    ensures forall u :: u in rest <==> u in tasks && u != t
  {
    if tasks == [] then []
    else
      var (before, last) := (tasks[..|tasks| - 1], tasks[|tasks| - 1]);
      assert tasks == before + [last];
      if last == t then Without(before, t) else Without(before, t) + [last]
  }

  lemma {:induction false} WithoutIsDistinct(tasks: seq<Task>, t: Task)
    requires Distinct(tasks)
    ensures Distinct(Without(tasks, t))
    decreases |tasks|
  {
    if tasks != [] {
      var before, last := tasks[..|tasks| - 1], tasks[|tasks| - 1];
      WithoutIsDistinct(before, t);
      assert forall i :: 0 <= i < |before| ==> before[i] == tasks[i] != last;
      assert last !in Without(before, t);
    }
  }

  /** An execution does not show if the same task is executed again later. */
  lemma {:induction false} EarlierDoesNotShow(env: Env, tasks: seq<Task>, t: Task)
    requires AllDecodable(env, tasks) && Decodable(env, t)
    ensures AllDecodable(env, Without(tasks, t))
    ensures Upserted(env, Replay(env, Without(tasks, t)), t) == Upserted(env, Replay(env, tasks), t)
    decreases |tasks|
  {
    if tasks != [] {
      var before, last := tasks[..|tasks| - 1], tasks[|tasks| - 1];
      assert tasks == before + [last];
      EarlierDoesNotShow(env, before, t);
      if last != t {
        var kept := Without(before, t);
        assert Without(tasks, t)[..|kept|] == kept;
        UpsertTwice(env, Replay(env, kept), Replay(env, before), last, t);
      }
    }
  }

  lemma UpsertTwice(env: Env, a: map<nat, Point>, b: map<nat, Point>, u: Task, t: Task)
    requires Decodable(env, u) && Decodable(env, t) && Upserted(env, a, t) == Upserted(env, b, t)
    ensures Upserted(env, Upserted(env, a, u), t) == Upserted(env, Upserted(env, b, u), t)
  {
    var a', b' := Upserted(env, Upserted(env, a, u), t), Upserted(env, Upserted(env, b, u), t);
    forall key: nat
      ensures key in a' <==> key in b'
      ensures key in a' ==> a'[key] == b'[key]
    {
      assert key in Upserted(env, a, t) <==> key in Upserted(env, b, t);
      assert key in Upserted(env, a, t) ==> Upserted(env, a, t)[key] == Upserted(env, b, t)[key];
    }
  }

  lemma MovedLast(before: seq<Task>, earlier: seq<Task>, last: Task)
    requires OnceEach(earlier, Elements(before))
    ensures OnceEach(Without(earlier, last) + [last], Elements(before + [last]))
  {
    WithoutIsDistinct(earlier, last);
    var kept, order := Without(earlier, last), Without(earlier, last) + [last];
    forall i, j | 0 <= i < j < |order|
      ensures order[i] != order[j]
    {
      assert i < |kept| && order[i] in kept;
    }
    forall t
      ensures t in Elements(order) <==> t in Elements(before + [last])
    {
      assert t in earlier <==> t in Elements(earlier);
      assert t in before <==> t in Elements(before);
    }
  }

  /** Executing tasks, however often each, comes to executing each of them once, in
      the order of the last executions. */
  lemma {:induction false} LastExecutionsCount(env: Env, tasks: seq<Task>) returns (order: seq<Task>)
    requires AllDecodable(env, tasks)
    ensures OnceEach(order, Elements(tasks)) && AllDecodable(env, order)
    ensures Replay(env, order) == Replay(env, tasks)
    decreases |tasks|
  {
    hide OnceEach, Upserted;
    if tasks == [] {
      order := [];
      NoneOnce();
    } else {
      var before, last := tasks[..|tasks| - 1], tasks[|tasks| - 1];
      assert tasks == before + [last];
      var earlier := LastExecutionsCount(env, before);
      EarlierDoesNotShow(env, earlier, last);
      var kept := Without(earlier, last);
      order := kept + [last];
      assert order[..|kept|] == kept;
      MovedLast(before, earlier, last);
    }
  }

  lemma NoneOnce()
    ensures OnceEach([], Elements([]))
  {
  }

  // ---- every run -----------------------------------------------------------

  /** What a worker reports is what one of its attempts came to, and an attempt
      succeeds only after its point was written. */
  ghost predicate AttemptOk(env: Env, s: System, a: Attempt) {
    && a.task.id in s.submitted && a.task == Task(a.task.id, s.submitted[a.task.id])
    && (a.sent ==> Decodable(env, a.task))
    && (a.written ==> a.sent && a.task in s.writes)
    && (a.verdict == Some("") ==> a.written)
  }

  ghost predicate Concluded(s: System, id: string, error: string) {
    exists k :: 0 <= k < |s.attempts| && s.attempts[k].task.id == id && s.attempts[k].verdict == Some(error)
  }

  ghost predicate SystemInv(env: Env, s: System) {
    && Conserved(s.broker, s.submitted)
    && (forall k :: 0 <= k < |s.attempts| ==> AttemptOk(env, s, s.attempts[k]))
    && AllDecodable(env, s.writes)
    && (forall t :: t in s.writes ==> t.id in s.submitted && t.payload == s.submitted[t.id])
    && s.index == Replay(env, s.writes)
    && (forall id :: id in s.broker.done ==> Concluded(s, id, s.broker.errors[id]))
  }

  lemma AttemptsKeep(env: Env, s: System, s': System)
    requires forall id :: id in s.submitted ==> id in s'.submitted && s'.submitted[id] == s.submitted[id]
    requires forall t :: t in s.writes ==> t in s'.writes
    requires forall k :: 0 <= k < |s.attempts| ==> AttemptOk(env, s, s.attempts[k])
    ensures forall k :: 0 <= k < |s.attempts| ==> AttemptOk(env, s', s.attempts[k])
  {
    forall k | 0 <= k < |s.attempts|
      ensures AttemptOk(env, s', s.attempts[k])
    {
      assert AttemptOk(env, s, s.attempts[k]);
    }
  }

  /** A verdict, once reached, stands. */
  lemma VerdictsStand(env: Env, s: System, step: Step, id: string, error: string)
    requires Enabled(env, s, step) && Concluded(s, id, error)
    ensures Concluded(Do(env, s, step), id, error)
  {
    var k :| 0 <= k < |s.attempts| && s.attempts[k].task.id == id && s.attempts[k].verdict == Some(error);
    assert Do(env, s, step).attempts[k].verdict == s.attempts[k].verdict;
    assert Do(env, s, step).attempts[k].task == s.attempts[k].task;
  }

  lemma BrokerStepOk(env: Env, s: System, step: Step, s': System)
    requires SystemInv(env, s) && Enabled(env, s, step) && s' == Do(env, s, step)
    ensures Conserved(s'.broker, s'.submitted)
    ensures forall id :: id in s.broker.done ==> id in s'.broker.done && s'.broker.errors[id] == s.broker.errors[id]
    ensures forall id :: id in s'.broker.done && id !in s.broker.done ==>
              step.Report? && id == s.attempts[step.k].task.id && s'.broker.errors[id] == s.attempts[step.k].verdict.value
  {
    match step
    case Submit(id, payload) => SubmitConserves(s.broker, s.submitted, id, payload);
    case Poll(worker, now) => PollConserves(s.broker, s.submitted, worker, now);
    case Heartbeat(id, now) => HeartbeatConserves(s.broker, s.submitted, id, now);
    case Stall(order, now) => ReEnqueueConserves(s.broker, s.submitted, order);
    case Report(k) =>
      CompleteConserves(s.broker, s.submitted, s.attempts[k].task.id, s.attempts[k].verdict.value);
    case _ =>
  }

  lemma WritesStepOk(env: Env, s: System, step: Step, s': System)
    requires SystemInv(env, s) && Enabled(env, s, step) && s' == Do(env, s, step)
    ensures AllDecodable(env, s'.writes) && s'.index == Replay(env, s'.writes)
    ensures forall t :: t in s'.writes ==> t.id in s'.submitted && t.payload == s'.submitted[t.id]
  {
    hide Conserved, Concluded;
    if step.Write? {
      assert s'.writes[..|s.writes|] == s.writes;
      assert AttemptOk(env, s, s.attempts[step.k]);
    }
  }

  lemma AttemptStepOk(env: Env, s: System, step: Step, s': System)
    requires SystemInv(env, s) && Enabled(env, s, step) && s' == Do(env, s, step)
    ensures forall k :: 0 <= k < |s'.attempts| ==> AttemptOk(env, s', s'.attempts[k])
  {
    hide Concluded, Replay, Upserted;
    AttemptsKeep(env, s, s');
    if step.Write? {
      assert s.attempts[step.k].task in s'.writes;
    }
  }

  lemma SystemStepOk(env: Env, s: System, step: Step)
    requires SystemInv(env, s) && Enabled(env, s, step)
    ensures SystemInv(env, Do(env, s, step))
  {
    var s' := Do(env, s, step);
    BrokerStepOk(env, s, step, s');
    AttemptStepOk(env, s, step, s');
    WritesStepOk(env, s, step, s');
    forall id | id in s'.broker.done
      ensures Concluded(s', id, s'.broker.errors[id])
    {
      if id in s.broker.done {
        VerdictsStand(env, s, step, id, s.broker.errors[id]);
      } else {
        assert s'.attempts[step.k].verdict == Some(s'.broker.errors[id]);
      }
    }
  }

  /** In every run, through stalls, late and repeated reports: every task is in one
      place, the index is the replay of the writes, and a finished task's error is
      the verdict of one of its attempts. */
  lemma {:induction false} SystemRunOk(env: Env, s: System, steps: seq<Step>)
    requires SystemInv(env, s) && Possible(env, s, steps)
    ensures SystemInv(env, After(env, s, steps))
    decreases |steps|
  {
    if steps != [] {
      SystemStepOk(env, s, steps[0]);
      SystemRunOk(env, Do(env, s, steps[0]), steps[1..]);
    }
  }

  lemma EveryRunOk(env: Env, steps: seq<Step>)
    requires Possible(env, Start(), steps)
    ensures SystemInv(env, After(env, Start(), steps))
  {
    SystemRunOk(env, Start(), steps);
  }

  ghost predicate Final(s: System, s': System, id: string, error: string) {
    && id in s'.broker.done && id in s'.broker.errors && s'.broker.errors[id] == error
    && !Queued(s'.broker, id) && id !in s'.broker.inflight
    && |s.attempts| <= |s'.attempts|
    && (forall k :: |s.attempts| <= k < |s'.attempts| ==> s'.attempts[k].task.id != id)
  }

  /** Done is done: the first effective completion fixes the result for the rest of
      the run, whatever stale workers report later, and the task is never handed to
      a worker again. */
  lemma {:induction false} DoneIsFinal(env: Env, s: System, steps: seq<Step>, id: string)
    requires SystemInv(env, s) && Possible(env, s, steps) && id in s.broker.done
    ensures Final(s, After(env, s, steps), id, s.broker.errors[id])
    ensures ResultOf(After(env, s, steps).broker, id) == ResultOf(s.broker, id)
    decreases |steps|
  {
    if steps != [] {
      var s1 := Do(env, s, steps[0]);
      SystemStepOk(env, s, steps[0]);
      BrokerStepOk(env, s, steps[0], s1);
      DoneIsFinal(env, s1, steps[1..], id);
      var s' := After(env, s, steps);
      assert After(env, s1, steps[1..]) == s';
      assert |s1.attempts| > |s.attempts| ==> steps[0].Poll? && s1.attempts[|s.attempts|].task == s.broker.pending[0];
      StartedAttemptsStay(env, s1, steps[1..]);
    }
  }

  lemma {:induction false} StartedAttemptsStay(env: Env, s: System, steps: seq<Step>)
    requires Possible(env, s, steps)
    ensures |s.attempts| <= |After(env, s, steps).attempts|
    ensures forall k :: 0 <= k < |s.attempts| ==> After(env, s, steps).attempts[k].task == s.attempts[k].task
    decreases |steps|
  {
    if steps != [] {
      StartedAttemptsStay(env, Do(env, s, steps[0]), steps[1..]);
    }
  }

  /** A client that is told "done, no error" finds the task's own point in the
      index, as long as the written tasks do not clash. */
  lemma SuccessIsIndexed(env: Env, steps: seq<Step>, id: string, s: System)
    requires Possible(env, Start(), steps) && s == After(env, Start(), steps)
    requires ResultOf(s.broker, id) == Finished("")
    ensures id in s.submitted && Task(id, s.submitted[id]) in s.writes && AllDecodable(env, s.writes)
    ensures ClashFree(env, Elements(s.writes)) ==>
              && env.decode(s.submitted[id]).Some?
              && var c := env.decode(s.submitted[id]).value;
                 && env.pointID(c.chunkID) in s.index
                 && s.index[env.pointID(c.chunkID)] == Point(env.embed(c.chunkID, c.text), c.docID, c.title, c.text)
  {
    EveryRunOk(env, steps);
    assert Concluded(s, id, "");
    var k :| 0 <= k < |s.attempts| && s.attempts[k].task.id == id && s.attempts[k].verdict == Some("");
    assert AttemptOk(env, s, s.attempts[k]);
    if ClashFree(env, Elements(s.writes)) {
      ReplayFinds(env, s.writes, s.attempts[k].task);
    }
  }
}
