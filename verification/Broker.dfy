/** The embedding pipeline's task broker (hw4/broker/main.go), as a value and as
    the object whose handlers run under its mutex. */
module Broker {
  import opened Options

  datatype Task = Task(id: string, payload: string)

  datatype InFlight = InFlight(task: Task, workerID: string, lastHeartbeat: int)

  /** done is the set of finished task ids; errors holds their error strings. */
  datatype Broker = Broker(
    pending: seq<Task>,
    inflight: map<string, InFlight>,
    errors: map<string, string>,
    done: set<string>)

  datatype TaskResult = NotDone | Finished(error: string)

  const TASK_TIMEOUT := 10

  function NewBroker(): Broker {
    Broker([], map[], map[], {})
  }

  function OnSubmit(b: Broker, id: string, payload: string): Broker {
    b.(pending := b.pending + [Task(id, payload)])
  }

  function OnPoll(b: Broker, worker: string, now: int): (Broker, Option<Task>) {
    if b.pending == [] then (b, None)
    else
      var task := b.pending[0];
      (b.(pending := b.pending[1..], inflight := b.inflight[task.id := InFlight(task, worker, now)]), Some(task))
  }

  function OnComplete(b: Broker, id: string, error: string): Broker {
    if id !in b.inflight then b
    else b.(inflight := b.inflight - {id}, done := b.done + {id}, errors := b.errors[id := error])
  }

  function OnHeartbeat(b: Broker, id: string, now: int): Broker {
    if id in b.inflight then b.(inflight := b.inflight[id := b.inflight[id].(lastHeartbeat := now)]) else b
  }

  function ResultOf(b: Broker, id: string): TaskResult {
    if id in b.done && id in b.errors then Finished(b.errors[id])
    else if id in b.done then Finished("")
    else NotDone
  }

  predicate Stalled(b: Broker, id: string, now: int) {
    id in b.inflight && now - b.inflight[id].lastHeartbeat > TASK_TIMEOUT
  }

  /** Tasks go back to the front of the queue one by one, in the given order. */
  function ReEnqueue(b: Broker, order: seq<string>): Broker {
    if order == [] then b
    else
      var b1 := ReEnqueue(b, order[..|order| - 1]);
      var id := order[|order| - 1];
      if id in b1.inflight
      then b1.(pending := [b1.inflight[id].task] + b1.pending, inflight := b1.inflight - {id})
      else b1
  }

  predicate Distinct<T(==)>(s: seq<T>) {
    forall i, j :: 0 <= i < j < |s| ==> s[i] != s[j]
  }

  /** Moving one more task is one more turn of the stall scan. */
  lemma ReEnqueueOneMore(b: Broker, order: seq<string>, id: string, b1: Broker)
    requires b1 == ReEnqueue(b, order)
    ensures id !in b1.inflight ==> ReEnqueue(b, order + [id]) == b1
    ensures id in b1.inflight ==>
              ReEnqueue(b, order + [id])
              == b1.(pending := [b1.inflight[id].task] + b1.pending, inflight := b1.inflight - {id})
  {
    assert (order + [id])[..|order|] == order;
  }

  /** The tasks of order, last first. */
  function TasksBackwards(b: Broker, order: seq<string>): seq<Task>
    requires forall id :: id in order ==> id in b.inflight
  {
    if order == [] then [] else [b.inflight[order[|order| - 1]].task] + TasksBackwards(b, order[..|order| - 1])
  }

  lemma LastIsNew(order: seq<string>, rest: seq<string>, last: string)
    requires Distinct(order) && order == rest + [last]
    ensures Distinct(rest) && last !in rest
    ensures (set id | id in order) == (set id | id in rest) + {last}
  {
    assert forall i :: 0 <= i < |rest| ==> rest[i] == order[i] != order[|rest|];
  }

  /** The stall scan moves exactly the given tasks, ahead of a queue whose own order
      it keeps. */
  lemma {:induction false} ReEnqueueMoves(b: Broker, order: seq<string>)
    requires Distinct(order) && forall id :: id in order ==> id in b.inflight
    ensures ReEnqueue(b, order).pending == TasksBackwards(b, order) + b.pending
    ensures ReEnqueue(b, order).inflight == b.inflight - (set id | id in order)
    ensures ReEnqueue(b, order).done == b.done && ReEnqueue(b, order).errors == b.errors
    decreases |order|
  {
    if order != [] {
      var rest, id := order[..|order| - 1], order[|order| - 1];
      LastIsNew(order, rest, id);
      hide Distinct;
      ReEnqueueMoves(b, rest);
      var b1 := ReEnqueue(b, rest);
      assert id in b1.inflight && b1.inflight[id] == b.inflight[id];
      assert ReEnqueue(b, order).inflight == b1.inflight - {id};
    }
  }

  // ---- what each handler comes to, field by field --------------------------------

  lemma SubmittedIsLast(b: Broker, id: string, payload: string, b1: Broker)
    requires b1 == OnSubmit(b, id, payload)
    ensures |b1.pending| == |b.pending| + 1 && b.pending <= b1.pending && b1.pending[|b.pending|] == Task(id, payload)
    ensures b1.inflight == b.inflight && b1.done == b.done && b1.errors == b.errors
  {
  }

  /** A poll is refused exactly on an empty queue; otherwise the first task, and it
      alone, goes in flight under the worker's name with its clock set to now. */
  lemma PolledIsFirst(b: Broker, worker: string, now: int, b1: Broker, task: Option<Task>)
    requires (b1, task) == OnPoll(b, worker, now)
    ensures task.None? <==> |b.pending| == 0
    ensures task.None? ==> b1 == b
    ensures task.Some? ==>
              && [task.value] + b1.pending == b.pending
              && task.value.id in b1.inflight
              && b1.inflight[task.value.id] == InFlight(task.value, worker, now)
              && b1.inflight - {task.value.id} == b.inflight - {task.value.id}
    ensures b1.done == b.done && b1.errors == b.errors
  {
  }

  /** A heartbeat sets the clock of an in-flight task and touches nothing else. */
  lemma HeartbeatSetsClock(b: Broker, id: string, now: int, b1: Broker)
    requires b1 == OnHeartbeat(b, id, now)
    ensures id !in b.inflight ==> b1 == b
    ensures b1.inflight.Keys == b.inflight.Keys
    ensures id in b.inflight ==>
              && b1.inflight[id].lastHeartbeat == now
              && b1.inflight[id].task == b.inflight[id].task && b1.inflight[id].workerID == b.inflight[id].workerID
              && b1.inflight - {id} == b.inflight - {id}
    ensures b1.pending == b.pending && b1.done == b.done && b1.errors == b.errors
  {
  }

  predicate HeardFrom(b: Broker, id: string, at: int) {
    id in b.inflight && b.inflight[id].lastHeartbeat == at
  }

  /** A task polled or heard from at a time is stalled from the moment on that more than
      the timeout has passed, and not before; until then a scan leaves it in flight,
      with the same worker, whatever else it moves. */
  lemma HeardFromStaysUntilTimeout(b: Broker, id: string, at: int, now: int, order: seq<string>)
    requires HeardFrom(b, id, at)
    requires Distinct(order) && forall x :: x in order <==> Stalled(b, x, now)
    ensures Stalled(b, id, now) <==> now > at + TASK_TIMEOUT
    ensures now <= at + TASK_TIMEOUT ==>
              id in ReEnqueue(b, order).inflight && ReEnqueue(b, order).inflight[id] == b.inflight[id]
    ensures now > at + TASK_TIMEOUT ==>
              id !in ReEnqueue(b, order).inflight && b.inflight[id].task in ReEnqueue(b, order).pending
  {
    ReEnqueueMoves(b, order);
    if id in order {
      MovedIsListed(b, order, id);
    }
  }

  lemma {:induction false} MovedIsListed(b: Broker, order: seq<string>, id: string)
    requires (forall x :: x in order ==> x in b.inflight) && id in order
    ensures b.inflight[id].task in TasksBackwards(b, order)
    decreases |order|
  {
    if order[|order| - 1] != id {
      MovedIsListed(b, order[..|order| - 1], id);
    }
  }

  /** A task polled at a time, and one heard from, are HeardFrom then. */
  lemma PollAndHeartbeatAreHeard(b: Broker, worker: string, id: string, at: int)
    ensures OnPoll(b, worker, at).1.Some? ==>
              HeardFrom(OnPoll(b, worker, at).0, OnPoll(b, worker, at).1.value.id, at)
    ensures id in b.inflight ==> HeardFrom(OnHeartbeat(b, id, at), id, at)
  {
  }

  /** The answer about a task is "not done" exactly until it is done, and then its
      recorded error. */
  lemma ResultIsRecord(b: Broker, id: string)
    requires b.errors.Keys == b.done
    ensures ResultOf(b, id) == NotDone <==> id !in b.done
    ensures forall error :: ResultOf(b, id) == Finished(error) <==> id in b.done && b.errors[id] == error
  {
  }

  /** A report is effective exactly on a task in flight, and is then what the broker
      answers; it says nothing of any other task. */
  lemma ReportIsAnswered(b: Broker, id: string, error: string, b1: Broker)
    requires b1 == OnComplete(b, id, error)
    ensures id !in b.inflight ==> b1 == b
    ensures id in b.inflight ==> ResultOf(b1, id) == Finished(error) && id !in b1.inflight && id in b1.done
    ensures forall x :: x != id ==> ResultOf(b1, x) == ResultOf(b, x)
    ensures b1.pending == b.pending && b1.inflight - {id} == b.inflight - {id} && b1.done - {id} == b.done - {id}
  {
  }

  class BrokerServer {
    var pending: seq<Task>
    var inflight: map<string, InFlight>
    var errors: map<string, string>
    var done: set<string>

    ghost function View(): Broker
      reads this
    {
      Broker(pending, inflight, errors, done)
    }

    constructor ()
      ensures View() == NewBroker()
    {
      pending, inflight, errors, done := [], map[], map[], {};
    }

    method Submit(id: string, payload: string)
      modifies this`pending
      ensures View() == OnSubmit(old(View()), id, payload)
    {
      var task := Task(id, payload);
      pending := pending + [task];
    }

    method Poll(workerID: string, now: int) returns (task: Option<Task>)
      modifies this`pending, this`inflight
      ensures (View(), task) == OnPoll(old(View()), workerID, now)
    {
      if |pending| == 0 {
        return None;
      }
      var first := pending[0];
      pending := pending[1..];
      inflight := inflight[first.id := InFlight(first, workerID, now)];
      return Some(first);
    }

    method Complete(id: string, error: string)
      modifies this`inflight, this`done, this`errors
      ensures View() == OnComplete(old(View()), id, error)
    {
      if id !in inflight {
        return;
      }
      inflight := inflight - {id};
      done := done + {id};
      errors := errors[id := error];
    }

    /** A missing error string reads as the empty one. */
    method GetResult(id: string) returns (result: TaskResult)
      ensures result == ResultOf(View(), id)
      ensures result == NotDone <==> id !in done
      ensures id in done ==> result == Finished(if id in errors then errors[id] else "")
    {
      if id !in done {
        return NotDone;
      }
      return Finished(if id in errors then errors[id] else "");
    }

    method Heartbeat(id: string, now: int)
      modifies this`inflight
      ensures View() == OnHeartbeat(old(View()), id, now)
    {
      if id in inflight {
        inflight := inflight[id := inflight[id].(lastHeartbeat := now)];
      }
    }

    /** One tick of the stall scan. The map is walked in some order; the tasks that
        were silent for too long, each once, are what moves. */
    method ReEnqueueStalled(now: int) returns (ghost order: seq<string>)
      modifies this`pending, this`inflight
      ensures View() == ReEnqueue(old(View()), order)
      ensures Distinct(order) && forall id :: id in order <==> Stalled(old(View()), id, now)
      ensures forall id :: id in inflight ==> !Stalled(View(), id, now)
    {
      order := [];
      var ids := inflight.Keys;
      while ids != {}
        invariant ids <= inflight.Keys <= old(inflight).Keys && done == old(done) && errors == old(errors)
        invariant View() == ReEnqueue(old(View()), order)
        invariant forall id :: id in inflight ==> inflight[id] == old(inflight)[id]
        invariant Distinct(order) && forall id :: id in order ==> id !in inflight
        invariant forall id :: id in order ==> Stalled(old(View()), id, now)
        invariant forall id :: id in old(inflight) && id !in ids && id !in order ==>
                    id in inflight && !Stalled(old(View()), id, now)
      {
        var id :| id in ids;
        ids := ids - {id};
        var e := inflight[id];
        if now - e.lastHeartbeat > TASK_TIMEOUT {
          ReEnqueueOneMore(old(View()), order, id, View());
          pending := [e.task] + pending;
          inflight := inflight - {id};
          order := order + [id];
        }
      }
    }
  }
}
