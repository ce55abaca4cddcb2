/** The worker's endless loop (hw4/worker/main.go), one turn at a time, over a broker
    object and an index object. */
module Worker {
  import opened Options
  import Broker
  import opened Pipeline

  /** What becomes of a poll: it is answered, fails before it reaches the broker, or
      reaches it and its answer is lost. */
  datatype PollLuck = Answered | NotSent | AnswerLost

  /** What the outside world does to one turn: the poll's fate, the text of each
      possible error, an upsert that fails though its point was written, a report lost
      on the way. */
  datatype Luck = Luck(
    poll: PollLuck,
    decodeError: string,
    embedError: Option<string>,
    upsertError: Option<string>,
    writtenAnyway: bool,
    reportArrives: bool)

  predicate PlausibleLuck(luck: Luck) {
    luck.decodeError != "" && luck.embedError != Some("") && luck.upsertError != Some("")
  }

  /** Nothing on the way of a task fails. */
  predicate GoesWell(env: Env, payload: string, luck: Luck) {
    env.decode(payload).Some? && luck.embedError.None? && luck.upsertError.None?
  }

  /** The error is that of the first thing that fails, and empty if nothing does. */
  predicate IsVerdict(env: Env, payload: string, luck: Luck, error: string) {
    && (GoesWell(env, payload, luck) <==> error == "")
    && (env.decode(payload).None? ==> error == luck.decodeError)
    && (env.decode(payload).Some? && luck.embedError.Some? ==> error == luck.embedError.value)
    && (env.decode(payload).Some? && luck.embedError.None? && luck.upsertError.Some? ==>
          error == luck.upsertError.value)
  }

  /** The point is written: the upsert is reached, and goes well or fails too late. */
  predicate GetsWritten(env: Env, payload: string, luck: Luck) {
    && env.decode(payload).Some? && luck.embedError.None?
    && (luck.upsertError.None? || luck.writtenAnyway)
  }

  class PointStore {
    var points: map<nat, Point>

    constructor ()
      ensures points == map[]
    {
      points := map[];
    }

    method Upsert(env: Env, c: Chunk)
      modifies this
      ensures points == old(points)[env.pointID(c.chunkID) := PointOf(env, c)]
    {
      points := points[env.pointID(c.chunkID) := PointOf(env, c)];
    }
  }

  class Worker {
    const workerID: string
    const env: Env
    const broker: Broker.BrokerServer
    const store: PointStore

    constructor (workerID: string, env: Env, broker: Broker.BrokerServer, store: PointStore)
      ensures this.workerID == workerID && this.env == env && this.broker == broker && this.store == store
    {
      this.workerID, this.env, this.broker, this.store := workerID, env, broker, store;
    }

    /** The report of attempt k to the broker, which may be lost. */
    method Conclude(id: string, error: string, luck: Luck, ghost s: System, ghost before: seq<Step>, ghost k: nat)
      returns (ghost steps: seq<Step>)
      requires Possible(env, s, before) && k < |After(env, s, before).attempts|
      requires After(env, s, before).attempts[k].task.id == id
      requires After(env, s, before).attempts[k].verdict == Some(error)
      requires After(env, s, before).broker == broker.View()
      modifies broker
      ensures broker.View() == if luck.reportArrives then Broker.OnComplete(old(broker.View()), id, error)
                               else old(broker.View())
      ensures Possible(env, s, steps)
      ensures After(env, s, steps) == After(env, s, before).(broker := broker.View())
    {
      steps := before;
      if luck.reportArrives {
        broker.Complete(id, error);
        steps := Continue(env, s, before, Report(k));
      }
    }

    /** Decode, embed and upsert one polled task, as attempt k of the system; the
        verdict is the error text to report, empty for success. */
    method Execute(task: Broker.Task, luck: Luck, ghost s: System, ghost before: seq<Step>, ghost k: nat)
      returns (verdict: string, ghost steps: seq<Step>)
      requires PlausibleLuck(luck)
      requires Possible(env, s, before) && k < |After(env, s, before).attempts|
      requires After(env, s, before).attempts[k] == Attempt(task, false, false, None)
      requires After(env, s, before).index == store.points
      modifies store
      ensures Possible(env, s, steps)
      ensures k < |After(env, s, steps).attempts| && After(env, s, steps).attempts[k].task == task
      ensures After(env, s, steps).attempts[k].verdict == Some(verdict)
      ensures After(env, s, steps).broker == After(env, s, before).broker
      ensures After(env, s, steps).index == store.points
      ensures IsVerdict(env, task.payload, luck, verdict)
      ensures After(env, s, steps).writes
           == After(env, s, before).writes + if GetsWritten(env, task.payload, luck) then [task] else []
    {
      hide After;
      hide Possible;
      var chunk := env.decode(task.payload);
      if chunk.None? {
        steps := Continue(env, s, before, Fail(k, luck.decodeError));
        return luck.decodeError, steps;
      }
      if luck.embedError.Some? {
        steps := Continue(env, s, before, Fail(k, luck.embedError.value));
        return luck.embedError.value, steps;
      }
      steps := Continue(env, s, before, Send(k));
      if luck.upsertError.None? || luck.writtenAnyway {
        store.Upsert(env, chunk.value);
        steps := Continue(env, s, steps, Write(k));
      }
      if luck.upsertError.Some? {
        steps := Continue(env, s, steps, Fail(k, luck.upsertError.value));
        return luck.upsertError.value, steps;
      }
      steps := Continue(env, s, steps, Succeed(k));
      return "", steps;
    }

    /** A failed poll is retried later; if only its answer was lost, the broker counts
        the task as in flight, with nobody at work on it, until it is found stalled. */
    method FailedPoll(now: int, luck: Luck, ghost s: System) returns (ghost steps: seq<Step>)
      requires luck.poll != Answered && s.broker == broker.View()
      modifies broker
      ensures steps == if luck.poll == AnswerLost then [Poll(workerID, now)] else []
      ensures Possible(env, s, steps) && After(env, s, steps).broker == broker.View()
      ensures After(env, s, steps).index == s.index && After(env, s, steps).writes == s.writes
    {
      steps := [];
      if luck.poll == AnswerLost {
        var _ := broker.Poll(workerID, now);
        steps := Continue(env, s, [], Poll(workerID, now));
      }
    }

    /** One turn of the poll loop is a run of the pipeline: s is any system state that
        the two objects are part of, and the steps taken lead from it to one that
        holds the objects' new contents. The worker stops exactly if something on the
        task's way fails, and what it reports is what the broker then answers. */
    method Turn(now: int, luck: Luck, ghost s: System) returns (stops: bool, ghost steps: seq<Step>)
      requires PlausibleLuck(luck)
      requires s.broker == broker.View() && s.index == store.points
      modifies broker, store
      ensures Possible(env, s, steps)
      ensures After(env, s, steps).broker == broker.View() && After(env, s, steps).index == store.points
      ensures luck.poll != Answered ==>
                !stops && steps == if luck.poll == AnswerLost then [Poll(workerID, now)] else []
      ensures luck.poll == Answered && s.broker.pending == [] ==> !stops && steps == [Poll(workerID, now)]
      ensures luck.poll == Answered && s.broker.pending != [] ==>
                var task := s.broker.pending[0];
                && (stops <==> !GoesWell(env, task.payload, luck))
                && After(env, s, steps).writes
                   == s.writes + (if GetsWritten(env, task.payload, luck) then [task] else [])
                && (luck.reportArrives ==>
                      && Broker.ResultOf(broker.View(), task.id).Finished?
                      && IsVerdict(env, task.payload, luck, Broker.ResultOf(broker.View(), task.id).error))
                && (!luck.reportArrives ==>
                      task.id in broker.View().inflight && broker.View().inflight[task.id].workerID == workerID)
    {
      if luck.poll != Answered {
        steps := FailedPoll(now, luck, s);
        return false, steps;
      }
      var polled := broker.Poll(workerID, now);
      steps := Continue(env, s, [], Poll(workerID, now));
      if polled.None? {
        return false, steps;
      }
      var task := polled.value;
      var verdict;
      verdict, steps := Execute(task, luck, s, steps, |s.attempts|);
      steps := Conclude(task.id, verdict, luck, s, steps, |s.attempts|);
      return verdict != "", steps;
    }
  }
}
