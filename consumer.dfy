/** One pass of the worker's redis_consumer loop (src/worker/queue/consumer.py)
    as a function from a store snapshot to the pass's outcome and the next
    snapshot. The inference executor is a parameter. */
module Consumer {
  import opened Models
  import opened Keyspace
  import Coordinator

  /** The inference executor, called with a job's model, prompt and params. */
  type Executor = (string, string, Dict) -> ExecOutcome

  /** How one pass ended. Blocked: the queue is empty, so BRPOP is still
      waiting and nothing has happened yet. The two Dropped outcomes are the
      two except branches, after which the loop goes on. */
  datatype Step =
    | Blocked
    | DroppedMalformed
    | DroppedOnError(reason: string)
    | Completed(requestId: string)

  /** What a pass writes for a popped payload: the result record, if any. */
  function Outcome(p: Payload, execute: Executor): (r: (Step, Option<InferenceResult>))
    ensures r.1.Some? <==> r.0.Completed?
    ensures r.0.Completed? <==> p.JobPayload? && execute(p.job.model, p.job.prompt, p.job.params).Succeeded?
    ensures r.0.Completed? ==>
      && r.0.requestId == p.job.requestId
      && r.1.value == InferenceResult(p.job.requestId, execute(p.job.model, p.job.prompt, p.job.params).output)
  {
    match p
    case Malformed(_) => (DroppedMalformed, None)
    case JobPayload(job) =>
      match execute(job.model, job.prompt, job.params)
      case Failed(reason) => (DroppedOnError(reason), None)
      case Succeeded(output) =>
        (Completed(job.requestId), Some(InferenceResult(job.requestId, output)))
  }

  /** One pass for worker workerId: BRPOP the tail of queue:{workerId}; for a
      job document run the executor and on success SET result:{request_id}. */
  function ConsumeOne(s: StoreState, workerId: string, execute: Executor): (t: Transition<Step>)
    ensures t.after.workers == s.workers && t.after.workerIndex == s.workerIndex
    ensures forall key :: key != workerId ==> QueueOf(t.after.queues, key) == QueueOf(s.queues, key)
    ensures t.reply.Blocked? <==> QueueOf(s.queues, workerId) == []
    ensures t.reply.Blocked? ==> t.after == s
    ensures !t.reply.Blocked? ==>
      var q := QueueOf(s.queues, workerId);
      && QueueOf(t.after.queues, workerId) == q[..|q| - 1]
      && (t.reply.Completed? <==>
            q[|q| - 1].JobPayload? && execute(q[|q| - 1].job.model, q[|q| - 1].job.prompt, q[|q| - 1].job.params).Succeeded?)
    ensures t.reply.Completed? ==>
      var job := QueueOf(s.queues, workerId)[|QueueOf(s.queues, workerId)| - 1].job;
      && t.reply.requestId == job.requestId
      && t.after.results == s.results[job.requestId := InferenceResult(job.requestId, execute(job.model, job.prompt, job.params).output)]
    ensures !t.reply.Completed? ==> t.after.results == s.results
    ensures Valid(s) ==> Valid(t.after)
  {
    match RPop(s.queues, workerId)
    case None => Transition(Blocked, s)
    case Some(Popped(payload, rest)) =>
      var (step, written) := Outcome(payload, execute);
      var results := if written.Some? then s.results[written.value.requestId := written.value] else s.results;
      Transition(step, s.(queues := rest, results := results))
  }

  /** The key a completed pass writes is the key get_result reads: right after
      the pass, get_result on that request id answers with the worker's output. */
  lemma ResultVisibleToServer(s: StoreState, workerId: string, execute: Executor)
    requires ConsumeOne(s, workerId, execute).reply.Completed?
    ensures var q := QueueOf(s.queues, workerId);
      var job := q[|q| - 1].job;
      var t := ConsumeOne(s, workerId, execute);
      Coordinator.GetResult(t.after, t.reply.requestId)
        == Ok(InferenceResult(job.requestId, execute(job.model, job.prompt, job.params).output))
  {
  }

  /** Passes serve a worker's queue in Drain order: the payload a pass takes is
      the first one Drain hands out, and the rest drain as before. */
  lemma ConsumesInDrainOrder(s: StoreState, workerId: string, execute: Executor)
    requires QueueOf(s.queues, workerId) != []
    ensures var q := QueueOf(s.queues, workerId);
      var t := ConsumeOne(s, workerId, execute);
      && Drain(QueueOf(t.after.queues, workerId)) == Drain(q)[1..]
      && (t.reply.Completed? ==> t.reply.requestId == Drain(q)[0].job.requestId)
  {
    DrainStep(QueueOf(s.queues, workerId));
  }
}
