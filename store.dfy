/** The shared Redis store as an object whose fields the handlers of
    src/server/main.py and the worker's consumer loop update in place. Each
    operation is proved to produce the reply and the new state that its
    specification in Coordinator or Consumer gives. */
module Backend {
  import opened Models
  import opened Keyspace
  import Coordinator
  import Consumer

  class Store {
    var workers: map<string, Worker>
    var queues: map<string, seq<Payload>>
    var workerIndex: int
    var results: map<string, InferenceResult>

    /** The store's contents as a value. */
    function State(): StoreState
      reads this
    {
      StoreState(workers, queues, workerIndex, results)
    }

    ghost predicate Valid()
      reads this
    {
      Keyspace.Valid(State())
    }

    /** A store with no keys. */
    constructor ()
      ensures Valid() && State() == Empty
    {
      workers, queues, workerIndex, results := map[], map[], 0, map[];
    }

    /** register_worker (main.py:17-21). */
    method RegisterWorker(w: Worker) returns (reply: RegisterReply)
      requires Valid()
      modifies this
      ensures Valid()
      ensures Transition(reply, State()) == Coordinator.Register(old(State()), w)
    {
      workers := workers[w.workerId := w];
      reply := RegisterReply(RegisteredMessage, w.workerId);
    }

    /** get_workers (main.py:23-31): walk the scanned worker:* keys and collect
        each record still present. scan stands for scan_iter's enumeration. */
    method GetWorkers(scan: seq<string>) returns (listed: seq<Worker>)
      requires Valid()
      ensures listed == Coordinator.Listed(workers, scan)
      ensures Coordinator.IsScanOf(workers, scan) ==> Coordinator.OncePerWorker(listed, workers)
    {
      listed := [];
      var i := 0;
      while i < |scan|
        invariant 0 <= i <= |scan|
        invariant listed == Coordinator.Listed(workers, scan[..i])
      {
        var id := scan[i];
        if id in workers {
          listed := listed + [workers[id]];
        }
        assert scan[..i + 1][..i] == scan[..i];
        i := i + 1;
      }
      assert scan[..i] == scan;
      if Coordinator.IsScanOf(workers, scan) {
        Coordinator.ListedOncePerWorker(workers, scan);
      }
    }

    /** create_inference_job (main.py:33-71); requestId stands for the uuid4
        the handler generates. */
    method CreateInferenceJob(req: InferenceRequest, scan: seq<string>, requestId: string)
      returns (reply: Result<InferenceResponse>)
      requires Valid()
      requires Coordinator.FreshRequestId(State(), requestId)
      modifies this
      ensures Valid()
      ensures Transition(reply, State()) == Coordinator.Dispatch(old(State()), scan, req, requestId)
      ensures Coordinator.GetResult(State(), requestId) == Err(ResultNotFound)
    {
      ghost var before := State();
      var allWorkers := GetWorkers(scan);
      var compatible := Coordinator.Compatible(allWorkers, req.model);
      assert compatible == Coordinator.Candidates(before, scan, req.model);
      if compatible == [] {
        reply := Err(NoAvailableWorker);
        assert Transition(reply, State()) == Coordinator.Dispatch(before, scan, req, requestId);
        return;
      }
      workerIndex := workerIndex + 1;
      var target := compatible[workerIndex % |compatible|];
      assert target == Coordinator.Target(before, scan, req.model);
      var job := Job(requestId, req.model, req.prompt, req.params);
      queues := LPush(queues, target.workerId, JobPayload(job));
      reply := Ok(InferenceResponse(requestId, JobQueuedMessage));
      assert State() == before.(workerIndex := before.workerIndex + 1, queues := queues);
      assert Transition(reply, State()) == Coordinator.Dispatch(before, scan, req, requestId);
    }

    /** get_result (main.py:73-80). */
    method GetResult(requestId: string) returns (reply: Result<InferenceResult>)
      requires Valid()
      ensures reply == Coordinator.GetResult(State(), requestId)
      ensures reply.Ok? ==> reply.value.requestId == requestId
    {
      if requestId in results {
        reply := Ok(results[requestId]);
      } else {
        reply := Err(ResultNotFound);
      }
    }

    /** One pass of redis_consumer (consumer.py:16-38) for worker workerId. */
    method ConsumeOne(workerId: string, execute: Consumer.Executor) returns (step: Consumer.Step)
      requires Valid()
      modifies this
      ensures Valid()
      ensures Transition(step, State()) == Consumer.ConsumeOne(old(State()), workerId, execute)
    {
      if workerId !in queues || queues[workerId] == [] {
        return Consumer.Blocked;
      }
      var list := queues[workerId];
      var payload := list[|list| - 1];
      var rest := list[..|list| - 1];
      if rest == [] {
        queues := queues - {workerId};
      } else {
        queues := queues[workerId := rest];
      }
      match payload
      case Malformed(_) =>
        step := Consumer.DroppedMalformed;
      case JobPayload(job) =>
        var outcome := execute(job.model, job.prompt, job.params);
        match outcome
        case Failed(reason) =>
          step := Consumer.DroppedOnError(reason);
        case Succeeded(output) =>
          results := results[job.requestId := InferenceResult(job.requestId, output)];
          step := Consumer.Completed(job.requestId);
    }
  }
}
