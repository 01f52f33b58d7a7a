/** End-to-end runs of the protocol: a worker registers, a client dispatches,
    the worker consumes its queue, the client reads the result. */
module Scenarios {
  import opened Models
  import opened Keyspace
  import opened Coordinator
  import Consumer
  import Backend

  /** Dispatch followed by one pass of the chosen worker: when that worker had
      nothing queued and the executor succeeds, the pass completes this very
      request and get_result then answers with the executor's output. */
  lemma DispatchThenConsume(s: StoreState, scan: seq<string>, req: InferenceRequest, requestId: string,
                            execute: Consumer.Executor)
    requires Candidates(s, scan, req.model) != []
    requires QueueOf(s.queues, Target(s, scan, req.model).workerId) == []
    requires execute(req.model, req.prompt, req.params).Succeeded?
    ensures var d := Dispatch(s, scan, req, requestId);
      var c := Consumer.ConsumeOne(d.after, Target(s, scan, req.model).workerId, execute);
      && c.reply == Consumer.Completed(d.reply.value.requestId)
      && GetResult(c.after, requestId)
         == Ok(InferenceResult(requestId, execute(req.model, req.prompt, req.params).output))
  {
    var target := Target(s, scan, req.model).workerId;
    var d := Dispatch(s, scan, req, requestId);
    var job := Job(requestId, req.model, req.prompt, req.params);
    assert QueueOf(d.after.queues, target) == [JobPayload(job)];
    var c := Consumer.ConsumeOne(d.after, target, execute);
    assert c.reply.Completed?;
  }

  /** A dispatch for a model no worker supports is refused with 400 and
      leaves every queue as it was. */
  lemma UnsupportedModelIsRefused(s: StoreState, scan: seq<string>, req: InferenceRequest, requestId: string)
    requires Valid(s) && IsScanOf(s.workers, scan)
    requires forall id :: id in s.workers ==> req.model !in s.workers[id].supportedModels
    ensures Dispatch(s, scan, req, requestId).reply == Err(NoAvailableWorker)
    ensures Dispatch(s, scan, req, requestId).after.queues == s.queues
  {
    RejectedIffUnsupported(s, scan, req, requestId);
  }

  /** The same run through the store object: register w1 for m1, dispatch a
      prompt for m1, let w1 consume its queue, then read the result. */
  method RegisterDispatchConsumeRead(execute: Consumer.Executor, output: Dict)
    returns (answer: Result<InferenceResult>)
    requires execute("m1", "p", map[]) == Succeeded(output)
    ensures answer == Ok(InferenceResult("r1", output))
  {
    var store := new Backend.Store();
    var w1 := Worker("w1", map[], ["m1"]);
    var _ := store.RegisterWorker(w1);
    assert store.workers == map["w1" := w1];
    var req := InferenceRequest("m1", "p", map[]);
    assert Candidates(store.State(), ["w1"], "m1") == [w1];
    var reply := store.CreateInferenceJob(req, ["w1"], "r1");
    var step := store.ConsumeOne("w1", execute);
    answer := store.GetResult("r1");
  }

  /** A model nobody registered for is refused through the store object, and
      no queue appears. */
  method DispatchForUnregisteredModel() returns (reply: Result<InferenceResponse>, queued: bool)
    ensures reply == Err(NoAvailableWorker) && !queued
  {
    var store := new Backend.Store();
    var _ := store.RegisterWorker(Worker("w1", map[], ["m1"]));
    assert Candidates(store.State(), ["w1"], "m2") == [];
    reply := store.CreateInferenceJob(InferenceRequest("m2", "p", map[]), ["w1"], "r1");
    queued := store.queues != map[];
  }

  /** One step of the system as the store sees it: a registration, a dispatch,
      or one pass of a worker's consumer loop. */
  datatype Event =
    | Registers(w: Worker)
    | Dispatches(scan: seq<string>, req: InferenceRequest, requestId: string)
    | Consumes(workerId: string, execute: Consumer.Executor)

  /** The store after one event. */
  function After(s: StoreState, e: Event): StoreState {
    match e
    case Registers(w) => Register(s, w).after
    case Dispatches(scan, req, requestId) => Dispatch(s, scan, req, requestId).after
    case Consumes(workerId, execute) => Consumer.ConsumeOne(s, workerId, execute).after
  }

  /** Whether e is a consumer pass that completes requestId. */
  predicate Completes(s: StoreState, e: Event, requestId: string) {
    e.Consumes? && Consumer.ConsumeOne(s, e.workerId, e.execute).reply == Consumer.Completed(requestId)
  }

  /** The store after each event in turn. */
  function Run(s: StoreState, events: seq<Event>): StoreState
    decreases |events|
  {
    if events == [] then s else Run(After(s, events[0]), events[1..])
  }

  /** Whether some consumer pass of the run completes requestId. */
  predicate CompletedIn(s: StoreState, events: seq<Event>, requestId: string)
    decreases |events|
  {
    events != [] && (Completes(s, events[0], requestId) || CompletedIn(After(s, events[0]), events[1..], requestId))
  }

  /** No step deletes a result, and the only step that writes result:{id} is
      a consumer pass that completes that id. */
  lemma ResultKeptOrWritten(s: StoreState, e: Event, requestId: string)
    ensures requestId in After(s, e).results <==> requestId in s.results || Completes(s, e, requestId)
  {
    if e.Consumes? {
      var t := Consumer.ConsumeOne(s, e.workerId, e.execute);
      if t.reply.Completed? {
        assert requestId in t.after.results <==> requestId in s.results || t.reply.requestId == requestId;
      }
    }
  }

  /** Over any run of registrations, dispatches and consumer passes, a result
      exists at the end exactly when it existed at the start or some pass of
      the run completed its request. */
  lemma {:induction false} ResultOnlyFromCompletion(s: StoreState, events: seq<Event>, requestId: string)
    ensures requestId in Run(s, events).results <==> requestId in s.results || CompletedIn(s, events, requestId)
    decreases |events|
  {
    if events != [] {
      ResultKeptOrWritten(s, events[0], requestId);
      ResultOnlyFromCompletion(After(s, events[0]), events[1..], requestId);
    }
  }

  /** After a dispatch, get_result answers 404 for the new request id through
      any later registrations, dispatches and passes, until a worker's pass
      completes that request. */
  lemma NotFoundUntilCompleted(s: StoreState, scan: seq<string>, req: InferenceRequest, requestId: string,
                               events: seq<Event>)
    requires FreshRequestId(s, requestId)
    ensures var d := Dispatch(s, scan, req, requestId).after;
      GetResult(Run(d, events), requestId) == Err(ResultNotFound) <==> !CompletedIn(d, events, requestId)
  {
    ResultOnlyFromCompletion(Dispatch(s, scan, req, requestId).after, events, requestId);
  }
}
