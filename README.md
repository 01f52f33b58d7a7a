# Dispatch protocol of the inference coordinator, in Dafny

This project models the core of a small distributed inference service: a
coordinator (a FastAPI app) that keeps a registry of GPU workers in Redis and
hands each inference request to one of them, and the worker-side loop that
consumes those requests and publishes results. Everything goes through one
Redis store, modelled here as four key families:

- `worker:{id}`: the registered worker records, a map from worker id to `Worker`;
- `queue:{id}`: one job list per worker, a map from worker id to a sequence of
  payloads, with LPUSH inserting at the head (index 0) and BRPOP taking the tail;
- `worker_index`: the round-robin counter that INCR bumps;
- `result:{id}`: the published results, a map from request id to `InferenceResult`.

The operations are the coordinator's handlers `register_worker`,
`get_workers`, `create_inference_job` and `get_result`, and one pass of the
worker's `redis_consumer` loop.

Layout:

- `models.dfy` (module `Models`): the records (`Worker`, `InferenceRequest`,
  `InferenceResponse`, `InferenceResult`, the job document), the payload a
  consumer reads, the executor's outcome, and the 400 and 404 replies.
- `keyspace.dfy` (module `Keyspace`): the store snapshot `StoreState`, its
  invariant `Valid`, the list primitives LPUSH and RPOP, and `Drain`, the
  order in which successive tail pops hand out a list. The FIFO lemmas live here.
- `coordinator.dfy` (module `Coordinator`): each handler as a function from a
  snapshot to its reply and the next snapshot, with the listing, the
  capability filter and the round-robin choice.
- `fairness.dfy` (module `Fairness`): the round-robin share over a run of
  dispatches, each of which runs its own scan of the worker keys.
- `consumer.dfy` (module `Consumer`): one consumer pass as a function, with an
  abstract executor.
- `store.dfy` (module `Backend`): class `Store`, whose fields are the four key
  families. Its methods are the handlers and the consumer pass, written as
  in-place updates. Each one is proved to give the reply and the new state that
  its function in `Coordinator` or `Consumer` gives. `GetWorkers` is the scan
  loop of `get_workers`, proved against its invariant.
- `scenarios.dfy` (module `Scenarios`): end-to-end runs. A worker registers, a
  request is dispatched, the worker consumes it and the result is read, both
  over the functions and through the `Store` object.

Inputs that the source takes from its environment are parameters. `scan` is
the order in which `scan_iter("worker:*")` enumerates the worker keys.
`requestId` is the uuid4 the coordinator generates, with a freshness
precondition. `execute` is the inference executor: any function from model,
prompt and params to an output or a failure.

Facts about the system that shape the model:

- Worker records are stored with no expiry (`src/server/main.py:20`). There is
  no liveness ttl and no registry cache: every dispatch reads the registry
  from Redis.
- Jobs are pushed at the head and popped from the tail (LPUSH at
  `src/server/main.py:66`, BRPOP at `src/worker/queue/consumer.py:19`). This
  gives FIFO order per worker queue, which `Keyspace.DrainAfterPushes` proves.
  Pushing at the tail and popping at the head would give the same order.
- Results are published under `result:{id}` with SET and read back by the
  coordinator's `get_result`.

## Model

| member | source | states |
|---|---|---|
| Keyspace.LPush | src/server/main.py:66 | the list under the key gains the payload at its head; every other list is unchanged |
| Keyspace.RPop | src/worker/queue/consumer.py:19 | an empty list yields nothing; otherwise the tail is returned, only that list loses it, and a list emptied by the pop is deleted |
| Keyspace.Drain | src/worker/queue/consumer.py:19 | successive tail pops hand out a list in reverse index order: the tail first, the head last |
| Keyspace.DrainAfterPush | src/server/main.py:66 | a payload LPUSHed now is handed out after every payload already in the list |
| Keyspace.DrainAfterPushes | src/worker/queue/consumer.py:19 | payloads LPUSHed one after another are consumed in the order they were pushed, after the earlier ones: FIFO per worker queue |
| Keyspace.PopIsDrainHead | src/worker/queue/consumer.py:19 | the payload RPOP removes from a non-empty list is the first one Drain lists, and the list it leaves under that key drains as the old one did, less that payload |
| Coordinator.Register | src/server/main.py:17-21 | the record is stored under its own id, replacing any earlier one; other workers, queues, the counter and results are unchanged; the invariant is kept; the reply carries the worker id |
| Coordinator.RegisterAddsAtMostOne | src/server/main.py:20 | re-registering an id adds no entry; a new id adds exactly one |
| Coordinator.RegisterIdempotent | src/server/main.py:20 | registering the same record again leaves the store and the reply as they were |
| Coordinator.Listed | src/server/main.py:26-31 | the listing holds only stored records, and holds the record of every scanned id that is stored |
| Coordinator.ListedFromScan | src/server/main.py:27-30 | every listed record belongs to a scanned key |
| Coordinator.ListedDistinct | src/server/main.py:27-30 | a duplicate-free scan lists no worker twice |
| Coordinator.StoredAmongStep | src/server/main.py:27-30 | scanning one new key adds it to the stored ids when it is stored |
| Coordinator.ListedCount | src/server/main.py:27-30 | a duplicate-free scan lists one record per scanned key that is stored |
| Coordinator.ListedOncePerWorker | src/server/main.py:26-31 | over a full scan, get_workers returns exactly the stored records, each worker once |
| Coordinator.Compatible | src/server/main.py:43-47 | a worker is compatible if and only if it is listed and its supported_models contains the model |
| Coordinator.CompatibleKeepsOrder | src/server/main.py:43-47 | the filter keeps listing order: filtering a concatenation gives the filtered parts in order |
| Coordinator.RoundRobinIndex | src/server/main.py:53 | the chosen index is always in range of the compatible list |
| Coordinator.Target | src/server/main.py:52-54 | the chosen worker is a listed worker that supports the requested model |
| Coordinator.Dispatch | src/server/main.py:33-71 | 400 exactly when no listed worker supports the model, and then the store is untouched (no push, no INCR); otherwise the counter rises by one, the job with the returned request id is LPUSHed on the chosen worker's queue, and no other queue, record or result changes; the invariant is kept |
| Coordinator.RejectedIffUnsupported | src/server/main.py:43-50 | over a full scan, dispatch fails if and only if no stored worker supports the model |
| Coordinator.DispatchedJobServedLast | src/server/main.py:66 | the dispatched job is consumed after every job already waiting on the chosen worker's queue |
| Coordinator.GetResult | src/server/main.py:73-80 | the stored result if result:{id} exists, otherwise 404 "Result not found" |
| Coordinator.NotFoundRightAfterDispatch | src/server/main.py:76-78 | right after the dispatch, get_result answers 404 for a freshly dispatched request id |
| Fairness.IndexAdvances | src/server/main.py:53 | each INCR moves the chosen index one place around the compatible list, wrapping at its end |
| Fairness.Picks | src/server/main.py:52-54 | counts how many of k consecutive dispatches choose a given index; never more than k |
| Fairness.PicksWithinTurn | src/server/main.py:52-54 | within at most n dispatches an index is chosen once if the rotation reaches it, never otherwise |
| Fairness.PicksSplit | src/server/main.py:52-54 | the choices of a + k dispatches are those of the first a and those of the next k |
| Fairness.EveryIndexGetsItsShare | src/server/main.py:52-54 | from any counter value, k consecutive dispatches over n candidates choose each index at least floor(k / n) times |
| Fairness.DispatchKeepsCandidates | src/server/main.py:53 | a successful dispatch leaves the worker records, hence every scan's candidate list, unchanged and moves the counter on by one |
| Fairness.RunIsRun | src/server/main.py:33-68 | the run built from a store state and a list of create_inference_job calls starts each call from the state the previous call left |
| Fairness.ChoiceIsWhereJobGoes | src/server/main.py:49-66 | a dispatch records no choice exactly when it answers 400; otherwise the candidate at the recorded index is the worker whose queue receives the LPUSH of the job |
| Fairness.ChosenIsWhereJobGoes | src/server/main.py:52-66 | for every dispatch of a run, the recorded index names the candidate, in the list that call's own scan yields, whose queue that dispatch LPUSHes its job onto |
| Fairness.RunKeepsWorkers | src/server/main.py:53 | while every call's scan yields the same non-empty candidate list, the j-th state of the run has the same worker records and the counter moved on by j |
| Fairness.ChosenIsTurns | src/server/main.py:38-54 | a run of dispatches for one model in which every call's own scan yields the same candidate list takes one turn of the round robin per request, from the stored counter on, whatever prompts and params the requests carry |
| Fairness.TurnsMatchPicks | src/server/main.py:52-54 | the turns of the round robin choose each index exactly as often as Picks counts |
| Fairness.RoundRobinFairness | src/server/main.py:38-54 | K back-to-back dispatches for one model, each scanning the keys anew, where every scan yields the same list of N candidates, whatever their prompts and params: every dispatch succeeds, and each candidate is chosen at least floor(K / N) times |
| Consumer.Outcome | src/worker/queue/consumer.py:20-38 | a result is written if and only if the payload is a job and the executor succeeds, and it carries that job's request id and the executor's output |
| Consumer.ConsumeOne | src/worker/queue/consumer.py:16-38 | an empty queue blocks with no change; otherwise exactly the tail of this worker's queue is removed; result:{request_id} is set only for a job the executor completes, and a malformed payload or an executor error drops the job with no result; other queues, the records and the counter are unchanged; the invariant is kept |
| Consumer.ResultVisibleToServer | src/worker/queue/consumer.py:30-32 | the key the consumer writes is the key get_result reads: after a completed pass, get_result returns the worker's output for that request id |
| Consumer.ConsumesInDrainOrder | src/worker/queue/consumer.py:19 | each pass takes the next payload in Drain order and leaves the rest in the same order |
| Backend.Store.RegisterWorker | src/server/main.py:17-21 | the in-place SET gives exactly the reply and store of Coordinator.Register, and keeps the invariant |
| Backend.Store.GetWorkers | src/server/main.py:23-31 | for any enumeration of keys, the scan loop builds Coordinator.Listed; when the enumeration names each stored worker once, the listing holds every stored record once and nothing else |
| Backend.Store.CreateInferenceJob | src/server/main.py:33-71 | for any enumeration of keys, the in-place INCR and LPUSH give exactly the reply and store of Coordinator.Dispatch, and the new request has no result yet |
| Backend.Store.GetResult | src/server/main.py:73-80 | answers as Coordinator.GetResult does, and a found result carries the requested id |
| Backend.Store.ConsumeOne | src/worker/queue/consumer.py:16-38 | the in-place BRPOP and SET give exactly the outcome and store of Consumer.ConsumeOne, and keep the invariant |
| Scenarios.DispatchThenConsume | src/worker/queue/consumer.py:30-32 | a dispatch to a worker with an empty queue, followed by one successful pass of that worker, completes this request, and get_result returns the executor's output |
| Scenarios.UnsupportedModelIsRefused | src/server/main.py:49-50 | a dispatch for a model no stored worker supports is refused with 400 and creates no queue entry |
| Scenarios.RegisterDispatchConsumeRead | src/server/main.py:73-80 | through the Store object: register w1 for m1, dispatch a prompt for m1, consume, read: the result is the executor's output under the request id |
| Scenarios.DispatchForUnregisteredModel | src/server/main.py:49-50 | through the Store object: a dispatch for an unregistered model answers 400 and no queue appears |
| Scenarios.ResultKeptOrWritten | src/worker/queue/consumer.py:30-32 | no registration, dispatch or consumer pass deletes a result, and result:{id} appears only through a pass that completes request id |
| Scenarios.ResultOnlyFromCompletion | src/worker/queue/consumer.py:30-32 | over any run of registrations, dispatches and passes, result:{id} exists at the end exactly when it existed at the start or a pass of the run completed id |
| Scenarios.NotFoundUntilCompleted | src/server/main.py:73-80 | after a dispatch, get_result answers 404 for the new request id through any later steps, exactly until a worker's pass completes that request |

## Left out

- Redis connection setup, environment configuration, FastAPI routing and
  status codes on success, printing, and closing the connection in `finally`:
  this is I/O plumbing, and the store is modelled as values.
- JSON and pydantic serialisation: records are datatypes. A list entry the
  consumer cannot use is the `Malformed` payload. This covers text that is not
  JSON and a document that lacks a job key, since both are caught and dropped
  by the loop.
- Concurrency: the atomicity of INCR under parallel requests, async/await,
  cancellation, and interleavings between the coordinator and workers. The
  operations are modelled as sequential steps.
- The blocking of BRPOP: a pass over an empty queue is the `Blocked` outcome
  with no state change. The real call would wait.
- uuid4 generation: the request id is an input, and `FreshRequestId` says no
  result or queued job carries it yet.
- The order of `scan_iter`: it is an input, and any sequence of keys is
  accepted. Redis SCAN may return a key more than once, and then the listing
  names that worker twice, as `get_workers` would. The facts about the listing
  as a whole (`ListedOncePerWorker`, `RejectedIffUnsupported`) are proved for an
  enumeration that names each stored worker once.
- Fairness.RoundRobinFairness: requires every call's scan to yield the same
  candidate list, in the same order. Redis promises no order for SCAN, and a
  reordering can skew the share: two workers A and B, the counter at 0, and
  scans [A, B] and then [B, A] send both jobs to B. Nothing is promised for
  such runs.
- Redis integer limits: the counter is an unbounded integer. INCR failing at
  2^63 - 1 is not modelled.
- Liveness expiry and the registry cache: the code has neither, so a worker
  never disappears from the model. The scenario of a worker expiring with
  jobs still queued cannot be stated.
- Redis type errors (a key holding a value of the wrong type) and a result
  that fails validation when read back: the model only stores well-formed
  records.
- The worker's executor (`src/worker/inference/inference.py`) is the abstract
  `execute` parameter. GPU discovery and self-registration
  (`src/worker/main.py`), the model loader, and the client code are not part of
  this model.
