/** The coordinator's HTTP handlers (src/server/main.py) as functions from a
    store snapshot to the reply and the next snapshot. */
module Coordinator {
  import opened Models
  import opened Keyspace

  /** register_worker: SET worker:{id} to the record, replacing any earlier one. */
  function Register(s: StoreState, w: Worker): (t: Transition<RegisterReply>)
    ensures t.reply == RegisterReply(RegisteredMessage, w.workerId)
    ensures t.after.workers.Keys == s.workers.Keys + {w.workerId}
    ensures t.after.workers[w.workerId] == w
    ensures forall id :: id in s.workers && id != w.workerId ==> t.after.workers[id] == s.workers[id]
    ensures t.after.queues == s.queues && t.after.workerIndex == s.workerIndex && t.after.results == s.results
    ensures Valid(s) ==> Valid(t.after)
  {
    var workers := s.workers[w.workerId := w];
    Transition(RegisterReply(RegisteredMessage, w.workerId), s.(workers := workers))
  }

  /** Re-registering a stored id replaces its record without adding an entry;
      a new id adds exactly one. */
  lemma RegisterAddsAtMostOne(s: StoreState, w: Worker)
    ensures |Register(s, w).after.workers|
         == if w.workerId in s.workers then |s.workers| else |s.workers| + 1
  {
    var workers := Register(s, w).after.workers;
    if w.workerId in s.workers {
      assert workers.Keys == s.workers.Keys;
    } else {
      assert workers.Keys == s.workers.Keys + {w.workerId};
    }
  }

  /** Registering the same record twice leaves the store as registering it once. */
  lemma RegisterIdempotent(s: StoreState, w: Worker)
    ensures Register(Register(s, w).after, w) == Register(s, w)
  {
  }

  /** scan is an enumeration of the worker:* keys as scan_iter yields them:
      every stored id exactly once. It may also name a key whose value is gone
      by the time it is read. */
  ghost predicate IsScanOf(workers: map<string, Worker>, scan: seq<string>) {
    && (forall i, j :: 0 <= i < j < |scan| ==> scan[i] != scan[j])
    && (forall id :: id in workers ==> id in scan)
  }

  /** The list get_workers builds: the record under each scanned key, in scan
      order, skipping a key that holds no value. */
  function Listed(workers: map<string, Worker>, scan: seq<string>): (r: seq<Worker>)
    ensures |r| <= |scan|
    ensures forall w :: w in r ==> w in workers.Values
    ensures forall id :: id in scan && id in workers ==> workers[id] in r
  {
    if scan == [] then []
    else
      var id := scan[|scan| - 1];
      assert scan == scan[..|scan| - 1] + [id];
      Listed(workers, scan[..|scan| - 1]) + (if id in workers then [workers[id]] else [])
  }

  /** On a well-keyed store every listed record has its id in the scan. */
  lemma {:induction false} ListedFromScan(workers: map<string, Worker>, scan: seq<string>)
    requires forall id :: id in workers ==> workers[id].workerId == id
    ensures forall w :: w in Listed(workers, scan) ==> w.workerId in scan
  {
    if scan != [] {
      var n := |scan| - 1;
      ListedFromScan(workers, scan[..n]);
      forall w | w in Listed(workers, scan) ensures w.workerId in scan {
        if w !in Listed(workers, scan[..n]) {
          assert w == workers[scan[n]];
        } else {
          assert w.workerId in scan[..n];
        }
      }
    }
  }

  /** No two workers in ws share an id. */
  ghost predicate DistinctIds(ws: seq<Worker>) {
    forall i, j :: 0 <= i < j < |ws| ==> ws[i].workerId != ws[j].workerId
  }

  /** The listing of a duplicate-free scan names no worker twice. */
  lemma {:induction false} ListedDistinct(workers: map<string, Worker>, scan: seq<string>)
    requires forall id :: id in workers ==> workers[id].workerId == id
    requires forall i, j :: 0 <= i < j < |scan| ==> scan[i] != scan[j]
    ensures DistinctIds(Listed(workers, scan))
  {
    if scan != [] {
      var n := |scan| - 1;
      var prefix := scan[..n];
      ListedDistinct(workers, prefix);
      ListedFromScan(workers, prefix);
      var before := Listed(workers, prefix);
      assert scan[n] !in prefix by {
        forall k | 0 <= k < n ensures prefix[k] != scan[n] { assert scan[k] != scan[n]; }
      }
      if scan[n] in workers {
        var r := Listed(workers, scan);
        assert r == before + [workers[scan[n]]];
        forall i, j | 0 <= i < j < |r| ensures r[i].workerId != r[j].workerId {
          if j < |before| {
            assert r[i] == before[i] && r[j] == before[j];
          } else {
            assert r[i] == before[i] && before[i] in before;
            assert r[i].workerId in prefix;
            assert r[j].workerId == scan[n];
          }
        }
      } else {
        assert Listed(workers, scan) == before;
      }
    }
  }

  /** The stored ids among the scanned keys. */
  function StoredAmong(workers: map<string, Worker>, scan: seq<string>): set<string> {
    set id | id in scan && id in workers
  }

  /** Scanning one more key, not scanned before, adds it to the stored ids
      when it is stored. */
  lemma StoredAmongStep(workers: map<string, Worker>, prefix: seq<string>, id: string)
    requires id !in prefix
    ensures |StoredAmong(workers, prefix + [id])|
         == |StoredAmong(workers, prefix)| + (if id in workers then 1 else 0)
  {
    if id in workers {
      assert StoredAmong(workers, prefix + [id]) == StoredAmong(workers, prefix) + {id};
    } else {
      assert StoredAmong(workers, prefix + [id]) == StoredAmong(workers, prefix);
    }
  }

  /** The listing of a duplicate-free scan has one entry per scanned key that
      is stored. */
  lemma {:induction false} ListedCount(workers: map<string, Worker>, scan: seq<string>)
    requires forall i, j :: 0 <= i < j < |scan| ==> scan[i] != scan[j]
    ensures |Listed(workers, scan)| == |StoredAmong(workers, scan)|
  {
    if scan != [] {
      var n := |scan| - 1;
      var prefix := scan[..n];
      ListedCount(workers, prefix);
      assert scan[n] !in prefix by {
        forall k | 0 <= k < n ensures prefix[k] != scan[n] { assert scan[k] != scan[n]; }
      }
      assert scan == prefix + [scan[n]];
      StoredAmongStep(workers, prefix, scan[n]);
    }
  }

  /** listed holds every stored record and nothing else, each worker once. */
  ghost predicate OncePerWorker(listed: seq<Worker>, workers: map<string, Worker>) {
    && (forall w :: w in listed <==> w in workers.Values)
    && DistinctIds(listed)
    && |listed| == |workers|
  }

  /** get_workers returns exactly the stored records, one per stored worker. */
  lemma ListedOncePerWorker(workers: map<string, Worker>, scan: seq<string>)
    requires forall id :: id in workers ==> workers[id].workerId == id
    requires IsScanOf(workers, scan)
    ensures OncePerWorker(Listed(workers, scan), workers)
  {
    ListedDistinct(workers, scan);
    ListedCount(workers, scan);
    assert StoredAmong(workers, scan) == workers.Keys;
  }

  /** The compatible_workers comprehension: the listed workers whose
      supported_models contains model, kept in listing order. */
  function Compatible(listed: seq<Worker>, model: string): (r: seq<Worker>)
    ensures |r| <= |listed|
    ensures forall w :: w in r <==> w in listed && model in w.supportedModels
  {
    if listed == [] then []
    else (if model in listed[0].supportedModels then [listed[0]] else []) + Compatible(listed[1..], model)
  }

  /** The filter keeps listing order: the compatible workers of a concatenation
      are those of the first part followed by those of the second. */
  lemma {:induction false} CompatibleKeepsOrder(a: seq<Worker>, b: seq<Worker>, model: string)
    ensures Compatible(a + b, model) == Compatible(a, model) + Compatible(b, model)
  {
    if a == [] {
      assert a + b == b;
    } else {
      assert (a + b)[0] == a[0];
      assert (a + b)[1..] == a[1..] + b;
      CompatibleKeepsOrder(a[1..], b, model);
    }
  }

  /** The workers a dispatch of model may choose from. */
  function Candidates(s: StoreState, scan: seq<string>, model: string): seq<Worker> {
    Compatible(Listed(s.workers, scan), model)
  }

  /** worker_index % len(compatible_workers) with the counter's value after
      INCR. Dafny's % agrees with Python's whenever the divisor is positive. */
  function RoundRobinIndex(counter: int, n: nat): (i: nat)
    requires n > 0
    ensures i < n
  {
    counter % n
  }

  /** The worker a dispatch sends its job to: the candidate at the index the
      incremented counter selects. */
  function Target(s: StoreState, scan: seq<string>, model: string): (w: Worker)
    requires Candidates(s, scan, model) != []
    ensures w in Listed(s.workers, scan) && model in w.supportedModels
  {
    var c := Candidates(s, scan, model);
    c[RoundRobinIndex(s.workerIndex + 1, |c|)]
  }

  /** A request id uuid4 could have produced here: no result and no queued
      job carries it yet. */
  ghost predicate FreshRequestId(s: StoreState, requestId: string) {
    && requestId !in s.results
    && forall key, k :: key in s.queues && 0 <= k < |s.queues[key]| && s.queues[key][k].JobPayload? ==>
         s.queues[key][k].job.requestId != requestId
  }

  /** create_inference_job with requestId standing for the generated uuid4:
      reject with 400 when no listed worker supports the model, otherwise bump
      the counter, pick a worker round-robin and LPUSH the job onto its queue. */
  function Dispatch(s: StoreState, scan: seq<string>, req: InferenceRequest, requestId: string)
    : (t: Transition<Result<InferenceResponse>>)
    ensures t.reply.Err? <==> Candidates(s, scan, req.model) == []
    ensures t.reply.Err? ==> t.reply.error == NoAvailableWorker && t.after == s
    ensures t.reply.Ok? ==>
      var target := Target(s, scan, req.model).workerId;
      && t.reply.value == InferenceResponse(requestId, JobQueuedMessage)
      && t.after.workerIndex == s.workerIndex + 1
      && QueueOf(t.after.queues, target)
         == [JobPayload(Job(t.reply.value.requestId, req.model, req.prompt, req.params))] + QueueOf(s.queues, target)
      && (forall key :: key != target ==> QueueOf(t.after.queues, key) == QueueOf(s.queues, key))
      && t.after.workers == s.workers
      && t.after.results == s.results
    ensures Valid(s) ==> Valid(t.after)
  {
    if Candidates(s, scan, req.model) == [] then
      Transition(Err(NoAvailableWorker), s)
    else
      var target := Target(s, scan, req.model);
      var job := Job(requestId, req.model, req.prompt, req.params);
      var queues := LPush(s.queues, target.workerId, JobPayload(job));
      Transition(Ok(InferenceResponse(requestId, JobQueuedMessage)),
                 s.(workerIndex := s.workerIndex + 1, queues := queues))
  }

  /** A dispatch fails exactly when no stored worker supports the model. */
  lemma RejectedIffUnsupported(s: StoreState, scan: seq<string>, req: InferenceRequest, requestId: string)
    requires Valid(s) && IsScanOf(s.workers, scan)
    ensures Dispatch(s, scan, req, requestId).reply.Err?
        <==> forall id :: id in s.workers ==> req.model !in s.workers[id].supportedModels
  {
    ListedOncePerWorker(s.workers, scan);
    var listed := Listed(s.workers, scan);
    if exists id :: id in s.workers && req.model in s.workers[id].supportedModels {
      var id :| id in s.workers && req.model in s.workers[id].supportedModels;
      assert s.workers[id] in listed;
      assert s.workers[id] in Candidates(s, scan, req.model);
    }
  }

  /** The job a dispatch queues is handed out by its worker after every job
      that was already waiting there. */
  lemma DispatchedJobServedLast(s: StoreState, scan: seq<string>, req: InferenceRequest, requestId: string)
    requires Candidates(s, scan, req.model) != []
    ensures var target := Target(s, scan, req.model).workerId;
      Drain(QueueOf(Dispatch(s, scan, req, requestId).after.queues, target))
      == Drain(QueueOf(s.queues, target)) + [JobPayload(Job(requestId, req.model, req.prompt, req.params))]
  {
    var target := Target(s, scan, req.model).workerId;
    DrainAfterPush(QueueOf(s.queues, target), JobPayload(Job(requestId, req.model, req.prompt, req.params)));
  }

  /** get_result: the record under result:{requestId}, or 404. */
  function GetResult(s: StoreState, requestId: string): (r: Result<InferenceResult>)
    ensures r.Ok? <==> requestId in s.results
    ensures r.Ok? ==> r.value == s.results[requestId]
    ensures r.Err? ==> r.error == ResultNotFound
  {
    if requestId in s.results then Ok(s.results[requestId]) else Err(ResultNotFound)
  }

  /** Right after a dispatch, the fresh request id has no result yet: the
      empty-run case of Scenarios.NotFoundUntilCompleted, kept as the
      direct statement of get_result's 404 branch. */
  lemma NotFoundRightAfterDispatch(s: StoreState, scan: seq<string>, req: InferenceRequest, requestId: string)
    requires FreshRequestId(s, requestId)
    ensures GetResult(Dispatch(s, scan, req, requestId).after, requestId) == Err(ResultNotFound)
  {
  }
}
