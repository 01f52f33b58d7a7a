/** The Redis keyspace shared by the coordinator and the workers, seen as four
    key families, and the two list primitives the protocol uses on it. */
module Keyspace {
  import opened Models

  /** A snapshot of the store. A worker queue keeps its head (where LPUSH
      inserts) at index 0 and its tail (where BRPOP removes) at the end. */
  datatype StoreState = StoreState(
    workers: map<string, Worker>,           // worker:{id}
    queues: map<string, seq<Payload>>,      // queue:{id}
    workerIndex: int,                       // worker_index, the round-robin counter
    results: map<string, InferenceResult>)  // result:{id}

  /** A fresh store: no keys at all (INCR reads a missing counter as 0). */
  const Empty := StoreState(map[], map[], 0, map[])

  /** The answer of one operation and the store it leaves behind. */
  datatype Transition<R> = Transition(reply: R, after: StoreState)

  /** What every operation keeps true of the store: each record sits under its
      own id, and Redis holds no empty list (a list disappears with its last
      element). */
  ghost predicate Valid(s: StoreState) {
    && (forall id :: id in s.workers ==> s.workers[id].workerId == id)
    && (forall id :: id in s.results ==> s.results[id].requestId == id)
    && (forall id :: id in s.queues ==> s.queues[id] != [])
  }

  /** The list under queue:{key}; a missing key reads as the empty list. */
  function QueueOf(queues: map<string, seq<Payload>>, key: string): seq<Payload> {
    if key in queues then queues[key] else []
  }

  /** LPUSH: insert p at the head of the list under key. */
  function LPush(queues: map<string, seq<Payload>>, key: string, p: Payload): (r: map<string, seq<Payload>>)
    ensures QueueOf(r, key) == [p] + QueueOf(queues, key)
    ensures forall k :: k != key ==> QueueOf(r, k) == QueueOf(queues, k)
    ensures r.Keys == queues.Keys + {key}
  {
    queues[key := [p] + QueueOf(queues, key)]
  }

  datatype Popped = Popped(item: Payload, rest: map<string, seq<Payload>>)

  /** RPOP: remove and return the tail of the list under key, or None when the
      list is empty; the key is deleted once its list is empty. */
  function RPop(queues: map<string, seq<Payload>>, key: string): (r: Option<Popped>)
    ensures r.None? <==> QueueOf(queues, key) == []
    ensures r.Some? ==>
      var q := QueueOf(queues, key);
      && r.value.item == q[|q| - 1]
      && QueueOf(r.value.rest, key) == q[..|q| - 1]
      && (key in r.value.rest ==> r.value.rest[key] != [])
    ensures r.Some? ==> forall k :: k != key ==> QueueOf(r.value.rest, k) == QueueOf(queues, k)
    ensures r.Some? ==> r.value.rest.Keys <= queues.Keys
  {
    var q := QueueOf(queues, key);
    if q == [] then None
    else
      var rest := q[..|q| - 1];
      Some(Popped(q[|q| - 1], if rest == [] then queues - {key} else queues[key := rest]))
  }

  /** The order in which successive tail pops hand out the entries of a list:
      the tail first, the head last. */
  function Drain<T>(q: seq<T>): (r: seq<T>)
    ensures |r| == |q|
    ensures forall i :: 0 <= i < |q| ==> r[i] == q[|q| - 1 - i]
  {
    if q == [] then [] else [q[|q| - 1]] + Drain(q[..|q| - 1])
  }

  /** The list after LPUSHing each of xs in turn. */
  function PushedAll<T>(q: seq<T>, xs: seq<T>): seq<T>
    decreases |xs|
  {
    if xs == [] then q else PushedAll([xs[0]] + q, xs[1..])
  }

  /** Pushing at the head and popping at the tail is first in, first out: an
      entry pushed now is handed out after every entry already queued. */
  lemma {:induction false} DrainAfterPush<T>(q: seq<T>, x: T)
    ensures Drain([x] + q) == Drain(q) + [x]
  {
    if q != [] {
      var q' := [x] + q;
      assert q'[..|q'| - 1] == [x] + q[..|q| - 1];
      DrainAfterPush(q[..|q| - 1], x);
    }
  }

  /** Entries pushed one after another are handed out in the order they were
      pushed, after the entries that were there before. */
  lemma {:induction false} DrainAfterPushes<T>(q: seq<T>, xs: seq<T>)
    ensures Drain(PushedAll(q, xs)) == Drain(q) + xs
    decreases |xs|
  {
    if xs != [] {
      DrainAfterPushes([xs[0]] + q, xs[1..]);
      DrainAfterPush(q, xs[0]);
      assert [xs[0]] + xs[1..] == xs;
    }
  }

  /** Drain's first step: the tail, then the rest of the list. */
  lemma DrainStep<T>(q: seq<T>)
    requires q != []
    ensures q[|q| - 1] == Drain(q)[0]
    ensures Drain(q[..|q| - 1]) == Drain(q)[1..]
  {
  }

  /** BRPOP hands out the entry Drain lists first, and leaves the list under
      key draining in the same order as before, less that entry. */
  lemma PopIsDrainHead(queues: map<string, seq<Payload>>, key: string)
    requires QueueOf(queues, key) != []
    ensures var r := RPop(queues, key).value;
      && r.item == Drain(QueueOf(queues, key))[0]
      && Drain(QueueOf(r.rest, key)) == Drain(QueueOf(queues, key))[1..]
  {
    DrainStep(QueueOf(queues, key));
  }
}
