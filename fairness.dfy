/** Round-robin fairness of create_inference_job (src/server/main.py:38-54):
    over k consecutive dispatches, each scanning the worker keys anew, whose
    scans all yield the same candidate list of n workers, every worker is
    chosen at least floor(k / n) times. */
module Fairness {
  import opened Models
  import opened Keyspace
  import opened Coordinator

  /** One step of the counter moves the index one place around the list. */
  lemma IndexAdvances(c: int, n: nat)
    requires n > 0
    ensures RoundRobinIndex(c + 1, n)
         == if RoundRobinIndex(c, n) == n - 1 then 0 else RoundRobinIndex(c, n) + 1
  {
    var q, r := c / n, c % n;
    assert c == n * q + r;
    if r == n - 1 {
      assert c + 1 == n * (q + 1) + 0;
      ModOfMultiplePlus(c + 1, n, q + 1, 0);
    } else {
      assert c + 1 == n * q + (r + 1);
      ModOfMultiplePlus(c + 1, n, q, r + 1);
    }
  }

  /** The remainder of x = n * q + r with 0 <= r < n is r. */
  lemma ModOfMultiplePlus(x: int, n: nat, q: int, r: int)
    requires n > 0 && 0 <= r < n && x == n * q + r
    ensures x % n == r
  {
    var q', r' := x / n, x % n;
    assert n * q' + r' == n * q + r;
    assert n * (q' - q) == r - r';
    var d := q' - q;
    if d >= 1 {
      MulAtLeast(n, d);
    } else if d <= -1 {
      MulAtLeast(n, -d);
    }
  }

  lemma MulAtLeast(n: nat, k: int)
    requires k >= 1
    ensures n * k >= n
  {
  }

  /** How many of the k dispatches that follow counter value c choose index i
      of an n-worker candidate list (dispatch j, counting from 1, sees the
      counter at c + j after its INCR). */
  function Picks(c: int, k: nat, n: nat, i: nat): (p: nat)
    requires n > 0
    ensures p <= k
    decreases k
  {
    if k == 0 then 0
    else (if RoundRobinIndex(c + 1, n) == i then 1 else 0) + Picks(c + 1, k - 1, n, i)
  }

  /** How far index i lies ahead of index r, going round a list of n. */
  function Ahead(r: nat, i: nat, n: nat): nat
    requires r < n
  {
    if i >= r then i - r else i + n - r
  }

  /** Within one turn of the list (at most n dispatches) index i is chosen
      once if the index reaches it and never otherwise. */
  lemma {:induction false} PicksWithinTurn(c: int, m: nat, n: nat, i: nat)
    requires n > 0 && i < n && m <= n
    ensures Picks(c, m, n, i) == if Ahead(RoundRobinIndex(c + 1, n), i, n) < m then 1 else 0
    decreases m
  {
    if m > 0 {
      PicksWithinTurn(c + 1, m - 1, n, i);
      IndexAdvances(c + 1, n);
    }
  }

  /** Picks over a + k dispatches splits into the first a and the rest. */
  lemma {:induction false} PicksSplit(c: int, a: nat, k: nat, n: nat, i: nat)
    requires n > 0
    ensures Picks(c, a + k, n, i) == Picks(c, a, n, i) + Picks(c + a, k, n, i)
    decreases a
  {
    if a > 0 {
      PicksSplit(c + 1, a - 1, k, n, i);
      assert c + 1 + (a - 1) == c + a;
    }
  }

  /** Every index of an n-worker list is chosen at least floor(k / n) times
      by k consecutive dispatches, whatever the counter's starting value. */
  lemma {:induction false} EveryIndexGetsItsShare(c: int, k: nat, n: nat, i: nat)
    requires n > 0 && i < n
    ensures Picks(c, k, n, i) >= k / n
    decreases k
  {
    if k >= n {
      PicksSplit(c, n, k - n, n, i);
      PicksWithinTurn(c, n, n, i);
      EveryIndexGetsItsShare(c + n, k - n, n, i);
      assert k / n == (k - n) / n + 1 by { DivStep(k, n); }
    }
  }

  lemma DivStep(k: nat, n: nat)
    requires n > 0 && k >= n
    ensures k / n == (k - n) / n + 1
  {
    var q, r := (k - n) / n, (k - n) % n;
    assert k - n == n * q + r;
    assert k == n * (q + 1) + r;
    DivOfMultiplePlus(k, n, q + 1, r);
  }

  /** The quotient of x = n * q + r with 0 <= r < n is q. */
  lemma DivOfMultiplePlus(x: int, n: nat, q: int, r: int)
    requires n > 0 && 0 <= r < n && x == n * q + r
    ensures x / n == q
  {
    ModOfMultiplePlus(x, n, q, r);
    var d := x / n - q;
    assert n * d == 0;
    if d >= 1 {
      MulAtLeast(n, d);
    } else if d <= -1 {
      MulAtLeast(n, -d);
    }
  }

  /** One create_inference_job call of a run: the enumeration of worker:*
      keys that this call's own SCAN returns, the prompt and params the
      client sends, and the request id the handler generates for it. */
  datatype Submission = Submission(scan: seq<string>, prompt: string, params: Dict, requestId: string)

  /** The request a submission sends for model. */
  function RequestOf(model: string, sub: Submission): InferenceRequest {
    InferenceRequest(model, sub.prompt, sub.params)
  }

  /** The state a submission's dispatch leaves behind. */
  function Next(s: StoreState, model: string, sub: Submission): StoreState {
    Dispatch(s, sub.scan, RequestOf(model, sub), sub.requestId).after
  }

  /** states is a run of dispatches for model: the state before each
      submission's dispatch, then the final state, each state being the one
      the previous dispatch leaves. */
  predicate IsRun(states: seq<StoreState>, model: string, subs: seq<Submission>) {
    && |states| == |subs| + 1
    && forall j :: 0 <= j < |subs| ==> states[j + 1] == Next(states[j], model, subs[j])
  }

  /** The run of dispatches for model from s. */
  function Run(s: StoreState, model: string, subs: seq<Submission>): (states: seq<StoreState>)
    ensures |states| == |subs| + 1 && states[0] == s
    decreases |subs|
  {
    if subs == [] then [s] else [s] + Run(Next(s, model, subs[0]), model, subs[1..])
  }

  /** Run builds a run: every submission's dispatch starts from the state
      the previous one left. */
  lemma {:induction false} RunIsRun(s: StoreState, model: string, subs: seq<Submission>)
    ensures IsRun(Run(s, model, subs), model, subs)
    decreases |subs|
  {
    if subs != [] {
      RunIsRun(Next(s, model, subs[0]), model, subs[1..]);
      forall j | 0 <= j < |subs|
        ensures Run(s, model, subs)[j + 1] == Next(Run(s, model, subs)[j], model, subs[j])
      {
        if j > 0 {
          assert subs[j] == subs[1..][j - 1];
        }
      }
    }
  }

  /** The index into its candidate list that a submission's dispatch from
      s picks, or None when the dispatch finds no candidate. */
  function Choice(s: StoreState, model: string, sub: Submission): Option<nat> {
    var c := Candidates(s, sub.scan, model);
    if c == [] then None else Some(RoundRobinIndex(s.workerIndex + 1, |c|))
  }

  /** A dispatch is rejected exactly when it records no choice, and
      otherwise the candidate at the recorded index is the worker whose queue
      the job is pushed onto. */
  lemma ChoiceIsWhereJobGoes(s: StoreState, model: string, sub: Submission)
    ensures Choice(s, model, sub).None? <==> Dispatch(s, sub.scan, RequestOf(model, sub), sub.requestId).reply.Err?
    ensures Choice(s, model, sub).Some? ==>
      var c := Candidates(s, sub.scan, model);
      var i := Choice(s, model, sub).value;
      i < |c| &&
      QueueOf(Next(s, model, sub).queues, c[i].workerId)
        == [JobPayload(Job(sub.requestId, model, sub.prompt, sub.params))] + QueueOf(s.queues, c[i].workerId)
  {
  }

  /** The choices of a run: each submission's dispatch from the state the run
      has reached when it arrives. */
  function Chosen(states: seq<StoreState>, model: string, subs: seq<Submission>): seq<Option<nat>>
    requires |subs| < |states|
  {
    seq(|subs|, j requires 0 <= j < |subs| => Choice(states[j], model, subs[j]))
  }

  /** Every dispatch of a run that records a choice pushes its job onto the
      queue of the candidate at that index, in the state the run had reached. */
  lemma ChosenIsWhereJobGoes(states: seq<StoreState>, model: string, subs: seq<Submission>, j: nat)
    requires IsRun(states, model, subs) && j < |subs| && Chosen(states, model, subs)[j].Some?
    ensures var c := Candidates(states[j], subs[j].scan, model);
      var i := Chosen(states, model, subs)[j].value;
      i < |c| &&
      QueueOf(states[j + 1].queues, c[i].workerId)
        == [JobPayload(Job(subs[j].requestId, model, subs[j].prompt, subs[j].params))]
           + QueueOf(states[j].queues, c[i].workerId)
  {
    ChoiceIsWhereJobGoes(states[j], model, subs[j]);
  }

  /** Over the worker records workers, every submission's scan yields the
      candidate list c. */
  predicate SameCandidates(workers: map<string, Worker>, model: string, subs: seq<Submission>, c: seq<Worker>) {
    forall j :: 0 <= j < |subs| ==> Compatible(Listed(workers, subs[j].scan), model) == c
  }

  /** A successful dispatch leaves the worker records, hence the candidates
      any scan yields, as they were and moves the counter on by one. */
  lemma DispatchKeepsCandidates(s: StoreState, model: string, sub: Submission)
    requires Candidates(s, sub.scan, model) != []
    ensures Next(s, model, sub).workers == s.workers
    ensures Next(s, model, sub).workerIndex == s.workerIndex + 1
  {
  }

  /** While every scan yields the same non-empty candidate list, every
      dispatch of the run succeeds: the j-th state keeps the worker records
      and the counter has moved on by j. */
  lemma {:induction false} RunKeepsWorkers(states: seq<StoreState>, model: string, subs: seq<Submission>,
                                           c: seq<Worker>, j: nat)
    requires IsRun(states, model, subs) && c != [] && SameCandidates(states[0].workers, model, subs, c)
    requires j <= |subs|
    ensures states[j].workers == states[0].workers
    ensures states[j].workerIndex == states[0].workerIndex + j
    decreases j
  {
    if j > 0 {
      RunKeepsWorkers(states, model, subs, c, j - 1);
      assert Candidates(states[j - 1], subs[j - 1].scan, model) == c;
      DispatchKeepsCandidates(states[j - 1], model, subs[j - 1]);
    }
  }

  lemma CountCons(head: Option<nat>, tail: seq<Option<nat>>, x: Option<nat>)
    ensures multiset([head] + tail)[x] == (if head == x then 1 else 0) + multiset(tail)[x]
  {
    assert multiset([head] + tail) == multiset([head]) + multiset(tail);
  }

  /** The choices k successive successful dispatches make from an
      n-candidate list, starting from counter value c. */
  function Turns(c: int, n: nat, k: nat): (r: seq<Option<nat>>)
    requires n > 0
    ensures |r| == k
    decreases k
  {
    if k == 0 then [] else [Some(RoundRobinIndex(c + 1, n))] + Turns(c + 1, n, k - 1)
  }

  /** The j-th turn is taken with the counter at c + j + 1. */
  lemma {:induction false} TurnsAt(c: int, n: nat, k: nat, j: nat)
    requires n > 0 && j < k
    ensures Turns(c, n, k)[j] == Some(RoundRobinIndex(c + j + 1, n))
    decreases j
  {
    if j > 0 {
      TurnsAt(c + 1, n, k - 1, j - 1);
    }
  }

  /** While every scan yields c, the j-th dispatch of the run takes the
      round-robin turn of counter value workerIndex + j + 1. */
  lemma ChosenAt(states: seq<StoreState>, model: string, subs: seq<Submission>, c: seq<Worker>, j: nat)
    requires IsRun(states, model, subs) && c != [] && SameCandidates(states[0].workers, model, subs, c)
    requires j < |subs|
    ensures Chosen(states, model, subs)[j] == Some(RoundRobinIndex(states[0].workerIndex + j + 1, |c|))
  {
    RunKeepsWorkers(states, model, subs, c, j);
    assert Candidates(states[j], subs[j].scan, model) == c;
  }

  /** A run of dispatches for one model whose scans all yield the same
      candidate list c takes the turns of the round robin from the stored
      counter on, whatever prompts, params and request ids it carries. */
  lemma ChosenIsTurns(states: seq<StoreState>, model: string, subs: seq<Submission>, c: seq<Worker>)
    requires IsRun(states, model, subs) && c != [] && SameCandidates(states[0].workers, model, subs, c)
    ensures Chosen(states, model, subs) == Turns(states[0].workerIndex, |c|, |subs|)
  {
    forall j | 0 <= j < |subs|
      ensures Chosen(states, model, subs)[j] == Turns(states[0].workerIndex, |c|, |subs|)[j]
    {
      ChosenAt(states, model, subs, c, j);
      TurnsAt(states[0].workerIndex, |c|, |subs|, j);
    }
  }

  /** The turns choose index i exactly as often as Picks counts. */
  lemma {:induction false} TurnsMatchPicks(c: int, n: nat, k: nat, i: nat)
    requires n > 0
    ensures multiset(Turns(c, n, k))[Some(i)] == Picks(c, k, n, i)
    decreases k
  {
    if k > 0 {
      TurnsMatchPicks(c + 1, n, k - 1, i);
      CountCons(Some(RoundRobinIndex(c + 1, n)), Turns(c + 1, n, k - 1), Some(i));
    }
  }

  /** Round-robin fairness: when |subs| dispatches for one model run back to
      back and each call's own scan yields the same candidate list c of n
      workers, whatever their prompts and params, every dispatch succeeds and
      each candidate is chosen at least floor(|subs| / n) times. */
  lemma RoundRobinFairness(states: seq<StoreState>, model: string, subs: seq<Submission>, c: seq<Worker>, i: nat)
    requires IsRun(states, model, subs) && i < |c| && SameCandidates(states[0].workers, model, subs, c)
    ensures forall j :: 0 <= j < |subs| ==> Chosen(states, model, subs)[j].Some?
    ensures multiset(Chosen(states, model, subs))[Some(i)] >= |subs| / |c|
  {
    ChosenIsTurns(states, model, subs, c);
    forall j | 0 <= j < |subs|
      ensures Chosen(states, model, subs)[j].Some?
    {
      TurnsAt(states[0].workerIndex, |c|, |subs|, j);
    }
    TurnsMatchPicks(states[0].workerIndex, |c|, |subs|, i);
    EveryIndexGetsItsShare(states[0].workerIndex, |subs|, |c|, i);
  }
}
