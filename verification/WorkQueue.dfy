/** The worker loop of a controller over a rate-limited work queue: many workers call `processNext`
    on one queue while informers add keys and timers fire. */
module WorkQueue {

  import opened Options
  import CacheKeys

  // ----- The queue library's contract -----

  /** `dirty` are the keys that need processing, `processing` those handed to a worker; `waiting` maps a
      delayed key to the time it becomes ready. */
  datatype Queue = Queue(
    queue: seq<string>,
    dirty: set<string>,
    processing: set<string>,
    waiting: map<string, int>,
    failures: map<string, nat>,
    now: int,
    shuttingDown: bool)

  function Add(q: Queue, k: string): Queue {
    if q.shuttingDown || k in q.dirty then q
    else q.(dirty := q.dirty + {k}, queue := if k in q.processing then q.queue else q.queue + [k])
  }

  /** Adding a key that already waits keeps the earlier of the two times. */
  function AddAfter(q: Queue, k: string, delay: int): Queue {
    if q.shuttingDown then q
    else if delay <= 0 then Add(q, k)
    else
      var ready := q.now + delay;
      if k in q.waiting && q.waiting[k] <= ready then q else q.(waiting := q.waiting[k := ready])
  }

  function Failures(q: Queue, k: string): nat {
    if k in q.failures then q.failures[k] else 0
  }

  /** `backoff` is the delay the rate limiter hands out for this call. */
  function AddRateLimited(q: Queue, k: string, backoff: nat): Queue {
    AddAfter(q.(failures := q.failures[k := Failures(q, k) + 1]), k, backoff)
  }

  function Forget(q: Queue, k: string): Queue {
    q.(failures := q.failures - {k})
  }

  function Take(q: Queue): Queue
    requires q.queue != []
  {
    q.(queue := q.queue[1..], dirty := q.dirty - {q.queue[0]}, processing := q.processing + {q.queue[0]})
  }

  function Done(q: Queue, k: string): Queue {
    q.(processing := q.processing - {k}, queue := if k in q.dirty then q.queue + [k] else q.queue)
  }

  function Ready(q: Queue, k: string): Queue {
    if k in q.waiting && q.waiting[k] <= q.now then Add(q.(waiting := q.waiting - {k}), k) else q
  }

  // ----- Errors and queue operations -----

  /** What the classification functions of the API library say about an error. */
  datatype Error = Error(
    suggestedSeconds: Option<int>,
    connectionReset: bool, internalError: bool, timeout: bool,
    serverTimeout: bool, tooManyRequests: bool, unexpectedServerError: bool)

  const SECOND: int := 1_000_000_000

  /** The error for which no reason to retry is known. */
  const PERMANENT := Error(None, false, false, false, false, false, false)

  /** Whether to retry and after which delay: exactly the permanent error is not retried, and only the
      server's own suggestion, which may be zero, makes a delay. */
  function ShouldRetry(e: Error): (r: (bool, int))
    ensures r.0 <==> e != PERMANENT
    ensures r.1 != 0 ==> e.suggestedSeconds == Some(r.1 / SECOND)
    ensures forall n :: e.suggestedSeconds == Some(n) ==> r.1 == n * SECOND
  {
    if e.suggestedSeconds.Some? then (true, e.suggestedSeconds.value * SECOND)
    else if e.connectionReset || e.internalError || e.timeout || e.serverTimeout || e.tooManyRequests
        || e.unexpectedServerError
    then (true, 0)
    else (false, 0)
  }

  /** The operations a handler can call; `backoff` is what the rate limiter hands out meanwhile. */
  datatype Op =
    | Finished
    | RequeueAfter(delay: int, backoff: nat)
    | Requeue(backoff: nat)
    | RequeueErr(err: Error, backoff: nat)
    | RequeueAPIErr(err: Error, backoff: nat)

  /** One call on the queue for the current key. */
  datatype Call = Delay(delay: int) | RateLimit(backoff: nat) | Drop

  function RequeueCalls(delay: int, backoff: nat): seq<Call> {
    if delay == 0 then [RateLimit(backoff)] else [Delay(delay)]
  }

  /** The calls an operation makes, in order. RequeueAPIErr falls through all of its branches. */
  function Calls(op: Op): seq<Call> {
    match op
    case Finished => [Drop]
    case RequeueAfter(d, b) => RequeueCalls(d, b)
    case Requeue(b) => [RateLimit(b)]
    case RequeueErr(_, b) => [RateLimit(b)]
    case RequeueAPIErr(e, b) =>
      var (retry, after) := ShouldRetry(e);
      (if retry && after > 0 then [Delay(after)] else []) + (if retry then [RateLimit(b)] else []) + [Drop]
  }

  function ScriptCalls(script: seq<Op>): seq<Call> {
    if script == [] then [] else ScriptCalls(script[..|script| - 1]) + Calls(script[|script| - 1])
  }

  /** Does the operation ask for the key to come back? */
  predicate Requeues(op: Op) {
    match op
    case Finished => false
    case RequeueAPIErr(e, _) => ShouldRetry(e).0
    case _ => true
  }

  predicate Asks(c: Call) {
    !c.Drop?
  }

  /** The error that `Error()` reports after a script. */
  function LastError(script: seq<Op>): Option<Error> {
    if script == [] then None
    else
      var op := script[|script| - 1];
      if op.RequeueErr? || op.RequeueAPIErr? then Some(op.err) else LastError(script[..|script| - 1])
  }

  // ----- Workers -----

  /** A busy worker: running `sync`, about to release its key, or leaving because the queue shut down. */
  datatype Worker = Syncing(key: string) | Releasing(key: string) | Quitting

  datatype State = State(q: Queue, workers: map<nat, Worker>)

  datatype Event =
    | Get(w: nat)
    | Call(w: nat, call: Call)
    | Finish(w: nat)
    | Release(w: nat)
    | Added(key: string)
    | Fire(key: string)
    | Tick(time: nat)
    | ShutDown

  function Perform(q: Queue, k: string, c: Call): Queue {
    match c
    case Delay(d) => AddAfter(q, k, d)
    case RateLimit(b) => AddRateLimited(q, k, b)
    case Drop => Forget(q, k)
  }

  predicate IsSyncing(s: State, w: nat) {
    w in s.workers && s.workers[w].Syncing?
  }

  /** A worker's next atomic step, or one of the environment's; a step that is not enabled does nothing. */
  function Step(s: State, e: Event): State {
    match e
    case Get(w) =>
      if w in s.workers then s
      else if s.q.queue != [] then
        var key := s.q.queue[0];
        State(Take(s.q), s.workers[w := if CacheKeys.Split(key).None? then Releasing(key) else Syncing(key)])
      else if s.q.shuttingDown then s.(workers := s.workers[w := Quitting])
      else s
    case Call(w, c) => if IsSyncing(s, w) then s.(q := Perform(s.q, s.workers[w].key, c)) else s
    case Finish(w) =>
      if IsSyncing(s, w) then
        var key := s.workers[w].key;
        State(Forget(s.q, key), s.workers[w := Releasing(key)])
      else s
    case Release(w) =>
      if w !in s.workers || s.workers[w].Syncing? then s
      else State(Done(s.q, if s.workers[w].Quitting? then "" else s.workers[w].key), s.workers - {w})
    case Added(k) => s.(q := Add(s.q, k))
    case Fire(k) => s.(q := Ready(s.q, k))
    case Tick(d) => s.(q := s.q.(now := s.q.now + d))
    case ShutDown => s.(q := s.q.(shuttingDown := true))
  }

  function Run(s: State, es: seq<Event>): State {
    if es == [] then s else Step(Run(s, es[..|es| - 1]), es[|es| - 1])
  }

  lemma {:induction false} RunConcat(s: State, a: seq<Event>, b: seq<Event>)
    ensures Run(s, a + b) == Run(Run(s, a), b)
  {
    hide Step;
    if b == [] {
      assert a + b == a;
    } else {
      var n := |b| - 1;
      RunConcat(s, a, b[..n]);
      assert (a + b)[..|a + b| - 1] == a + b[..n];
    }
  }

  lemma RunTwo(s: State, a: Event, b: Event)
    ensures Run(s, [a, b]) == Step(Step(s, a), b)
  {
    hide Step;
    assert [a, b][..1] == [a] && [a][..0] == [];
    assert Run(s, []) == s;
    assert Run(s, [a]) == Step(s, a);
  }

  // ----- Invariant -----

  ghost predicate Holds(s: State, w: nat, k: string) {
    w in s.workers && !s.workers[w].Quitting? && s.workers[w].key == k
  }

  ghost predicate NoDup(q: seq<string>) {
    forall i, j :: 0 <= i < j < |q| ==> q[i] != q[j]
  }

  /** The queue holds exactly the dirty keys nobody processes, once each. */
  ghost predicate QueueOk(q: Queue) {
    && NoDup(q.queue)
    && (forall k :: k in q.queue <==> k in q.dirty && k !in q.processing)
  }

  /** Every processed key has exactly one worker. */
  ghost predicate WorkersOk(s: State) {
    && (forall k :: k in s.q.processing <==> exists w :: Holds(s, w, k))
    && (forall w, v, k :: Holds(s, w, k) && Holds(s, v, k) ==> w == v)
  }

  ghost predicate Inv(s: State) {
    QueueOk(s.q) && WorkersOk(s)
  }

  /** The empty string, which the quitting path releases without having taken it, is no key. */
  ghost predicate NoEmptyKey(s: State) {
    "" !in s.q.dirty && "" !in s.q.waiting && "" !in s.q.processing
  }

  lemma AddKeeps(q: Queue, k: string)
    requires QueueOk(q)
    ensures QueueOk(Add(q, k)) && Add(q, k).processing == q.processing
  {
  }

  lemma PerformKeeps(q: Queue, k: string, c: Call)
    requires QueueOk(q)
    ensures QueueOk(Perform(q, k, c)) && Perform(q, k, c).processing == q.processing
  {
    hide Add;
    if c.Delay? {
      AddKeeps(q, k);
    } else if c.RateLimit? {
      AddKeeps(q.(failures := q.failures[k := Failures(q, k) + 1]), k);
    }
  }

  lemma TakeKeeps(q: Queue)
    requires QueueOk(q) && q.queue != []
    ensures QueueOk(Take(q)) && q.queue[0] !in q.processing
  {
    assert q.queue[0] in q.queue;
  }

  lemma DoneKeeps(q: Queue, k: string)
    requires QueueOk(q)
    ensures QueueOk(Done(q, k)) <==> k in q.processing || k !in q.dirty
  {
    var q' := Done(q, k);
    if k in q.dirty && k !in q.processing {
      var i :| 0 <= i < |q.queue| && q.queue[i] == k;
      assert q'.queue[i] == q'.queue[|q.queue|];
    }
  }

  lemma SameWorkers(s: State, q: Queue)
    requires WorkersOk(s) && q.processing == s.q.processing
    ensures WorkersOk(s.(q := q))
  {
    assert forall w, k :: Holds(s.(q := q), w, k) <==> Holds(s, w, k);
  }

  lemma GetKeeps(s: State, w: nat)
    requires Inv(s)
    ensures Inv(Step(s, Get(w)))
  {
    hide CacheKeys.Split;
    var s' := Step(s, Get(w));
    if w in s.workers {
    } else if s.q.queue != [] {
      var key := s.q.queue[0];
      TakeKeeps(s.q);
      assert Holds(s', w, key);
      assert forall v, k :: Holds(s', v, k) <==> Holds(s, v, k) || (v == w && k == key);
    } else {
      assert forall v, k :: Holds(s', v, k) <==> Holds(s, v, k);
    }
  }

  /** Releasing keeps the invariant, except that a quitting worker breaks it exactly when the empty
      string is being processed or waits to be. */
  lemma ReleaseKeeps(s: State, w: nat)
    requires Inv(s)
    ensures Inv(Step(s, Release(w)))
            <==> (w in s.workers && s.workers[w].Quitting? ==> "" !in s.q.processing && "" !in s.q.dirty)
  {
    var s' := Step(s, Release(w));
    if w in s.workers && !s.workers[w].Syncing? {
      var k := if s.workers[w].Quitting? then "" else s.workers[w].key;
      DoneKeeps(s.q, k);
      assert forall v, j :: Holds(s', v, j) <==> Holds(s, v, j) && v != w;
      if !s.workers[w].Quitting? {
        assert Holds(s, w, k);
      } else if k in s.q.processing {
        var v :| Holds(s, v, k);
        assert Holds(s', v, k);
      }
    }
  }

  lemma StepKeepsInv(s: State, e: Event)
    requires Inv(s) && NoEmptyKey(s) && e != Added("")
    ensures Inv(Step(s, e)) && NoEmptyKey(Step(s, e))
  {
    var s' := Step(s, e);
    match e
    case Get(w) => GetKeeps(s, w);
      if w !in s.workers && s.q.queue != [] { assert s.q.queue[0] in s.q.queue; }
    case Call(w, c) =>
      if IsSyncing(s, w) {
        assert Holds(s, w, s.workers[w].key);
        PerformKeeps(s.q, s.workers[w].key, c);
        SameWorkers(s, s'.q);
      }
    case Finish(w) =>
      assert forall v, k :: Holds(s', v, k) <==> Holds(s, v, k);
    case Release(w) => ReleaseKeeps(s, w);
    case Added(k) => AddKeeps(s.q, k); SameWorkers(s, s'.q);
    case Fire(k) =>
      AddKeeps(s.q.(waiting := s.q.waiting - {k}), k);
      SameWorkers(s, s'.q);
    case Tick(_) => SameWorkers(s, s'.q);
    case ShutDown => SameWorkers(s, s'.q);
  }

  /** Keys are handed out in the order in which they became due: a step takes at most the first key, or puts at most
      one key behind all others. */
  lemma StepIsFifo(s: State, e: Event)
    ensures var q, q' := s.q.queue, Step(s, e).q.queue;
            || q' == q
            || (e.Get? && q != [] && q' == q[1..])
            || (!e.Get? && |q'| == |q| + 1 && q'[..|q|] == q)
  {}

  /** In every run of any number of workers, the queue holds each dirty unprocessed key exactly once and no
      key is ever handed to two workers at a time. */
  lemma {:induction false} RunKeepsInv(s: State, es: seq<Event>)
    requires Inv(s) && NoEmptyKey(s) && Added("") !in es
    ensures Inv(Run(s, es)) && NoEmptyKey(Run(s, es))
  {
    if es != [] {
      RunKeepsInv(s, es[..|es| - 1]);
      StepKeepsInv(Run(s, es[..|es| - 1]), es[|es| - 1]);
    }
  }

  const UNUSED := State(Queue([], {}, {}, map[], map[], 0, false), map[])

  /** With the empty string as a key the guarantee fails: a worker that quits releases the key another
      worker holds, and the key ends up queued twice. */
  lemma QuitDuplicatesEmptyKey()
    ensures Inv(UNUSED)
    ensures Run(UNUSED, [Added(""), Get(0), Added(""), ShutDown] + [Get(1), Release(1)] + [Release(0)]).q.queue
            == ["", ""]
  {
    hide Run;
    var s1 := Step(Step(UNUSED, Added("")), Get(0));
    assert s1 == State(Queue([], {}, {""}, map[], map[], 0, false), map[0 := Releasing("")]);
    var s2 := Step(Step(s1, Added("")), ShutDown);
    assert s2 == State(Queue([], {""}, {""}, map[], map[], 0, true), map[0 := Releasing("")]);
    var s3 := Step(Step(s2, Get(1)), Release(1));
    assert s3 == State(Queue([""], {""}, {}, map[], map[], 0, true), map[0 := Releasing("")]);
    QuitRun(UNUSED, Added(""), Get(0), Added(""), ShutDown, Get(1), Release(1), Release(0));
  }

  lemma QuitRun(s: State, a: Event, b: Event, c: Event, d: Event, e: Event, f: Event, g: Event)
    ensures Run(s, [a, b, c, d] + [e, f] + [g]) == Step(Step(Step(Step(Step(Step(Step(s, a), b), c), d), e), f), g)
  {
    hide Step;
    assert [a, b, c, d] == [a, b] + [c, d];
    RunConcat(s, [a, b, c, d] + [e, f], [g]);
    RunConcat(s, [a, b, c, d], [e, f]);
    RunConcat(s, [a, b], [c, d]);
    RunTwo(s, a, b);
    RunTwo(Run(s, [a, b]), c, d);
    var s4 := Run(s, [a, b, c, d]);
    RunTwo(s4, e, f);
    var s6 := Run(s4, [e, f]);
    assert Run(s6, []) == s6;
    assert Run(s6, [g]) == Step(s6, g);
  }

  // ----- No lost requeue -----

  /** The key will be handed out (again): it is due now or waits for its time. */
  predicate Pending(q: Queue, k: string) {
    k in q.dirty || k in q.waiting
  }

  /** Is this a step that asks for `k`, the key worker `w` holds? */
  predicate AsksFor(e: Event, w: nat, k: string) {
    e == Added(k) || (e.Call? && e.w == w && Asks(e.call))
  }

  /** Worker `w` neither takes nor releases anything, and the queue is not shut down. */
  predicate During(e: Event, w: nat) {
    e != Get(w) && e != Release(w) && !e.ShutDown? && e != Added("")
  }

  lemma AddPending(q: Queue, k: string, j: string)
    requires !q.shuttingDown
    ensures Pending(Add(q, j), k) <==> Pending(q, k) || j == k
  {
  }

  lemma PerformPending(q: Queue, k: string, j: string, c: Call)
    requires !q.shuttingDown
    ensures Pending(Perform(q, j, c), k) <==> Pending(q, k) || (j == k && Asks(c))
    ensures Perform(q, j, c).shuttingDown == q.shuttingDown
  {
  }

  lemma FirePending(q: Queue, k: string, j: string)
    requires !q.shuttingDown
    ensures Pending(Ready(q, j), k) <==> Pending(q, k)
  {
  }

  /** While a worker syncs, its key stays with it, and becomes pending by the steps that ask for it only. */
  lemma StepPending(s: State, e: Event, w: nat, k: string)
    requires Inv(s) && NoEmptyKey(s) && !s.q.shuttingDown
    requires IsSyncing(s, w) && s.workers[w].key == k && During(e, w) && e != Finish(w)
    ensures var s' := Step(s, e);
            && !s'.q.shuttingDown && IsSyncing(s', w) && s'.workers[w].key == k
            && (Pending(s'.q, k) <==> Pending(s.q, k) || AsksFor(e, w, k))
  {
    assert Holds(s, w, k);
    match e
    case Get(v) =>
      if v !in s.workers && s.q.queue != [] { assert s.q.queue[0] in s.q.queue; }
    case Call(v, c) =>
      if IsSyncing(s, v) {
        assert Holds(s, v, s.workers[v].key);
        PerformPending(s.q, k, s.workers[v].key, c);
      }
    case Added(j) => AddPending(s.q, k, j);
    case Fire(j) => FirePending(s.q, k, j);
    case _ =>
  }

  /** Once a worker is about to release its key nothing it does asks for it, and nobody else counts
      failures for it. */
  lemma StepReleasing(s: State, e: Event, w: nat, k: string)
    requires Inv(s) && NoEmptyKey(s) && !s.q.shuttingDown
    requires w in s.workers && s.workers[w] == Releasing(k) && During(e, w)
    ensures var s' := Step(s, e);
            && !s'.q.shuttingDown && w in s'.workers && s'.workers[w] == Releasing(k)
            && Failures(s'.q, k) == Failures(s.q, k)
            && (Pending(s'.q, k) <==> Pending(s.q, k) || e == Added(k))
  {
    assert Holds(s, w, k);
    match e
    case Get(v) =>
      if v !in s.workers && s.q.queue != [] { assert s.q.queue[0] in s.q.queue; }
    case Call(v, c) =>
      if IsSyncing(s, v) {
        assert Holds(s, v, s.workers[v].key);
        PerformPending(s.q, k, s.workers[v].key, c);
      }
    case Added(j) => AddPending(s.q, k, j);
    case Fire(j) => FirePending(s.q, k, j);
    case Finish(v) =>
      if IsSyncing(s, v) { assert Holds(s, v, s.workers[v].key); }
    case _ =>
  }

  /** Every event of a sequence happens while `w` keeps its key. */
  ghost predicate AllDuring(es: seq<Event>, w: nat) {
    forall e :: e in es ==> During(e, w)
  }

  ghost predicate SomeAsk(es: seq<Event>, w: nat, k: string) {
    exists e :: e in es && AsksFor(e, w, k)
  }

  lemma SomeAskLast(es: seq<Event>, w: nat, k: string)
    requires es != []
    ensures SomeAsk(es, w, k) <==> SomeAsk(es[..|es| - 1], w, k) || AsksFor(es[|es| - 1], w, k)
  {
    assert es == es[..|es| - 1] + [es[|es| - 1]];
    if SomeAsk(es, w, k) {
      var e :| e in es && AsksFor(e, w, k);
      assert e in es[..|es| - 1] || e == es[|es| - 1];
    }
  }

  /** The two situations of a worker that has taken `k` from the queue. */
  ghost predicate Working(s: State, w: nat, k: string) {
    Inv(s) && NoEmptyKey(s) && !s.q.shuttingDown && w in s.workers && s.workers[w] == Syncing(k)
  }

  ghost predicate Leaving(s: State, w: nat, k: string) {
    Inv(s) && NoEmptyKey(s) && !s.q.shuttingDown && w in s.workers && s.workers[w] == Releasing(k)
  }

  lemma {:induction false} SyncPhase(s: State, es: seq<Event>, w: nat, k: string)
    requires Working(s, w, k) && AllDuring(es, w) && Finish(w) !in es
    ensures Working(Run(s, es), w, k)
    ensures Pending(Run(s, es).q, k) <==> Pending(s.q, k) || SomeAsk(es, w, k)
  {
    hide Step, Inv, NoEmptyKey, Pending, AsksFor;
    if es != [] {
      var n := |es| - 1;
      SyncPhase(s, es[..n], w, k);
      StepPending(Run(s, es[..n]), es[n], w, k);
      StepKeepsInv(Run(s, es[..n]), es[n]);
      SomeAskLast(es, w, k);
    }
  }

  lemma {:induction false} ReleasePhase(s: State, es: seq<Event>, w: nat, k: string)
    requires Leaving(s, w, k) && AllDuring(es, w)
    ensures Leaving(Run(s, es), w, k)
    ensures Failures(Run(s, es).q, k) == Failures(s.q, k)
    ensures Pending(Run(s, es).q, k) <==> Pending(s.q, k) || Added(k) in es
  {
    hide Step, Inv, NoEmptyKey, Pending, Failures;
    if es != [] {
      var n := |es| - 1;
      ReleasePhase(s, es[..n], w, k);
      StepReleasing(Run(s, es[..n]), es[n], w, k);
      StepKeepsInv(Run(s, es[..n]), es[n]);
      assert es == es[..n] + [es[n]];
    }
  }

  lemma Taken(s: State, w: nat)
    requires Inv(s) && NoEmptyKey(s) && !s.q.shuttingDown && w !in s.workers && s.q.queue != []
    ensures var k, s' := s.q.queue[0], Step(s, Get(w));
            && (if CacheKeys.Split(k).Some? then Working(s', w, k) else Leaving(s', w, k))
            && (Pending(s'.q, k) <==> k in s.q.waiting)
            && Failures(s'.q, k) == Failures(s.q, k)
  {
    StepKeepsInv(s, Get(w));
  }

  lemma Finishing(s: State, w: nat, k: string)
    requires Working(s, w, k)
    ensures var s' := Step(s, Finish(w));
            Leaving(s', w, k) && Failures(s'.q, k) == 0 && (Pending(s'.q, k) <==> Pending(s.q, k))
  {
    StepKeepsInv(s, Finish(w));
  }

  /** A released key is in the queue exactly when it was asked for, and nowhere else. */
  lemma Released(s: State, w: nat, k: string)
    requires Leaving(s, w, k)
    ensures var s' := Step(s, Release(w));
            && Inv(s') && NoEmptyKey(s') && w !in s'.workers
            && k !in s'.q.processing && Failures(s'.q, k) == Failures(s.q, k)
            && (Pending(s'.q, k) <==> Pending(s.q, k))
            && (Pending(s'.q, k) <==> k in s'.q.queue || k in s'.q.waiting)
  {
    StepKeepsInv(s, Release(w));
  }

  /** The calls worker `w` makes among the events of all. */
  function OwnCalls(es: seq<Event>, w: nat): seq<Call> {
    if es == [] then []
    else
      var e := es[|es| - 1];
      OwnCalls(es[..|es| - 1], w) + (if e.Call? && e.w == w then [e.call] else [])
  }

  ghost predicate AnyAsks(cs: seq<Call>) {
    exists c :: c in cs && Asks(c)
  }

  ghost predicate AnyRequeues(script: seq<Op>) {
    exists op :: op in script && Requeues(op)
  }

  lemma AnyAsksConcat(a: seq<Call>, b: seq<Call>)
    ensures AnyAsks(a + b) <==> AnyAsks(a) || AnyAsks(b)
  {
    if c :| c in a && Asks(c) { assert c in a + b; }
    if c :| c in b && Asks(c) { assert c in a + b; }
  }

  lemma OpAsks(op: Op)
    ensures AnyAsks(Calls(op)) <==> Requeues(op)
  {
    if Requeues(op) {
      var n := if op.RequeueAPIErr? then |Calls(op)| - 2 else 0;
      assert Calls(op)[n] in Calls(op) && Asks(Calls(op)[n]);
    }
  }

  lemma {:induction false} ScriptAsks(script: seq<Op>)
    ensures AnyAsks(ScriptCalls(script)) <==> AnyRequeues(script)
  {
    hide Calls, Requeues;
    if script != [] {
      var n := |script| - 1;
      ScriptAsks(script[..n]);
      OpAsks(script[n]);
      AnyAsksConcat(ScriptCalls(script[..n]), Calls(script[n]));
      assert script == script[..n] + [script[n]];
      if AnyRequeues(script) {
        var op :| op in script && Requeues(op);
        assert op in script[..n] || op == script[n];
      }
      if op :| op in script[..n] && Requeues(op) { assert op in script; }
    }
  }

  lemma {:induction false} OwnCallsAsk(es: seq<Event>, w: nat, k: string)
    ensures SomeAsk(es, w, k) <==> Added(k) in es || AnyAsks(OwnCalls(es, w))
  {
    if es != [] {
      var n := |es| - 1;
      OwnCallsAsk(es[..n], w, k);
      SomeAskLast(es, w, k);
      var own := if es[n].Call? && es[n].w == w then [es[n].call] else [];
      AnyAsksConcat(OwnCalls(es[..n], w), own);
      assert AnyAsks(own) <==> es[n].Call? && es[n].w == w && Asks(es[n].call) by {
        if es[n].Call? && es[n].w == w { assert es[n].call in own; }
      }
      assert es == es[..n] + [es[n]];
    }
  }

  /** The failure count that a series of calls for one key leads to. */
  function Tally(n: nat, cs: seq<Call>): nat {
    if cs == [] then n
    else
      var before := Tally(n, cs[..|cs| - 1]);
      match cs[|cs| - 1]
      case Delay(_) => before
      case RateLimit(_) => before + 1
      case Drop => 0
  }

  lemma StepTally(s: State, e: Event, w: nat, k: string)
    requires Working(s, w, k) && During(e, w) && e != Finish(w)
    ensures Failures(Step(s, e).q, k)
         == Tally(Failures(s.q, k), if e.Call? && e.w == w then [e.call] else [])
  {
    assert Holds(s, w, k);
    match e
    case Call(v, c) =>
      if IsSyncing(s, v) { assert Holds(s, v, s.workers[v].key); }
      assert [c][..0] == [];
    case Finish(v) =>
      if IsSyncing(s, v) { assert Holds(s, v, s.workers[v].key); }
    case _ =>
  }

  lemma TallyOneMore(n: nat, cs: seq<Call>, d: seq<Call>)
    requires |d| <= 1
    ensures Tally(n, cs + d) == Tally(Tally(n, cs), d)
  {
    if d == [] {
      assert cs + d == cs;
    } else {
      assert (cs + d)[..|cs|] == cs && d[..0] == [];
    }
  }

  /** While a worker syncs a key, the key's failure count is what the worker's own calls make it: one more for
      every rate-limited requeue since the last time the key was forgotten, whatever others do. */
  lemma {:induction false} FailuresAreTallied(s: State, es: seq<Event>, w: nat, k: string)
    requires Working(s, w, k) && AllDuring(es, w) && Finish(w) !in es
    ensures Failures(Run(s, es).q, k) == Tally(Failures(s.q, k), OwnCalls(es, w))
  {
    hide Step, Inv, NoEmptyKey, Pending, Tally, Working;
    if es == [] {
      NoCalls(Failures(s.q, k));
    } else {
      var n := |es| - 1;
      FailuresAreTallied(s, es[..n], w, k);
      SyncPhase(s, es[..n], w, k);
      StepTally(Run(s, es[..n]), es[n], w, k);
      TallyOneMore(Failures(s.q, k), OwnCalls(es[..n], w), if es[n].Call? && es[n].w == w then [es[n].call] else []);
    }
  }

  lemma NoCalls(n: nat)
    ensures Tally(n, []) == n
  {
  }

  /** One whole `processNext` of worker `w`, interleaved with anything other workers, informers and timers
      do: `a` while `sync` runs `script`, `b` between `done()` and the deferred release. */
  ghost predicate Processing(s: State, w: nat, script: seq<Op>, a: seq<Event>, b: seq<Event>) {
    && Inv(s) && NoEmptyKey(s) && !s.q.shuttingDown && w !in s.workers && s.q.queue != []
    && CacheKeys.Split(s.q.queue[0]).Some?
    && AllDuring(a, w) && AllDuring(b, w) && Finish(w) !in a
    && OwnCalls(a, w) == ScriptCalls(script)
  }

  /** For example: one worker takes the only key, which parses, and requeues it. */
  lemma ProcessingHappens(k: string, backoff: nat)
    requires CacheKeys.Split(k).Some?
    ensures Processing(State(Queue([k], {k}, {}, map[], map[], 0, false), map[]), 0, [Requeue(backoff)],
            [Call(0, RateLimit(backoff))], [])
  {
    hide CacheKeys.Split, OwnCalls, ScriptCalls;
    EmptyKeyDoesNotParse();
    SameSingleCall(backoff);
    assert forall w, j :: !Holds(State(Queue([k], {k}, {}, map[], map[], 0, false), map[]), w, j);
  }

  lemma EmptyKeyDoesNotParse()
    ensures CacheKeys.Split("").None?
  {
  }

  lemma SameSingleCall(backoff: nat)
    ensures OwnCalls([Event.Call(0, RateLimit(backoff))], 0) == ScriptCalls([Requeue(backoff)])
  {
    assert [Event.Call(0, RateLimit(backoff))][..0] == [];
    assert [Requeue(backoff)][..0] == [];
    assert ScriptCalls([]) == [] && OwnCalls([], 0) == [];
  }

  /** No lost requeue: when processNext returns, the key is in the queue or waiting if and only if it was
      waiting when it was taken, somebody added it meanwhile, or one of the operations called by `sync` is
      a requeue, where RequeueAPIErr counts exactly when the error is retryable. Until the release the key
      was never out of `processing`, now it is, and its failure count is zero. */
  lemma NoLostRequeue(s: State, w: nat, script: seq<Op>, a: seq<Event>, b: seq<Event>)
    requires Processing(s, w, script, a, b)
    ensures var k := s.q.queue[0];
            var s' := Step(Run(Step(Run(Step(s, Get(w)), a), Finish(w)), b), Release(w));
            && (k in s'.q.queue || k in s'.q.waiting
                <==> k in s.q.waiting || Added(k) in a || Added(k) in b || AnyRequeues(script))
            && k !in s'.q.processing && Failures(s'.q, k) == 0 && Inv(s') && w !in s'.workers
  {
    hide Step, Inv, NoEmptyKey, Pending, Failures, Run, ScriptCalls, OwnCalls, CacheKeys.Split;
    var k := s.q.queue[0];
    Taken(s, w);
    var s1 := Step(s, Get(w));
    SyncPhase(s1, a, w, k);
    Finishing(Run(s1, a), w, k);
    var s2 := Step(Run(s1, a), Finish(w));
    ReleasePhase(s2, b, w, k);
    Released(Run(s2, b), w, k);
    OwnCallsAsk(a, w, k);
    ScriptAsks(script);
  }

  /** ... and at every moment in between the key is in `processing`, held by this worker alone. */
  lemma HeldThroughout(s: State, w: nat, script: seq<Op>, a: seq<Event>, b: seq<Event>, n: nat)
    requires Processing(s, w, script, a, b)
    ensures var k := s.q.queue[0];
            var s1 := Step(s, Get(w));
            var s2 := Step(Run(s1, a), Finish(w));
            && (n <= |a| ==> var t := Run(s1, a[..n]); k in t.q.processing && forall v :: Holds(t, v, k) <==> v == w)
            && (n <= |b| ==> var t := Run(s2, b[..n]); k in t.q.processing && forall v :: Holds(t, v, k) <==> v == w)
  {
    hide Step, Inv, NoEmptyKey, Pending, Failures, Run, ScriptCalls, OwnCalls, CacheKeys.Split;
    var k := s.q.queue[0];
    Taken(s, w);
    var s1 := Step(s, Get(w));
    SyncPhase(s1, a, w, k);
    Finishing(Run(s1, a), w, k);
    var s2 := Step(Run(s1, a), Finish(w));
    if n <= |a| {
      SyncPhase(s1, a[..n], w, k);
      OnlyHolder(Run(s1, a[..n]), w, k);
    }
    if n <= |b| {
      ReleasePhase(s2, b[..n], w, k);
      OnlyHolder(Run(s2, b[..n]), w, k);
    }
  }

  lemma OnlyHolder(s: State, w: nat, k: string)
    requires Working(s, w, k) || Leaving(s, w, k)
    ensures k in s.q.processing && forall v :: Holds(s, v, k) <==> v == w
  {
    assert Holds(s, w, k);
  }

  /** A key that cannot be parsed is skipped: it is released without `done()`, so its failure count stays,
      and it comes back only if it was waiting or is added meanwhile. */
  lemma SkippedKey(s: State, w: nat, b: seq<Event>)
    requires Inv(s) && NoEmptyKey(s) && !s.q.shuttingDown && w !in s.workers && s.q.queue != []
    requires CacheKeys.Split(s.q.queue[0]).None? && AllDuring(b, w)
    ensures var k := s.q.queue[0];
            var s' := Step(Run(Step(s, Get(w)), b), Release(w));
            && (k in s'.q.queue || k in s'.q.waiting <==> k in s.q.waiting || Added(k) in b)
            && k !in s'.q.processing && Failures(s'.q, k) == Failures(s.q, k) && Inv(s')
  {
    hide Step, Inv, NoEmptyKey, Pending, Failures, Run, CacheKeys.Split;
    var k := s.q.queue[0];
    Taken(s, w);
    ReleasePhase(Step(s, Get(w)), b, w, k);
    Released(Run(Step(s, Get(w)), b), w, k);
  }

  // ----- A shutdown meanwhile -----

  /** Worker `w` holds `k` while the queue is shutting down. */
  ghost predicate HeldDown(s: State, w: nat, k: string) {
    Inv(s) && NoEmptyKey(s) && s.q.shuttingDown && w in s.workers
        && (s.workers[w] == Syncing(k) || s.workers[w] == Releasing(k))
  }

  /** Any step but taking or releasing by `w`. */
  predicate Meanwhile(e: Event, w: nat) {
    e != Get(w) && e != Release(w) && e != Added("")
  }

  ghost predicate AllMeanwhile(es: seq<Event>, w: nat) {
    forall e :: e in es ==> Meanwhile(e, w)
  }

  lemma StepDown(s: State, e: Event, w: nat, k: string)
    requires HeldDown(s, w, k) && Meanwhile(e, w)
    ensures var s' := Step(s, e);
            && HeldDown(s', w, k)
            && (k in s'.q.dirty <==> k in s.q.dirty) && (k in s'.q.waiting ==> k in s.q.waiting)
            && (s.workers[w].Releasing? ==> s'.workers[w].Releasing? && Failures(s'.q, k) == Failures(s.q, k))
            && (s.workers[w].Syncing? && e != Finish(w) ==> s'.workers[w].Syncing?)
  {
    assert Holds(s, w, k);
    StepKeepsInv(s, e);
    match e
    case Get(v) =>
      if v !in s.workers && s.q.queue != [] { assert s.q.queue[0] in s.q.queue; }
    case Call(v, c) =>
      if IsSyncing(s, v) { assert Holds(s, v, s.workers[v].key); }
    case Finish(v) =>
      if IsSyncing(s, v) { assert Holds(s, v, s.workers[v].key); }
    case _ =>
  }

  /** From the shutdown on, what is due stays due and nothing becomes due or starts to wait. */
  lemma {:induction false} DownPhase(s: State, es: seq<Event>, w: nat, k: string)
    requires HeldDown(s, w, k) && AllMeanwhile(es, w)
    ensures var s' := Run(s, es);
            && HeldDown(s', w, k)
            && (k in s'.q.dirty <==> k in s.q.dirty) && (k in s'.q.waiting ==> k in s.q.waiting)
            && (s.workers[w].Releasing? ==> s'.workers[w].Releasing? && Failures(s'.q, k) == Failures(s.q, k))
            && (s.workers[w].Syncing? && Finish(w) !in es ==> s'.workers[w].Syncing?)
  {
    hide Step, Inv, NoEmptyKey, Failures, Meanwhile;
    if es != [] {
      var n := |es| - 1;
      DownPhase(s, es[..n], w, k);
      StepDown(Run(s, es[..n]), es[n], w, k);
    }
  }

  lemma DownFinished(s: State, w: nat, k: string)
    requires HeldDown(s, w, k) && s.workers[w].Syncing?
    ensures var s' := Step(s, Finish(w));
            && HeldDown(s', w, k) && s'.workers[w].Releasing? && Failures(s'.q, k) == 0
            && (k in s'.q.dirty <==> k in s.q.dirty) && (k in s'.q.waiting <==> k in s.q.waiting)
  {
    StepDown(s, Finish(w), w, k);
  }

  lemma DownReleased(s: State, w: nat, k: string)
    requires HeldDown(s, w, k) && s.workers[w].Releasing?
    ensures var s' := Step(s, Release(w));
            && Inv(s') && w !in s'.workers && k !in s'.q.processing && Failures(s'.q, k) == Failures(s.q, k)
            && (k in s'.q.queue <==> k in s.q.dirty) && (k in s'.q.waiting <==> k in s.q.waiting)
  {
    StepKeepsInv(s, Release(w));
  }

  lemma ShutDownHeld(s: State, w: nat, k: string)
    requires Working(s, w, k) || Leaving(s, w, k)
    ensures var s' := Step(s, ShutDown);
            && HeldDown(s', w, k) && s'.workers == s.workers && s'.q == s.q.(shuttingDown := true)
            && Failures(s'.q, k) == Failures(s.q, k)
  {
    StepKeepsInv(s, ShutDown);
  }

  /** The queue is shut down while `sync` runs, between `a` and `a'`. When processNext returns, the key is in the
      queue if and only if it had become due before the shutdown, and waits only if it was waiting then; and it was
      due or waiting then if and only if it was waiting when taken or was asked for before the shutdown. */
  lemma ShutdownWhileSyncing(s: State, w: nat, a: seq<Event>, a': seq<Event>, b: seq<Event>)
    requires Inv(s) && NoEmptyKey(s) && !s.q.shuttingDown && w !in s.workers && s.q.queue != []
    requires CacheKeys.Split(s.q.queue[0]).Some? && AllDuring(a, w) && Finish(w) !in a
    requires AllMeanwhile(a', w) && Finish(w) !in a' && AllMeanwhile(b, w)
    ensures var k := s.q.queue[0];
            var down := Run(Step(s, Get(w)), a);
            var s' := Step(Run(Step(Run(Step(down, ShutDown), a'), Finish(w)), b), Release(w));
            && (k in s'.q.queue <==> k in down.q.dirty) && (k in s'.q.waiting ==> k in down.q.waiting)
            && (k in down.q.dirty || k in down.q.waiting <==> k in s.q.waiting || SomeAsk(a, w, k))
            && k !in s'.q.processing && Failures(s'.q, k) == 0 && Inv(s') && w !in s'.workers
  {
    hide Step, Inv, NoEmptyKey, Failures, Run, CacheKeys.Split, AllMeanwhile, SomeAsk;
    var k := s.q.queue[0];
    Taken(s, w);
    SyncPhase(Step(s, Get(w)), a, w, k);
    var down := Run(Step(s, Get(w)), a);
    ShutDownHeld(down, w, k);
    var s1 := Step(down, ShutDown);
    DownPhase(s1, a', w, k);
    DownFinished(Run(s1, a'), w, k);
    var s2 := Step(Run(s1, a'), Finish(w));
    DownPhase(s2, b, w, k);
    DownReleased(Run(s2, b), w, k);
  }

  /** The same when the shutdown comes after `done()`, between `b` and `b'`. */
  lemma ShutdownWhileReleasing(s: State, w: nat, a: seq<Event>, b: seq<Event>, b': seq<Event>)
    requires Inv(s) && NoEmptyKey(s) && !s.q.shuttingDown && w !in s.workers && s.q.queue != []
    requires CacheKeys.Split(s.q.queue[0]).Some? && AllDuring(a, w) && Finish(w) !in a
    requires AllDuring(b, w) && AllMeanwhile(b', w)
    ensures var k := s.q.queue[0];
            var down := Run(Step(Run(Step(s, Get(w)), a), Finish(w)), b);
            var s' := Step(Run(Step(down, ShutDown), b'), Release(w));
            && (k in s'.q.queue <==> k in down.q.dirty) && (k in s'.q.waiting ==> k in down.q.waiting)
            && (k in down.q.dirty || k in down.q.waiting <==>
                  k in s.q.waiting || SomeAsk(a, w, k) || Added(k) in b)
            && k !in s'.q.processing && Failures(s'.q, k) == 0 && Inv(s') && w !in s'.workers
  {
    hide Step, Inv, NoEmptyKey, Failures, Run, CacheKeys.Split, AllMeanwhile, SomeAsk;
    var k := s.q.queue[0];
    Taken(s, w);
    SyncPhase(Step(s, Get(w)), a, w, k);
    Finishing(Run(Step(s, Get(w)), a), w, k);
    var s1 := Step(Run(Step(s, Get(w)), a), Finish(w));
    ReleasePhase(s1, b, w, k);
    var down := Run(s1, b);
    ShutDownHeld(down, w, k);
    DownPhase(Step(down, ShutDown), b', w, k);
    DownReleased(Run(Step(down, ShutDown), b'), w, k);
  }

  /** Nothing but handing it out makes a pending key stop being pending, in any run of any workers. */
  lemma {:induction false} PendingUntilTaken(s: State, es: seq<Event>, k: string)
    requires !s.q.shuttingDown && Pending(s.q, k) && ShutDown !in es
    requires forall n :: 0 <= n < |es| && es[n].Get? ==> !Takes(Run(s, es[..n]), es[n].w, k)
    ensures Pending(Run(s, es).q, k) && !Run(s, es).q.shuttingDown
  {
    hide Step, Pending, Takes;
    if es != [] {
      var n := |es| - 1;
      forall m | 0 <= m < n && es[..n][m].Get?
        ensures !Takes(Run(s, es[..n][..m]), es[..n][m].w, k)
      {
        assert es[..n][..m] == es[..m];
      }
      PendingUntilTaken(s, es[..n], k);
      PendingStep(Run(s, es[..n]), es[n], k);
    }
  }

  predicate Takes(s: State, w: nat, k: string) {
    w !in s.workers && s.q.queue != [] && s.q.queue[0] == k
  }

  lemma PendingStep(s: State, e: Event, k: string)
    requires !s.q.shuttingDown && Pending(s.q, k) && !e.ShutDown?
    requires e.Get? ==> !Takes(s, e.w, k)
    ensures Pending(Step(s, e).q, k) && !Step(s, e).q.shuttingDown
  {
    match e
    case Call(v, c) => if IsSyncing(s, v) { PerformPending(s.q, k, s.workers[v].key, c); }
    case Added(j) => AddPending(s.q, k, j);
    case Fire(j) => FirePending(s.q, k, j);
    case _ =>
  }

  // ----- What each operation leaves behind -----

  function CallEvents(w: nat, cs: seq<Call>): seq<Event> {
    if cs == [] then [] else CallEvents(w, cs[..|cs| - 1]) + [Event.Call(w, cs[|cs| - 1])]
  }

  /** The calls of an operation on the queue, with nothing in between. */
  function PerformAll(q: Queue, k: string, cs: seq<Call>): Queue {
    if cs == [] then q else Perform(PerformAll(q, k, cs[..|cs| - 1]), k, cs[|cs| - 1])
  }

  lemma {:induction false} CallsPerform(s: State, w: nat, k: string, cs: seq<Call>)
    requires w in s.workers && s.workers[w] == Syncing(k)
    ensures Run(s, CallEvents(w, cs)) == s.(q := PerformAll(s.q, k, cs))
  {
    hide Perform;
    if cs != [] {
      var n := |cs| - 1;
      CallsPerform(s, w, k, cs[..n]);
      var es, e := CallEvents(w, cs[..n]), Event.Call(w, cs[n]);
      assert (es + [e])[..|es|] == es;
      assert Run(s, es + [e]) == Step(Run(s, es), e);
    }
  }

  /** The key is due at once for a time that is not in the future, and otherwise waits for it. */
  predicate ReadyAt(q: Queue, k: string, time: int) {
    if time <= q.now then k in q.dirty else k !in q.dirty && k in q.waiting && q.waiting[k] == time
  }

  /** What the operations mean for a key that is not pending yet. Finishing leaves it alone and forgets its failures.
      A requeue, with or without an error or with a zero delay, counts a failure and makes it ready after the rate
      limiter's backoff. A requeue with a delay counts none and makes it ready after the delay. For an API error that
      is not retryable the key is dropped; for one that is, it is ready after the shorter of the suggested delay, if
      there is one, and the backoff, and the failures are forgotten. */
  lemma OperationLeaves(s: State, w: nat, k: string, op: Op)
    requires w in s.workers && s.workers[w] == Syncing(k) && !s.q.shuttingDown && !Pending(s.q, k)
    ensures var q, q' := s.q, Run(s, CallEvents(w, Calls(op))).q;
            match op
            case Finished => !Pending(q', k) && Failures(q', k) == 0
            case Requeue(b) => ReadyAt(q', k, q.now + b) && Failures(q', k) == Failures(q, k) + 1
            case RequeueErr(_, b) => ReadyAt(q', k, q.now + b) && Failures(q', k) == Failures(q, k) + 1
            case RequeueAfter(d, b) =>
              if d == 0 then ReadyAt(q', k, q.now + b) && Failures(q', k) == Failures(q, k) + 1
              else ReadyAt(q', k, q.now + d) && Failures(q', k) == Failures(q, k)
            case RequeueAPIErr(e, b) =>
              && Failures(q', k) == 0
              && (e == PERMANENT ==> !Pending(q', k))
              && (e != PERMANENT && (e.suggestedSeconds.None? || e.suggestedSeconds.value <= 0) ==>
                    ReadyAt(q', k, q.now + b))
              && (e.suggestedSeconds.Some? && e.suggestedSeconds.value > 0 ==>
                    var after := e.suggestedSeconds.value * 1_000_000_000;
                    ReadyAt(q', k, q.now + if after < b then after else b))
  {
    hide Run, CallEvents, PerformAll;
    CallsPerform(s, w, k, Calls(op));
    match op
    case RequeueAPIErr(e, b) => APIErrLeaves(s.q, k, e, b);
    case _ => PerformNone(s.q, k, Calls(op)[0]);
  }

  lemma APIErrLeaves(q: Queue, k: string, e: Error, b: nat)
    requires !q.shuttingDown && !Pending(q, k)
    ensures var q' := PerformAll(q, k, Calls(RequeueAPIErr(e, b)));
            && Failures(q', k) == 0
            && (e == PERMANENT ==> !Pending(q', k))
            && (e != PERMANENT && (e.suggestedSeconds.None? || e.suggestedSeconds.value <= 0) ==>
                  ReadyAt(q', k, q.now + b))
            && (e.suggestedSeconds.Some? && e.suggestedSeconds.value > 0 ==>
                  var after := e.suggestedSeconds.value * 1_000_000_000;
                  ReadyAt(q', k, q.now + if after < b then after else b))
  {
    hide PerformAll, ShouldRetry, Failures, Pending, ReadyAt;
    RetryCases(e);
    var after := ShouldRetry(e).1;
    DropOnly(q, k);
    LimitThenDrop(q, k, b);
    if after > 0 {
      DelayThenLimit(q, k, after, b);
    }
    assert Calls(RequeueAPIErr(e, b))
        == if e == PERMANENT then [Drop] else if after > 0 then [Delay(after), RateLimit(b), Drop]
            else [RateLimit(b), Drop];
  }

  lemma RetryCases(e: Error)
    ensures ShouldRetry(e).0 <==> e != PERMANENT
    ensures ShouldRetry(e).1 > 0 <==> e.suggestedSeconds.Some? && e.suggestedSeconds.value > 0
    ensures e.suggestedSeconds.Some? ==> ShouldRetry(e).1 == e.suggestedSeconds.value * 1_000_000_000
  {}

  lemma PerformNone(q: Queue, k: string, c: Call)
    ensures PerformAll(q, k, []) == q && PerformAll(q, k, [c]) == Perform(q, k, c)
  {
    hide Perform;
    assert [c][..0] == [];
    assert PerformAll(q, k, []) == q;
  }

  lemma PerformTwo(q: Queue, k: string, c: Call, d: Call)
    ensures PerformAll(q, k, [c, d]) == Perform(Perform(q, k, c), k, d)
  {
    hide Perform;
    PerformNone(q, k, c);
    assert [c, d][..1] == [c];
  }

  lemma DropOnly(q: Queue, k: string)
    ensures Failures(PerformAll(q, k, [Drop]), k) == 0
    ensures Pending(PerformAll(q, k, [Drop]), k) <==> Pending(q, k)
  {
    hide PerformAll;
    PerformNone(q, k, Drop);
  }

  lemma LimitThenDrop(q: Queue, k: string, b: nat)
    requires !q.shuttingDown && !Pending(q, k)
    ensures var q' := PerformAll(q, k, [RateLimit(b), Drop]);
            Failures(q', k) == 0 && ReadyAt(q', k, q.now + b)
  {
    hide PerformAll;
    PerformTwo(q, k, RateLimit(b), Drop);
  }

  lemma DelayThenLimit(q: Queue, k: string, after: int, b: nat)
    requires !q.shuttingDown && !Pending(q, k) && after > 0
    ensures var q' := PerformAll(q, k, [Delay(after), RateLimit(b), Drop]);
            Failures(q', k) == 0 && ReadyAt(q', k, q.now + if after < b then after else b)
  {
    hide PerformAll;
    PerformTwo(q, k, Delay(after), RateLimit(b));
    PerformMore(q, k, [Delay(after), RateLimit(b)], Drop);
    assert [Delay(after), RateLimit(b)] + [Drop] == [Delay(after), RateLimit(b), Drop];
  }

  lemma PerformMore(q: Queue, k: string, cs: seq<Call>, c: Call)
    ensures PerformAll(q, k, cs + [c]) == Perform(PerformAll(q, k, cs), k, c)
  {
    hide Perform;
    assert (cs + [c])[..|cs|] == cs;
  }

  // ----- Suggested delays -----

  /** The key is not due, nor going to be, before `time`. */
  predicate NotBefore(q: Queue, k: string, time: int) {
    (k in q.dirty ==> q.now >= time) && (k in q.waiting ==> q.waiting[k] >= time)
  }

  /** While a worker holds the key, only somebody adding it too early, or a call of the worker itself that
      makes it ready too early, brings the key forward. */
  lemma StepNotBefore(s: State, e: Event, w: nat, k: string, time: int)
    requires Working(s, w, k) && During(e, w) && e != Finish(w) && NotBefore(s.q, k, time)
    ensures NotBefore(Step(s, e).q, k, time) <==>
            && (e == Added(k) ==> s.q.now >= time)
            && (e.Call? && e.w == w && Asks(e.call) ==> s.q.now + DelayOf(e.call) >= time)
  {
    assert Holds(s, w, k);
    match e
    case Get(v) =>
      if v !in s.workers && s.q.queue != [] { assert s.q.queue[0] in s.q.queue; }
    case Call(v, c) =>
      if IsSyncing(s, v) { assert Holds(s, v, s.workers[v].key); }
    case _ =>
  }

  function DelayOf(c: Call): int {
    match c
    case Delay(d) => if d < 0 then 0 else d
    case RateLimit(b) => b
    case Drop => 0
  }

  /** After no step of the run is the key due before `time`. */
  ghost predicate NeverEarly(s: State, es: seq<Event>, k: string, time: int) {
    forall n :: 0 < n <= |es| ==> NotBefore(Run(s, es[..n]).q, k, time)
  }

  /** Nobody adds the key before `time`. */
  ghost predicate NotAddedBefore(s: State, es: seq<Event>, k: string, time: int) {
    forall n :: 0 <= n < |es| && es[n] == Added(k) ==> Run(s, es[..n]).q.now >= time
  }

  lemma NeverEarlyMore(s: State, es: seq<Event>, e: Event, k: string, time: int)
    ensures NeverEarly(s, es + [e], k, time) <==> NeverEarly(s, es, k, time) && NotBefore(Run(s, es + [e]).q, k, time)
  {
    hide Run, NotBefore;
    Prefixes(es, e);
  }

  lemma NotAddedMore(s: State, es: seq<Event>, e: Event, k: string, time: int)
    ensures NotAddedBefore(s, es + [e], k, time) <==>
            NotAddedBefore(s, es, k, time) && (e == Added(k) ==> Run(s, es).q.now >= time)
  {
    hide Run;
    Prefixes(es, e);
    assert (es + [e])[|es|] == e;
  }

  lemma Prefixes(es: seq<Event>, e: Event)
    ensures forall n :: 0 <= n <= |es| ==> (es + [e])[..n] == es[..n]
    ensures (es + [e])[..|es| + 1] == es + [e] && es[..|es|] == es
  {
  }

  /** In a stretch in which the worker makes no call of its own. */
  lemma {:induction false} OthersNeverEarly(s: State, es: seq<Event>, w: nat, k: string, time: int)
    requires Working(s, w, k) && AllDuring(es, w) && Finish(w) !in es && OwnCalls(es, w) == []
             && NotBefore(s.q, k, time)
    ensures NeverEarly(s, es, k, time) <==> NotAddedBefore(s, es, k, time)
    ensures NeverEarly(s, es, k, time) ==> NotBefore(Run(s, es).q, k, time)
  {
    hide Step, Inv, NoEmptyKey, NotBefore, Pending, During;
    if es != [] {
      var n := |es| - 1;
      var rest, e := es[..n], es[n];
      assert es == rest + [e];
      OthersNeverEarly(s, rest, w, k, time);
      NeverEarlyMore(s, rest, e, k, time);
      NotAddedMore(s, rest, e, k, time);
      if NeverEarly(s, rest, k, time) {
        SyncPhase(s, rest, w, k);
        StepNotBefore(Run(s, rest), e, w, k, time);
      }
    }
  }

  /** RequeueAPIErr asks for the delay the server suggested and then, falling through, for a rate-limited
      requeue. Whatever others do between the two calls, the suggested wait is kept all along if and only if
      the key was not due earlier to begin with, nobody adds it before the wait is over, and the rate
      limiter's own backoff, counted from the second call, ends no earlier. */
  lemma SuggestedDelayKept(s: State, w: nat, k: string, err: Error, es: seq<Event>, backoff: nat)
    requires Working(s, w, k) && ShouldRetry(err).0 && ShouldRetry(err).1 > 0
    requires AllDuring(es, w) && Finish(w) !in es && OwnCalls(es, w) == []
    ensures var after := ShouldRetry(err).1;
            var time := s.q.now + after;
            var s1 := Step(s, Call(w, Delay(after)));
            var s2 := Run(s1, es);
            var s3 := Step(s2, Call(w, RateLimit(backoff)));
            && Calls(RequeueAPIErr(err, backoff)) == [Delay(after), RateLimit(backoff), Drop]
            && (NotBefore(s1.q, k, time) && NeverEarly(s1, es, k, time) && NotBefore(s3.q, k, time)
                <==> NotBefore(s.q, k, time) && NotAddedBefore(s1, es, k, time) && s2.q.now + backoff >= time)
  {
    hide Step, Inv, NoEmptyKey, NotBefore, Pending, During, NeverEarly, NotAddedBefore, Run;
    var after := ShouldRetry(err).1;
    var time := s.q.now + after;
    var first, second := Event.Call(w, Delay(after)), Event.Call(w, RateLimit(backoff));
    var s1 := Step(s, first);
    assert During(first, w) && During(second, w)
           by { OwnCallsAreDuring(w, Delay(after)); OwnCallsAreDuring(w, RateLimit(backoff)); }
    StepPending(s, first, w, k);
    StepKeepsInv(s, first);
    DelayKeepsEarlier(s, w, k, after);
    if NotBefore(s.q, k, time) {
      StepNotBefore(s, first, w, k, time);
      OthersNeverEarly(s1, es, w, k, time);
      SyncPhase(s1, es, w, k);
      if NeverEarly(s1, es, k, time) {
        StepNotBefore(Run(s1, es), second, w, k, time);
      }
    }
  }

  lemma OwnCallsAreDuring(w: nat, c: Call)
    ensures During(Event.Call(w, c), w)
  {
  }

  /** Asking for a delay does not undo an earlier wake-up. */
  lemma DelayKeepsEarlier(s: State, w: nat, k: string, after: int)
    requires Working(s, w, k) && after > 0
    ensures NotBefore(Step(s, Event.Call(w, Delay(after))).q, k, s.q.now + after) ==> NotBefore(s.q, k, s.q.now + after)
  {
  }

  /** A concrete suggested delay that is not kept: the server asks for ten seconds, the rate limiter's first
      backoff is five milliseconds, and nothing happens in between. */
  lemma SuggestedDelayLost(s: State, w: nat, k: string)
    requires Working(s, w, k) && k !in s.q.dirty && k !in s.q.waiting
    ensures var err := PERMANENT.(suggestedSeconds := Some(10));
            var s1 := Step(s, Call(w, Delay(ShouldRetry(err).1)));
            var s2 := Step(s1, Call(w, RateLimit(5_000_000)));
            && k in s1.q.waiting && s1.q.waiting[k] == s.q.now + 10 * SECOND
            && k in s2.q.waiting && s2.q.waiting[k] == s.q.now + 5_000_000
  {}
}
