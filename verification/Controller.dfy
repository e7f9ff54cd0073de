/** One call of `processNext` by one worker, with the queue operations it hands to `sync`, while other
    workers, informers and timers act on the same queue between any two of its calls. */
module Controller {

  import opened Options
  import opened WorkQueue
  import CacheKeys

  /** Not a step of worker `w`. */
  predicate Foreign(e: Event, w: nat) {
    match e
    case Get(v) => v != w
    case Call(v, _) => v != w
    case Finish(v) => v != w
    case Release(v) => v != w
    case _ => true
  }

  ghost predicate AllForeign(es: seq<Event>, w: nat) {
    forall e :: e in es ==> Foreign(e, w)
  }

  /** What can be in the log while `sync` runs: foreign steps and this worker's own queue calls. */
  ghost predicate Quiet(es: seq<Event>, w: nat) {
    forall e :: e in es ==> Foreign(e, w) || (e.Call? && e.w == w)
  }

  lemma {:induction false} OwnCallsConcat(a: seq<Event>, b: seq<Event>, w: nat)
    ensures OwnCalls(a + b, w) == OwnCalls(a, w) + OwnCalls(b, w)
  {
    if b == [] {
      assert a + b == a;
    } else {
      var n := |b| - 1;
      OwnCallsConcat(a, b[..n], w);
      assert (a + b)[..|a + b| - 1] == a + b[..n];
    }
  }

  lemma {:induction false} ForeignCalls(es: seq<Event>, w: nat)
    requires AllForeign(es, w)
    ensures OwnCalls(es, w) == []
  {
    if es != [] {
      var n := |es| - 1;
      ForeignCalls(es[..n], w);
      assert es[n] in es;
    }
  }

  lemma OneCall(c: Call, w: nat)
    ensures OwnCalls([Event.Call(w, c)], w) == [c]
  {
    assert [Event.Call(w, c)][..0] == [];
  }

  /** The shared queue. `schedule` says what everybody else does before each of this worker's calls; the
      log records the steps since `base`. */
  class SharedQueue {
    const w: nat
    var state: State
    var schedule: seq<seq<Event>>
    ghost var base: State
    ghost var log: seq<Event>

    ghost predicate Valid() reads this {
      && state == Run(base, log)
      && Quiet(log, w)
      && (forall i :: 0 <= i < |schedule| ==> AllForeign(schedule[i], w))
    }

    constructor (w: nat, state: State, schedule: seq<seq<Event>>)
      requires forall i :: 0 <= i < |schedule| ==> AllForeign(schedule[i], w)
      ensures Valid() && this.w == w && this.state == state && this.schedule == schedule
    {
      this.w, this.state, this.schedule := w, state, schedule;
      base, log := state, [];
    }

    ghost method Mark()
      requires forall i :: 0 <= i < |schedule| ==> AllForeign(schedule[i], w)
      modifies this`base, this`log
      ensures Valid() && base == state && log == []
    {
      base, log := state, [];
    }

    /** Everybody else takes a turn. */
    method Interfere()
      requires Valid()
      modifies this
      ensures Valid() && base == old(base)
      ensures exists es :: AllForeign(es, w) && log == old(log) + es
      ensures OwnCalls(log, w) == old(OwnCalls(log, w))
    {
      var es := if schedule == [] then [] else schedule[0];
      schedule := if schedule == [] then [] else schedule[1..];
      ghost var start := state;
      for i := 0 to |es|
        invariant state == Run(start, es[..i])
        invariant base == old(base) && log == old(log)
                  && schedule == if old(schedule) == [] then [] else old(schedule)[1..]
      {
        state := Step(state, es[i]);
        assert es[..i + 1][..i] == es[..i];
      }
      assert es[..|es|] == es;
      RunConcat(base, log, es);
      OwnCallsConcat(log, es, w);
      ForeignCalls(es, w);
      log := log + es;
    }

    /** A call on the queue for the key this worker is syncing. */
    method Perform(c: Call)
      requires Valid()
      modifies this
      ensures Valid() && base == old(base)
      ensures OwnCalls(log, w) == old(OwnCalls(log, w)) + [c]
    {
      Interfere();
      var e := Event.Call(w, c);
      OwnCallsConcat(log, [e], w);
      OneCall(c, w);
      RunConcat(base, log, [e]);
      assert Run(state, [e]) == Step(Run(state, [e][..0]), e);
      state := Step(state, e);
      log := log + [e];
    }

    /** A step that ends a phase of this worker; the log starts again after it. */
    method Turn(e: Event) returns (ghost es: seq<Event>)
      requires Valid()
      modifies this
      ensures Valid() && state == Step(Run(old(base), es), e) && base == state && log == []
      ensures Quiet(es, w) && OwnCalls(es, w) == old(OwnCalls(log, w))
      ensures exists f :: AllForeign(f, w) && es == old(log) + f
    {
      hide OwnCalls, Run, Step;
      Interfere();
      es := log;
      state := Step(state, e);
      Mark();
    }
  }

  /** The controls that `sync` finds in its context. */
  class Operations {
    const queue: SharedQueue
    var cancelled: bool
    var err: Option<Error>

    constructor (queue: SharedQueue)
      ensures this.queue == queue && !cancelled && err == None
    {
      this.queue := queue;
      cancelled, err := false, None;
    }

    /** processNext's `requeue` closure. */
    method RequeueCallback(delay: int, backoff: nat)
      requires queue.Valid()
      modifies this`cancelled, queue
      ensures queue.Valid() && queue.base == old(queue.base) && cancelled
      ensures OwnCalls(queue.log, queue.w) == old(OwnCalls(queue.log, queue.w)) + RequeueCalls(delay, backoff)
    {
      cancelled := true;
      if delay == 0 {
        queue.Perform(RateLimit(backoff));
      } else {
        queue.Perform(Delay(delay));
      }
    }

    method Done()
      requires queue.Valid()
      modifies this`cancelled, queue
      ensures queue.Valid() && queue.base == old(queue.base) && cancelled
      ensures OwnCalls(queue.log, queue.w) == old(OwnCalls(queue.log, queue.w)) + Calls(Finished)
    {
      cancelled := true;
      queue.Perform(Drop);
    }

    method RequeueAfter(delay: int, backoff: nat)
      requires queue.Valid()
      modifies this`cancelled, queue
      ensures queue.Valid() && queue.base == old(queue.base) && cancelled
      ensures OwnCalls(queue.log, queue.w) == old(OwnCalls(queue.log, queue.w)) + Calls(Op.RequeueAfter(delay, backoff))
    {
      RequeueCallback(delay, backoff);
      cancelled := true;
    }

    method Requeue(backoff: nat)
      requires queue.Valid()
      modifies this`cancelled, queue
      ensures queue.Valid() && queue.base == old(queue.base) && cancelled
      ensures OwnCalls(queue.log, queue.w) == old(OwnCalls(queue.log, queue.w)) + Calls(Op.Requeue(backoff))
    {
      RequeueCallback(0, backoff);
      cancelled := true;
    }

    method RequeueErr(e: Error, backoff: nat)
      requires queue.Valid()
      modifies this, queue
      ensures queue.Valid() && queue.base == old(queue.base) && cancelled && err == Some(e)
      ensures OwnCalls(queue.log, queue.w) == old(OwnCalls(queue.log, queue.w)) + Calls(Op.RequeueErr(e, backoff))
    {
      err := Some(e);
      RequeueCallback(0, backoff);
      cancelled := true;
    }

    /** Every branch falls through to the next one, so the key is always forgotten last. */
    method RequeueAPIErr(e: Error, backoff: nat)
      requires queue.Valid()
      modifies this, queue
      ensures queue.Valid() && queue.base == old(queue.base) && cancelled && err == Some(e)
      ensures OwnCalls(queue.log, queue.w) == old(OwnCalls(queue.log, queue.w)) + Calls(Op.RequeueAPIErr(e, backoff))
    {
      hide OwnCalls, ScriptCalls, Run, Quiet;
      err := Some(e);
      var (retry, after) := ShouldRetry(e);
      if retry && after > 0 {
        RequeueAfter(after, backoff);
      }
      if retry {
        Requeue(backoff);
      }
      Done();
      cancelled := true;
    }

    method Call(op: Op)
      requires queue.Valid()
      modifies this, queue
      ensures queue.Valid() && queue.base == old(queue.base) && cancelled
      ensures OwnCalls(queue.log, queue.w) == old(OwnCalls(queue.log, queue.w)) + Calls(op)
      ensures err == if op.RequeueErr? || op.RequeueAPIErr? then Some(op.err) else old(err)
    {
      match op
      case Finished => Done();
      case RequeueAfter(d, b) => RequeueAfter(d, b);
      case Requeue(b) => Requeue(b);
      case RequeueErr(e, b) => RequeueErr(e, b);
      case RequeueAPIErr(e, b) => RequeueAPIErr(e, b);
    }
  }

  /** Sync calls some operations, in some order. */
  method Sync(ops: Operations, script: seq<Op>)
    requires ops.queue.Valid() && ops.queue.log == [] && !ops.cancelled && ops.err == None
    modifies ops, ops.queue
    ensures ops.queue.Valid() && ops.queue.base == old(ops.queue.base)
    ensures OwnCalls(ops.queue.log, ops.queue.w) == ScriptCalls(script)
    ensures ops.err == LastError(script) && (ops.cancelled <==> script != [])
  {
    for i := 0 to |script|
      invariant ops.queue.Valid() && ops.queue.base == old(ops.queue.base)
      invariant OwnCalls(ops.queue.log, ops.queue.w) == ScriptCalls(script[..i])
      invariant ops.err == LastError(script[..i]) && (ops.cancelled <==> i > 0)
    {
      ops.Call(script[i]);
      assert script[..i + 1][..i] == script[..i];
    }
    assert script[..|script|] == script;
  }

  /** How processNext ends: it is still blocked in Get, the queue has shut down, the key was skipped, or
      `sync` ran on it. */
  datatype Outcome =
    | Blocked
    | Quit
    | Skipped(key: string)
    | Processed(key: string, cancelled: bool, err: Option<Error>)

  /** The run of one processNext: `lead` before Get, `a` during sync, `b` between done() and the release. */
  datatype Trace = Trace(lead: seq<Event>, a: seq<Event>, b: seq<Event>)

  ghost function Whole(s: State, w: nat, t: Trace): State {
    Step(Run(Step(Run(Step(Run(s, t.lead), Get(w)), t.a), Finish(w)), t.b), Release(w))
  }

  ghost function Short(s: State, w: nat, t: Trace): State {
    Step(Run(Step(Run(s, t.lead), Get(w)), t.b), Release(w))
  }

  method ProcessNext(queue: SharedQueue, script: seq<Op>) returns (r: Outcome, ghost t: Trace)
    requires queue.Valid() && queue.w !in queue.state.workers
    modifies queue
    ensures AllForeign(t.lead, queue.w) && Quiet(t.a, queue.w) && AllForeign(t.b, queue.w)
    ensures var s := Run(old(queue.state), t.lead);
            match r
            case Blocked => queue.state == s && s.q.queue == [] && !s.q.shuttingDown
            case Quit => queue.state == Short(old(queue.state), queue.w, t) && s.q.queue == [] && s.q.shuttingDown
            case Skipped(key) =>
              && queue.state == Short(old(queue.state), queue.w, t)
              && s.q.queue != [] && key == s.q.queue[0] && CacheKeys.Split(key).None?
            case Processed(key, cancelled, err) =>
              && queue.state == Whole(old(queue.state), queue.w, t)
              && s.q.queue != [] && key == s.q.queue[0] && CacheKeys.Split(key).Some?
              && OwnCalls(t.a, queue.w) == ScriptCalls(script)
              && cancelled && err == LastError(script)
    ensures r.Processed? && Processing(Run(old(queue.state), t.lead), queue.w, script, t.a, t.b) ==>
              var q, k := queue.state.q, r.key;
              && (k in q.queue || k in q.waiting <==>
                    || k in Run(old(queue.state), t.lead).q.waiting
                    || Added(k) in t.a || Added(k) in t.b || AnyRequeues(script))
              && k !in q.processing && Failures(q, k) == 0
  {
    hide OwnCalls, ScriptCalls, Run, Step, Inv, CacheKeys.Split, Quiet, AllDuring;
    var w := queue.w;
    t := Trace([], [], []);
    queue.Mark();
    queue.Interfere();
    t := t.(lead := queue.log);
    assert AllForeign(queue.log, w);
    var q := queue.state.q;
    if q.queue == [] && !q.shuttingDown {
      return Blocked, t;
    }
    queue.state := Step(queue.state, Get(w));
    queue.Mark();
    ghost var es;
    if q.queue == [] {
      es := queue.Turn(Release(w));
      t := t.(b := es);
      return Quit, t;
    }
    var key := q.queue[0];
    if CacheKeys.Split(key).None? {
      es := queue.Turn(Release(w));
      t := t.(b := es);
      return Skipped(key), t;
    }
    var ops := new Operations(queue);
    Sync(ops, script);
    ops.cancelled := true;
    es := queue.Turn(Finish(w));
    t := t.(a := es);
    es := queue.Turn(Release(w));
    t := t.(b := es);
    r := Processed(key, ops.cancelled, ops.err);
    ghost var s := Run(old(queue.state), t.lead);
    if Processing(s, w, script, t.a, t.b) {
      NoLostRequeue(s, w, script, t.a, t.b);
    }
  }
}
