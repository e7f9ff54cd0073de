/** The controller manager: Start, Go, Cancel, the goroutines they launch and the shutdown drain, as
    critical sections that interleave in any order. */
module Lifecycle {

  import opened Options

  type Controller = string

  /** A goroutine made by Go for one controller: launched, its context made, its cancel function put into
      `cancelFuncs` and the controller running, or the controller's Start returned. */
  datatype Phase = Launched | Created | Registered | Returned

  /** `done`: its context is cancelled. `stopped`: its own cancel function was called. */
  datatype Run = Run(controller: Controller, phase: Phase, done: bool, stopped: bool)

  /** A Go call in its loop: the controllers still to launch, and whether the context check comes first. */
  datatype GoCall = GoCall(rest: seq<Controller>, check: bool)

  /** A Cancel call on one controller, after reading `cancelFuncs` and, later, after calling what it found. */
  datatype CancelCall = CancelCall(controller: Controller, found: Option<nat>, called: bool)

  /** A run is named by its index. `cancelFuncs` maps a controller to the run whose cancel function it holds. */
  datatype State = State(
    started: bool,
    rootDone: bool,
    runs: seq<Run>,
    cancelFuncs: map<Controller, nat>,
    gos: map<nat, GoCall>,
    cancels: map<nat, CancelCall>,
    drained: bool)

  const FRESH := State(false, false, [], map[], map[], map[], false)

  datatype Event =
    | Init(parentDone: bool)
    | Begin(t: nat, controllers: seq<Controller>)
    | Launch(t: nat)
    | Check(t: nat)
    | Create(run: nat)
    | Register(run: nat)
    | Return(run: nat)
    | Look(t: nat, controller: Controller)
    | Stop(t: nat)
    | Delete(t: nat)
    | RootCancel
    | Drain

  predicate HasContext(r: Run) {
    r.phase != Launched
  }

  predicate IsRegistered(r: Run) {
    r.phase == Registered || r.phase == Returned
  }

  /** Calling a run's cancel function. */
  function StopRun(runs: seq<Run>, r: nat): seq<Run> {
    if r < |runs| then runs[r := runs[r].(done := true, stopped := true)] else runs
  }

  /** Cancelling a context cancels every context derived from it so far. */
  function CancelAll(runs: seq<Run>): seq<Run> {
    seq(|runs|, i requires 0 <= i < |runs| => if HasContext(runs[i]) then runs[i].(done := true) else runs[i])
  }

  /** Calling every registered cancel function. */
  function StopAll(runs: seq<Run>, rs: set<nat>): seq<Run> {
    seq(|runs|, i requires 0 <= i < |runs| => if i in rs then runs[i].(done := true, stopped := true) else runs[i])
  }

  function LookUp(m: map<Controller, nat>, c: Controller): Option<nat> {
    if c in m then Some(m[c]) else None
  }

  predicate InPhase(s: State, r: nat, p: Phase) {
    r < |s.runs| && s.runs[r].phase == p
  }

  /** Can this step be taken now? */
  predicate Enabled(s: State, e: Event) {
    match e
    case Init(_) => !s.started
    case Begin(t, _) => s.started && t !in s.gos
    case Launch(t) => t in s.gos && !s.gos[t].check && s.gos[t].rest != []
    case Check(t) => t in s.gos && (s.gos[t].check || s.gos[t].rest == [])
    case Create(r) => InPhase(s, r, Launched)
    case Register(r) => InPhase(s, r, Created)
    case Return(r) => InPhase(s, r, Registered)
    case Look(t, _) => t !in s.cancels
    case Stop(t) => t in s.cancels && !s.cancels[t].called
    case Delete(t) => t in s.cancels && s.cancels[t].called
    case RootCancel => s.started
    case Drain => s.rootDone && !s.drained
  }

  function NextRuns(s: State, e: Event): seq<Run>
    requires Enabled(s, e)
  {
    match e
    case Launch(t) => s.runs + [Run(s.gos[t].rest[0], Launched, false, false)]
    case Create(r) => s.runs[r := s.runs[r].(phase := Created, done := s.rootDone)]
    case Register(r) => s.runs[r := s.runs[r].(phase := Registered)]
    case Return(r) => s.runs[r := s.runs[r].(phase := Returned)]
    case Stop(t) => if s.cancels[t].found.Some? then StopRun(s.runs, s.cancels[t].found.value) else s.runs
    case RootCancel => CancelAll(s.runs)
    case Drain => StopAll(s.runs, s.cancelFuncs.Values)
    case _ => s.runs
  }

  function NextFuncs(s: State, e: Event): map<Controller, nat>
    requires Enabled(s, e)
  {
    match e
    case Register(r) => s.cancelFuncs[s.runs[r].controller := r]
    case Delete(t) => s.cancelFuncs - {s.cancels[t].controller}
    case Drain => map[]
    case _ => s.cancelFuncs
  }

  /** Go launches one controller after the other and gives up after a launch when the context is done. */
  function NextGos(s: State, e: Event): map<nat, GoCall>
    requires Enabled(s, e)
  {
    match e
    case Begin(t, cs) => s.gos[t := GoCall(cs, false)]
    case Launch(t) => s.gos[t := GoCall(s.gos[t].rest[1..], true)]
    case Check(t) => if !s.gos[t].check || s.rootDone then s.gos - {t} else s.gos[t := s.gos[t].(check := false)]
    case _ => s.gos
  }

  function NextCancels(s: State, e: Event): map<nat, CancelCall>
    requires Enabled(s, e)
  {
    match e
    case Look(t, c) => s.cancels[t := CancelCall(c, LookUp(s.cancelFuncs, c), false)]
    case Stop(t) => s.cancels[t := s.cancels[t].(called := true)]
    case Delete(t) => s.cancels - {t}
    case _ => s.cancels
  }

  /** One critical section or context operation; a step that is not enabled does nothing. */
  function Step(s: State, e: Event): State {
    if !Enabled(s, e) then s
    else
      State(
        s.started || e.Init?,
        if e.Init? then e.parentDone else s.rootDone || e.RootCancel?,
        NextRuns(s, e), NextFuncs(s, e), NextGos(s, e), NextCancels(s, e),
        s.drained || e.Drain?)
  }

  function RunAll(s: State, es: seq<Event>): State {
    if es == [] then s else Step(RunAll(s, es[..|es| - 1]), es[|es| - 1])
  }

  // ----- What holds in every run -----

  ghost predicate IsRunOf(runs: seq<Run>, r: nat, c: Controller) {
    r < |runs| && IsRegistered(runs[r]) && runs[r].controller == c
  }

  /** The registry holds registered runs, each under its own controller. */
  ghost predicate RegistryOk(s: State) {
    forall c :: c in s.cancelFuncs ==> IsRunOf(s.runs, s.cancelFuncs[c], c)
  }

  /** An in-flight Cancel has found a run of its controller, which is stopped once it was called. */
  ghost predicate CancelOk(runs: seq<Run>, call: CancelCall) {
    call.found.Some? ==>
      && IsRunOf(runs, call.found.value, call.controller)
      && (call.called ==> runs[call.found.value].stopped)
  }

  ghost predicate CancelsOk(s: State) {
    forall t :: t in s.cancels ==> CancelOk(s.runs, s.cancels[t])
  }

  /** Cancellation reaches every context below a cancelled one. */
  ghost predicate RunOk(r: Run, rootDone: bool) {
    && (r.stopped ==> IsRegistered(r) && r.done)
    && (rootDone && HasContext(r) ==> r.done)
  }

  ghost predicate TreeOk(s: State) {
    && (!s.started ==> s.runs == [] && s.gos == map[] && !s.rootDone)
    && (forall i :: 0 <= i < |s.runs| ==> RunOk(s.runs[i], s.rootDone))
  }

  ghost predicate Sound(s: State) {
    RegistryOk(s) && CancelsOk(s) && TreeOk(s)
  }

  /** Runs never disappear, change controller, or get undone. */
  ghost predicate Later(a: Run, b: Run) {
    && b.controller == a.controller
    && (IsRegistered(a) ==> IsRegistered(b))
    && (HasContext(a) ==> HasContext(b))
    && (a.stopped ==> b.stopped)
    && (a.done && HasContext(a) ==> b.done)
  }

  ghost predicate Extends(a: seq<Run>, b: seq<Run>) {
    |a| <= |b| && forall i :: 0 <= i < |a| ==> Later(a[i], b[i])
  }

  lemma StepLater(s: State, e: Event, i: nat)
    requires i < |s.runs|
    ensures i < |Step(s, e).runs| && Later(s.runs[i], Step(s, e).runs[i])
  {
    hide NextFuncs, NextGos, NextCancels;
  }

  lemma StepExtends(s: State, e: Event)
    ensures Extends(s.runs, Step(s, e).runs)
  {
    hide Step, Later;
    forall i: nat | i < |s.runs|
      ensures i < |Step(s, e).runs| && Later(s.runs[i], Step(s, e).runs[i])
    {
      StepLater(s, e, i);
    }
    if |s.runs| > 0 {
      StepLater(s, e, |s.runs| - 1);
    }
  }

  /** Only registering puts something into the registry. */
  lemma StepFuncs(s: State, e: Event, c: Controller)
    requires c in Step(s, e).cancelFuncs
    ensures var s' := Step(s, e);
            || (c in s.cancelFuncs && s'.cancelFuncs[c] == s.cancelFuncs[c])
            || (e.Register? && s'.cancelFuncs[c] == e.run && IsRunOf(s'.runs, e.run, c))
  {
    hide NextGos, NextCancels;
  }

  lemma StepRegistry(s: State, e: Event)
    requires RegistryOk(s)
    ensures RegistryOk(Step(s, e))
  {
    hide Step, IsRegistered, HasContext;
    StepExtends(s, e);
    var s' := Step(s, e);
    forall c | c in s'.cancelFuncs
      ensures IsRunOf(s'.runs, s'.cancelFuncs[c], c)
    {
      StepFuncs(s, e, c);
    }
  }

  /** An in-flight Cancel was there before, has just read the registry, or has just made its call. */
  lemma StepCalls(s: State, e: Event, t: nat)
    requires t in Step(s, e).cancels
    ensures var s' := Step(s, e);
            || (t in s.cancels && s'.cancels[t] == s.cancels[t])
            || (e.Look? && s'.cancels[t] == CancelCall(e.controller, LookUp(s.cancelFuncs, e.controller), false))
            || (e.Stop? && t in s.cancels && s'.cancels[t] == s.cancels[t].(called := true)
                && (s.cancels[t].found.Some? && s.cancels[t].found.value < |s.runs| ==>
                      |s'.runs| == |s.runs| && s'.runs[s.cancels[t].found.value].stopped))
  {
    hide NextGos, NextFuncs;
  }

  lemma StepCancels(s: State, e: Event)
    requires RegistryOk(s) && CancelsOk(s)
    ensures CancelsOk(Step(s, e))
  {
    hide Step, IsRegistered, HasContext;
    StepExtends(s, e);
    var s' := Step(s, e);
    forall t | t in s'.cancels
      ensures CancelOk(s'.runs, s'.cancels[t])
    {
      StepCalls(s, e, t);
    }
  }

  lemma StepRunOk(s: State, e: Event, i: nat)
    requires Sound(s) && i < |Step(s, e).runs|
    ensures RunOk(Step(s, e).runs[i], Step(s, e).rootDone)
  {
    hide NextFuncs, NextGos, NextCancels;
    if i < |s.runs| {
      assert RunOk(s.runs[i], s.rootDone);
    }
  }

  lemma StepKeepsSound(s: State, e: Event)
    requires Sound(s)
    ensures Sound(Step(s, e))
  {
    StepRegistry(s, e);
    StepCancels(s, e);
    forall i | 0 <= i < |Step(s, e).runs|
      ensures RunOk(Step(s, e).runs[i], Step(s, e).rootDone)
    {
      StepRunOk(s, e, i);
    }
  }

  lemma {:induction false} RunKeepsSound(s: State, es: seq<Event>)
    requires Sound(s)
    ensures Sound(RunAll(s, es))
  {
    if es != [] {
      RunKeepsSound(s, es[..|es| - 1]);
      StepKeepsSound(RunAll(s, es[..|es| - 1]), es[|es| - 1]);
    }
  }

  /** Once the root context is cancelled no run has a live context, however the calls interleave, and
      neither has a run that makes its context or registers later. */
  lemma NothingLiveAfterRoot(es: seq<Event>, i: nat)
    requires var s := RunAll(FRESH, es); s.rootDone && i < |s.runs| && HasContext(s.runs[i])
    ensures RunAll(FRESH, es).runs[i].done
  {
    RunKeepsSound(FRESH, es);
    var s := RunAll(FRESH, es);
    assert RunOk(s.runs[i], s.rootDone);
  }

  /** Start has an effect the first time only: it makes the root context, done at once if the caller's is. Once the
      caller's context is cancelled or the group fails, the root is done, and with it every context there is. The
      drain waits for that. */
  lemma RootExactly(s: State, parentDone: bool)
    requires Sound(s)
    ensures s.started ==> Step(s, Init(parentDone)) == s
    ensures !s.started ==> Step(s, Init(parentDone)).started && Step(s, Init(parentDone)).rootDone == parentDone
    ensures s.started ==> Step(s, RootCancel).rootDone
    ensures !s.rootDone ==> Step(s, Drain) == s
    ensures s.started ==> forall i :: 0 <= i < |Step(s, RootCancel).runs| ==>
              (HasContext(Step(s, RootCancel).runs[i]) ==> Step(s, RootCancel).runs[i].done)
  {}

  // ----- The registry reaches every run -----

  /** Can the drain, or a Cancel that starts now, stop this run if it is not stopped yet? */
  ghost predicate Reached(s: State, i: nat)
    requires i < |s.runs|
  {
    var r := s.runs[i];
    IsRegistered(r) && !r.stopped ==> r.controller in s.cancelFuncs && s.cancelFuncs[r.controller] == i
  }

  ghost predicate Tracked(s: State) {
    forall i: nat :: i < |s.runs| ==> Reached(s, i)
  }

  /** Does the registry entry for `c`, if any, belong to a run that was stopped? */
  ghost predicate EntryDead(s: State, c: Controller) {
    c in s.cancelFuncs && s.cancelFuncs[c] < |s.runs| ==> s.runs[s.cancelFuncs[c]].stopped
  }

  /** The two steps that can lose a run are overwriting and deleting an entry that is still needed. */
  ghost predicate Harmless(s: State, e: Event) {
    Enabled(s, e) ==>
      match e
      case Register(r) => EntryDead(s, s.runs[r].controller)
      case Delete(t) => EntryDead(s, s.cancels[t].controller)
      case _ => true
  }

  lemma StepReached(s: State, e: Event, i: nat)
    requires Sound(s) && Tracked(s) && Harmless(s, e) && i < |Step(s, e).runs|
    ensures Reached(Step(s, e), i)
  {
    hide NextGos, NextCancels, CancelsOk, TreeOk;
    if i < |s.runs| {
      assert Reached(s, i);
    }
  }

  lemma HarmfulLoses(s: State, e: Event)
    requires Sound(s) && Tracked(s) && !Harmless(s, e)
    ensures !Tracked(Step(s, e))
  {
    hide NextGos, NextCancels, CancelsOk, TreeOk;
    var c := if e.Register? then s.runs[e.run].controller else s.cancels[e.t].controller;
    assert IsRunOf(s.runs, s.cancelFuncs[c], c);
    assert !Reached(Step(s, e), s.cancelFuncs[c]);
  }

  /** Exactly the harmless steps keep every unstopped run within reach. */
  lemma StepKeepsTracked(s: State, e: Event)
    requires Sound(s) && Tracked(s)
    ensures Tracked(Step(s, e)) <==> Harmless(s, e)
  {
    hide Step, Enabled, Harmless, Reached, Sound;
    if Harmless(s, e) {
      forall i: nat | i < |Step(s, e).runs|
        ensures Reached(Step(s, e), i)
      {
        StepReached(s, e, i);
      }
    } else {
      HarmfulLoses(s, e);
    }
  }

  // ----- The callers' discipline -----

  ghost predicate NoDup(cs: seq<Controller>) {
    forall i, j :: 0 <= i < j < |cs| ==> cs[i] != cs[j]
  }

  /** Has `c` been handed to Go before? */
  ghost predicate Known(s: State, c: Controller) {
    || (exists i :: 0 <= i < |s.runs| && s.runs[i].controller == c)
    || (exists t :: t in s.gos && c in s.gos[t].rest)
  }

  /** What the manager needs of its callers: each controller is added once, and no Cancel of a controller
      is in flight when that controller registers. */
  ghost predicate Discipline(s: State, e: Event) {
    match e
    case Begin(_, cs) => NoDup(cs) && forall c :: c in cs ==> !Known(s, c)
    case Register(r) => r < |s.runs| ==> forall t :: t in s.cancels ==> s.cancels[t].controller != s.runs[r].controller
    case _ => true
  }

  ghost predicate DistinctRuns(s: State) {
    forall i, j :: 0 <= i < j < |s.runs| ==> s.runs[i].controller != s.runs[j].controller
  }

  ghost predicate DistinctPending(s: State) {
    && (forall t :: t in s.gos ==> NoDup(s.gos[t].rest))
    && (forall t, i :: t in s.gos && 0 <= i < |s.runs| ==> s.runs[i].controller !in s.gos[t].rest)
    && (forall t, u, c :: t in s.gos && u in s.gos && t != u && c in s.gos[t].rest ==> c !in s.gos[u].rest)
  }

  /** What an in-flight Cancel has read is still what the registry says, unless the entry is gone. */
  ghost predicate CancelCurrent(s: State, t: nat)
    requires t in s.cancels
  {
    var call := s.cancels[t];
    call.controller in s.cancelFuncs ==> call.found == Some(s.cancelFuncs[call.controller])
  }

  ghost predicate Disciplined(s: State) {
    && DistinctRuns(s) && DistinctPending(s)
    && (forall t :: t in s.cancels ==> CancelCurrent(s, t))
  }

  lemma DisciplineIsHarmless(s: State, e: Event)
    requires Sound(s) && Disciplined(s) && Discipline(s, e)
    ensures Harmless(s, e)
  {
    hide TreeOk, DistinctPending;
    if Enabled(s, e) {
      match e
      case Register(r) => assert RegistryOk(s);
      case Delete(t) => assert CancelCurrent(s, t) && CancelOk(s.runs, s.cancels[t]);
      case _ =>
    }
  }

  lemma StepCurrent(s: State, e: Event, t: nat)
    requires Disciplined(s) && Discipline(s, e) && t in Step(s, e).cancels
    ensures CancelCurrent(Step(s, e), t)
  {
    hide NextGos, DistinctPending, DistinctRuns;
    if t in s.cancels {
      assert CancelCurrent(s, t);
    }
  }

  lemma ControllersStay(s: State, e: Event)
    ensures var s' := Step(s, e);
            && |s.runs| <= |s'.runs|
            && (forall i :: 0 <= i < |s.runs| ==> s'.runs[i].controller == s.runs[i].controller)
            && (|s'.runs| == |s.runs|
                || (e.Launch? && Enabled(s, e) && |s'.runs| == |s.runs| + 1
                    && s'.runs[|s.runs|].controller == s.gos[e.t].rest[0]))
  {
    hide NextFuncs, NextGos, NextCancels;
  }

  lemma StepDistinctRuns(s: State, e: Event)
    requires DistinctRuns(s) && DistinctPending(s)
    ensures DistinctRuns(Step(s, e))
  {
    hide Step;
    ControllersStay(s, e);
  }

  lemma StepGos(s: State, e: Event, t: nat)
    requires t in Step(s, e).gos
    ensures var s' := Step(s, e);
            || (t in s.gos && s'.gos[t].rest == s.gos[t].rest && !(Enabled(s, e) && e == Launch(t)))
            || (e.Begin? && e.t == t && t !in s.gos && s'.gos[t].rest == e.controllers)
            || (e == Launch(t) && Enabled(s, e) && s'.gos[t].rest == s.gos[t].rest[1..])
  {
    hide NextFuncs, NextRuns, NextCancels;
  }

  lemma StepPendingRuns(s: State, e: Event, t: nat, i: nat)
    requires DistinctPending(s) && Discipline(s, e) && t in Step(s, e).gos && i < |Step(s, e).runs|
    ensures Step(s, e).runs[i].controller !in Step(s, e).gos[t].rest
  {
    hide Step;
    ControllersStay(s, e);
    StepGos(s, e, t);
    if i < |s.runs| {
      assert Known(s, s.runs[i].controller);
    } else {
      assert NoDup(s.gos[e.t].rest);
      assert s.gos[e.t].rest[0] in s.gos[e.t].rest;
    }
  }

  lemma StepPendingPairs(s: State, e: Event, t: nat, u: nat, c: Controller)
    requires DistinctPending(s) && Discipline(s, e)
    requires t in Step(s, e).gos && u in Step(s, e).gos && t != u && c in Step(s, e).gos[t].rest
    ensures c !in Step(s, e).gos[u].rest
  {
    hide Step;
    assert forall v :: v in s.gos && c in s.gos[v].rest ==> Known(s, c);
    StepGos(s, e, t);
    StepGos(s, e, u);
  }

  lemma StepPendingNoDup(s: State, e: Event, t: nat)
    requires DistinctPending(s) && Discipline(s, e) && t in Step(s, e).gos
    ensures NoDup(Step(s, e).gos[t].rest)
  {
    hide Step;
    StepGos(s, e, t);
  }

  lemma StepKeepsDisciplined(s: State, e: Event)
    requires Disciplined(s) && Discipline(s, e)
    ensures Disciplined(Step(s, e))
  {
    hide Step, CancelCurrent, DistinctRuns, NoDup, Discipline;
    var s' := Step(s, e);
    StepDistinctRuns(s, e);
    forall t | t in s'.cancels ensures CancelCurrent(s', t) { StepCurrent(s, e, t); }
    forall t | t in s'.gos ensures NoDup(s'.gos[t].rest) { StepPendingNoDup(s, e, t); }
    forall t, i: nat | t in s'.gos && i < |s'.runs| ensures s'.runs[i].controller !in s'.gos[t].rest {
      StepPendingRuns(s, e, t, i);
    }
    forall t, u, c | t in s'.gos && u in s'.gos && t != u && c in s'.gos[t].rest ensures c !in s'.gos[u].rest {
      StepPendingPairs(s, e, t, u, c);
    }
  }

  // ----- Whole runs -----

  ghost predicate DisciplinedRun(s: State, es: seq<Event>) {
    forall n :: 0 <= n < |es| ==> Discipline(RunAll(s, es[..n]), es[n])
  }

  ghost predicate Good(s: State) {
    Sound(s) && Disciplined(s) && Tracked(s)
  }

  /** Lifecycle safety: in every interleaving of Start, Go, Cancel, the launched goroutines, context
      cancellation and the drain, in which callers keep the discipline, every registered run that was not
      stopped is in `cancelFuncs` under its controller. */
  lemma {:induction false} RunKeepsGood(s: State, es: seq<Event>)
    requires Good(s) && DisciplinedRun(s, es)
    ensures Good(RunAll(s, es))
  {
    hide Step, Sound, Disciplined, Tracked, Discipline, Harmless;
    if es != [] {
      var n := |es| - 1;
      forall m | 0 <= m < n ensures Discipline(RunAll(s, es[..n][..m]), es[..n][m]) {
        assert es[..n][..m] == es[..m];
      }
      RunKeepsGood(s, es[..n]);
      var t := RunAll(s, es[..n]);
      StepKeepsSound(t, es[n]);
      DisciplineIsHarmless(t, es[n]);
      StepKeepsDisciplined(t, es[n]);
      StepKeepsTracked(t, es[n]);
    }
  }

  lemma FreshIsGood()
    ensures Good(FRESH)
  {
  }

  /** Hence, in every disciplined run of a manager, the drain stops every run registered before it. */
  lemma DrainStopsAll(es: seq<Event>, i: nat)
    requires DisciplinedRun(FRESH, es)
    requires var s := RunAll(FRESH, es); Enabled(s, Drain) && i < |s.runs| && IsRegistered(s.runs[i])
    ensures var s' := Step(RunAll(FRESH, es), Drain);
            i < |s'.runs| && s'.runs[i].stopped && s'.runs[i].done && s'.cancelFuncs == map[]
  {
    hide RunAll, Discipline;
    FreshIsGood();
    RunKeepsGood(FRESH, es);
    DrainStops(RunAll(FRESH, es), i);
  }

  lemma DrainStops(s: State, i: nat)
    requires Good(s) && Enabled(s, Drain) && i < |s.runs| && IsRegistered(s.runs[i])
    ensures var s' := Step(s, Drain);
            i < |s'.runs| && s'.runs[i].stopped && s'.runs[i].done && s'.cancelFuncs == map[]
  {
    hide Disciplined, NextGos, NextCancels;
    assert Reached(s, i) && RunOk(s.runs[i], s.rootDone);
  }

  /** And when Cancel(c) is through, every run of c registered before is stopped and its context done. */
  lemma CancelStops(s: State, t: nat, i: nat)
    requires Good(s) && Enabled(s, Delete(t))
    requires i < |s.runs| && IsRegistered(s.runs[i]) && s.runs[i].controller == s.cancels[t].controller
    ensures var s' := Step(s, Delete(t));
            s'.runs[i].stopped && s'.runs[i].done && s'.runs[i].controller !in s'.cancelFuncs
  {
    hide Disciplined, NextGos, NextCancels;
    assert Reached(s, i) && RunOk(s.runs[i], s.rootDone);
    DisciplineIsHarmless(s, Delete(t));
  }

  // ----- What an overlapping Cancel costs -----

  /** A registered run nobody can stop: neither the registry nor an in-flight Cancel knows it. */
  ghost predicate Lost(s: State, i: nat) {
    && i < |s.runs| && IsRegistered(s.runs[i]) && !s.runs[i].stopped && s.started
    && (forall c :: c in s.cancelFuncs ==> s.cancelFuncs[c] != i)
    && (forall t :: t in s.cancels ==> s.cancels[t].found != Some(i))
  }

  lemma StepLost(s: State, e: Event, i: nat)
    requires Lost(s, i)
    ensures Lost(Step(s, e), i)
    ensures e != RootCancel ==> Step(s, e).runs[i].done == s.runs[i].done
  {
    hide NextGos;
  }

  /** A lost run stays lost in every continuation, and only cancelling the root ends its context. */
  lemma {:induction false} LostForever(s: State, es: seq<Event>, i: nat)
    requires Lost(s, i)
    ensures Lost(RunAll(s, es), i)
    ensures RootCancel !in es ==> RunAll(s, es).runs[i].done == s.runs[i].done
  {
    hide Step, Lost;
    if es != [] {
      var n := |es| - 1;
      LostForever(s, es[..n], i);
      LostFacts(RunAll(s, es[..n]), i);
      StepLost(RunAll(s, es[..n]), es[n], i);
      LostFacts(RunAll(s, es), i);
    }
  }

  lemma LostFacts(s: State, i: nat)
    requires Lost(s, i)
    ensures i < |s.runs|
  {
  }

  /** A Cancel that reads the registry before its controller registers and deletes after makes it lost. */
  lemma OverlapLoses(s: State, t: nat, c: Controller, i: nat)
    requires Sound(s) && s.started && t !in s.cancels && c !in s.cancelFuncs
    requires InPhase(s, i, Created) && s.runs[i].controller == c
    ensures var s1 := Step(Step(s, Look(t, c)), Register(i));
            Lost(Step(Step(s1, Stop(t)), Delete(t)), i)
  {
    hide Step;
    LookRegister(s, t, c, i);
    StopDelete(Step(Step(s, Look(t, c)), Register(i)), t, c, i);
  }

  /** Only the registry knows run `i`, under `c`. */
  ghost predicate OnlyEntry(s: State, c: Controller, i: nat) {
    && i < |s.runs| && IsRegistered(s.runs[i]) && !s.runs[i].stopped && s.started
    && (forall d :: d in s.cancelFuncs && s.cancelFuncs[d] == i ==> d == c)
    && (forall u :: u in s.cancels ==> s.cancels[u].found != Some(i))
  }

  lemma LookRegister(s: State, t: nat, c: Controller, i: nat)
    requires Sound(s) && s.started && t !in s.cancels && c !in s.cancelFuncs
    requires InPhase(s, i, Created) && s.runs[i].controller == c
    ensures var s1 := Step(Step(s, Look(t, c)), Register(i));
            OnlyEntry(s1, c, i) && t in s1.cancels && s1.cancels[t] == CancelCall(c, None, false)
  {
    hide NextGos;
    assert RunOk(s.runs[i], s.rootDone);
    assert forall u :: u in s.cancels ==> CancelOk(s.runs, s.cancels[u]);
  }

  lemma StopDelete(s: State, t: nat, c: Controller, i: nat)
    requires OnlyEntry(s, c, i) && t in s.cancels && s.cancels[t] == CancelCall(c, None, false)
    ensures Lost(Step(Step(s, Stop(t)), Delete(t)), i)
  {
    hide NextGos;
  }

  /** The situation of OverlapLoses comes up: a controller was just added and is about to register. */
  lemma OverlapHappens()
    ensures var s := Step(Step(Step(Step(FRESH, Init(false)), Begin(0, ["c"])), Launch(0)), Create(0));
            && Sound(s) && s.started && !s.rootDone && s.cancels == map[] && s.cancelFuncs == map[]
            && InPhase(s, 0, Created) && s.runs[0].controller == "c" && !s.runs[0].done
  {
    var s := Step(Step(FRESH, Init(false)), Begin(0, ["c"]));
    assert s == State(true, false, [], map[], map[0 := GoCall(["c"], false)], map[], false);
  }
}
