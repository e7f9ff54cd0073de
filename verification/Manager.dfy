/** The manager's methods themselves: each takes the lock several times, and between any two of its
    critical sections other callers, controllers and the drain may act. */
module Manager {

  import opened Options
  import opened Lifecycle

  /** Not a step of the calling thread `t`. */
  predicate Foreign(e: Event, t: nat) {
    match e
    case Begin(u, _) => u != t
    case Launch(u) => u != t
    case Check(u) => u != t
    case Look(u, _) => u != t
    case Stop(u) => u != t
    case Delete(u) => u != t
    case _ => true
  }

  ghost predicate AllForeign(es: seq<Event>, t: nat) {
    forall e :: e in es ==> Foreign(e, t)
  }

  /** The steps of thread `t` among all steps. */
  function Own(es: seq<Event>, t: nat): seq<Event> {
    if es == [] then []
    else Own(es[..|es| - 1], t) + (if Foreign(es[|es| - 1], t) then [] else [es[|es| - 1]])
  }

  lemma {:induction false} OwnConcat(a: seq<Event>, b: seq<Event>, t: nat)
    ensures Own(a + b, t) == Own(a, t) + Own(b, t)
  {
    hide Foreign;
    if b == [] {
      assert a + b == a;
    } else {
      var n := |b| - 1;
      OwnConcat(a, b[..n], t);
      assert (a + b)[..|a + b| - 1] == a + b[..n];
    }
  }

  lemma {:induction false} OwnForeign(es: seq<Event>, t: nat)
    requires AllForeign(es, t)
    ensures Own(es, t) == []
  {
    if es != [] {
      var n := |es| - 1;
      OwnForeign(es[..n], t);
      assert es[n] in es;
    }
  }

  lemma {:induction false} RunAllConcat(s: State, a: seq<Event>, b: seq<Event>)
    ensures RunAll(s, a + b) == RunAll(RunAll(s, a), b)
  {
    hide Step;
    if b == [] {
      assert a + b == a;
    } else {
      var n := |b| - 1;
      RunAllConcat(s, a, b[..n]);
      assert (a + b)[..|a + b| - 1] == a + b[..n];
    }
  }

  lemma RunAllOne(s: State, e: Event)
    ensures RunAll(s, [e]) == Step(s, e)
  {
    hide Step;
    assert [e][..0] == [];
    assert RunAll(s, []) == s;
  }

  lemma DisciplinedPrefix(s: State, a: seq<Event>, b: seq<Event>)
    requires DisciplinedRun(s, a + b)
    ensures DisciplinedRun(s, a)
  {
    hide RunAll, Discipline;
    forall n | 0 <= n < |a| ensures Discipline(RunAll(s, a[..n]), a[n]) {
      assert (a + b)[..n] == a[..n] && (a + b)[n] == a[n];
    }
  }

  lemma {:induction false} RunExtends(s: State, es: seq<Event>, i: nat)
    requires i < |s.runs|
    ensures i < |RunAll(s, es).runs| && Later(s.runs[i], RunAll(s, es).runs[i])
  {
    hide Step;
    if es != [] {
      var n := |es| - 1;
      RunExtends(s, es[..n], i);
      StepLater(RunAll(s, es[..n]), es[n], i);
    }
  }

  /** Nobody else touches a thread's in-flight Cancel. */
  lemma ForeignStepKeeps(s: State, e: Event, t: nat)
    requires Foreign(e, t)
    ensures var s' := Step(s, e);
            (t in s'.cancels <==> t in s.cancels) && (t in s.cancels ==> s'.cancels[t] == s.cancels[t])
  {
    hide NextRuns, NextFuncs, NextGos;
  }

  lemma {:induction false} ForeignKeeps(s: State, es: seq<Event>, t: nat)
    requires AllForeign(es, t)
    ensures var s' := RunAll(s, es);
            (t in s'.cancels <==> t in s.cancels) && (t in s.cancels ==> s'.cancels[t] == s.cancels[t])
  {
    hide Step, Foreign;
    if es != [] {
      var n := |es| - 1;
      ForeignKeeps(s, es[..n], t);
      assert es[n] in es;
      ForeignStepKeeps(RunAll(s, es[..n]), es[n], t);
    }
  }

  /** What one Cancel call does, in order. */
  function CancelSteps(t: nat, cs: seq<Controller>): seq<Event> {
    if cs == [] then []
    else CancelSteps(t, cs[..|cs| - 1]) + [Look(t, cs[|cs| - 1]), Stop(t), Delete(t)]
  }

  /** Every run of `c` that had registered by state `s` is stopped in state `s'`. */
  ghost predicate AllStopped(s: State, s': State, c: Controller) {
    forall i: nat :: i < |s.runs| && IsRegistered(s.runs[i]) && s.runs[i].controller == c ==>
      i < |s'.runs| && s'.runs[i].stopped && s'.runs[i].done
  }

  lemma StoppedStays(s: State, mid: State, es: seq<Event>, c: Controller)
    requires AllStopped(s, mid, c) && Sound(mid)
    ensures AllStopped(s, RunAll(mid, es), c)
  {
    hide RunAll, Sound;
    var s' := RunAll(mid, es);
    RunKeepsSound(mid, es);
    forall i: nat | i < |s.runs| && IsRegistered(s.runs[i]) && s.runs[i].controller == c
      ensures i < |s'.runs| && s'.runs[i].stopped && s'.runs[i].done
    {
      RunExtends(mid, es, i);
      SoundDone(s', i);
    }
  }

  lemma SoundDone(s: State, i: nat)
    requires Sound(s) && i < |s.runs| && s.runs[i].stopped
    ensures s.runs[i].done
  {
    assert RunOk(s.runs[i], s.rootDone);
  }

  /** The Delete of a Cancel(c) that kept to the discipline leaves every earlier run of c stopped. */
  lemma DeleteStops(s: State, es: seq<Event>, t: nat, c: Controller)
    requires Good(s) && DisciplinedRun(s, es)
    requires var s' := RunAll(s, es); t in s'.cancels && s'.cancels[t].called && s'.cancels[t].controller == c
    ensures AllStopped(s, Step(RunAll(s, es), Delete(t)), c)
  {
    hide RunAll, Good, Step;
    var m := RunAll(s, es);
    var s' := Step(m, Delete(t));
    RunKeepsGood(s, es);
    forall i: nat | i < |s.runs| && IsRegistered(s.runs[i]) && s.runs[i].controller == c
      ensures i < |s'.runs| && s'.runs[i].stopped && s'.runs[i].done
    {
      RunExtends(s, es, i);
      CancelStops(m, t, i);
      StepLater(m, Delete(t), i);
    }
  }

  /** The manager as one thread sees it; `schedule` says what everybody else does before each of its steps. */
  class Shared {
    const t: nat
    var state: State
    var schedule: seq<seq<Event>>
    ghost var base: State
    ghost var log: seq<Event>

    constructor (t: nat, state: State, schedule: seq<seq<Event>>)
      requires forall i :: 0 <= i < |schedule| ==> AllForeign(schedule[i], t)
      ensures Valid() && this.t == t && this.state == state && base == state && log == []
    {
      this.t, this.state, this.schedule := t, state, schedule;
      base, log := state, [];
    }

    ghost predicate Valid() reads this {
      && state == RunAll(base, log)
      && (forall i :: 0 <= i < |schedule| ==> AllForeign(schedule[i], t))
    }

    /** Everybody else, then one own step. */
    method Take(e: Event) returns (ghost others: seq<Event>)
      requires Valid() && !Foreign(e, t)
      modifies this
      ensures Valid() && base == old(base)
      ensures AllForeign(others, t) && log == old(log) + others + [e] && state == Step(RunAll(old(state), others), e)
      ensures Own(log, t) == old(Own(log, t)) + [e]
    {
      hide Step, Foreign;
      var es := if schedule == [] then [] else schedule[0];
      schedule := if schedule == [] then [] else schedule[1..];
      ghost var start := state;
      for i := 0 to |es|
        invariant state == RunAll(start, es[..i])
        invariant base == old(base) && log == old(log)
                  && schedule == if old(schedule) == [] then [] else old(schedule)[1..]
      {
        state := Step(state, es[i]);
        assert es[..i + 1][..i] == es[..i];
      }
      assert es[..|es|] == es;
      LogGrows(base, log, es, e, t);
      others := es;
      state := Step(state, e);
      log := log + es + [e];
    }

    /** Cancel: for each controller, read the registry, call what was found, delete the entry. If every
        caller keeps the discipline, all runs of these controllers registered before are stopped after. */
    method Cancel(controllers: seq<Controller>)
      requires Valid() && log == [] && t !in state.cancels
      modifies this
      ensures Valid() && base == old(base) && Own(log, t) == CancelSteps(t, controllers)
      ensures Good(base) && DisciplinedRun(base, log) ==>
                forall k :: 0 <= k < |controllers| ==> AllStopped(base, state, controllers[k])
    {
      hide Step, RunAll, Good, DisciplinedRun, AllStopped, Foreign;
      for n := 0 to |controllers|
        invariant Valid() && base == old(base) && t !in state.cancels
        invariant Own(log, t) == CancelSteps(t, controllers[..n])
        invariant Good(base) && DisciplinedRun(base, log) ==>
            forall k :: 0 <= k < n ==> AllStopped(base, state, controllers[k])
      {
        ghost var before, s := log, state;
        ghost var es := CancelOne(controllers[n]);
        assert controllers[..n + 1][..n] == controllers[..n];
        if Good(base) && DisciplinedRun(base, log) {
          DisciplinedPrefix(base, before, es);
          StillStopped(base, before, es, controllers[..n]);
        }
      }
      assert controllers[..|controllers|] == controllers;
    }

    method CancelOne(c: Controller) returns (ghost es: seq<Event>)
      requires Valid() && t !in state.cancels
      modifies this
      ensures Valid() && base == old(base) && t !in state.cancels
      ensures Own(log, t) == old(Own(log, t)) + [Look(t, c), Stop(t), Delete(t)]
      ensures log == old(log) + es
      ensures Good(base) && DisciplinedRun(base, log) ==> AllStopped(base, state, c)
    {
      hide Step, RunAll, Good, DisciplinedRun, AllStopped, AllForeign, Own;
      ghost var s := state;
      ghost var es1 := Take(Look(t, c));
      OwnSteps(s, es1, t, c);
      s := state;
      ghost var es2 := Take(Stop(t));
      OwnSteps(s, es2, t, c);
      s := state;
      ghost var before := log;
      ghost var es3 := Take(Delete(t));
      OwnSteps(s, es3, t, c);
      es := es1 + [Look(t, c)] + es2 + [Stop(t)] + es3 + [Delete(t)];
      RunAllConcat(base, before, es3);
      if Good(base) && DisciplinedRun(base, log) {
        DisciplinedPrefix(base, before + es3, [Delete(t)]);
        DeleteStops(base, before + es3, t, c);
      }
    }

    /** Go: launches the controllers one after the other. It refuses exactly when the manager is not started
        at its first step (`at` in the log), and stops early exactly when a check after a launch finds the
        group's context done: success means that every check found it live. */
    method Go(controllers: seq<Controller>) returns (err: Option<GoError>, ghost k: nat, ghost at: nat)
      requires Valid() && log == [] && t !in state.gos
      modifies this
      ensures Valid() && base == old(base) && t !in state.gos && k <= |controllers|
      ensures Own(log, t) == [Begin(t, controllers)] + Launches(t, k) + (if err.None? then [Check(t)] else [])
      ensures err == None ==> k == |controllers|
      ensures err == Some(NotStarted) ==> k == 0
      ensures err == Some(ContextDone) ==> k > 0 && state.rootDone
      ensures at < |log| && log[at] == Begin(t, controllers)
      ensures err == Some(NotStarted) <==> !RunAll(base, log[..at]).started
      ensures err != Some(NotStarted) ==> SawLive(base, log[..|log| - 1], t)
      ensures err == Some(ContextDone) ==> log[|log| - 1] == Check(t) && RunAll(base, log[..|log| - 1]).rootDone
      ensures forall n :: 0 <= n < k ==> HasRun(state, |base.runs|, controllers[n])
    {
      hide Step, RunAll, AllForeign, Own, HasRun, Foreign, SawLive;
      k := 0;
      OwnKinds(t, controllers);
      EmptyLog(base, t);
      ghost var s := state;
      ghost var others := Take(Begin(t, controllers));
      GoSteps(s, others, t, controllers);
      at := |others|;
      ghost var first := log;
      FirstStep(base, others, Begin(t, controllers), t);
      assert log == others + [Begin(t, controllers)] && log[..at] == others;
      if t !in state.gos {
        return Some(NotStarted), k, at;
      }
      var done;
      done, k := LaunchAll(controllers);
      assert log[..at] == first[..at] && log[at] == first[at];
      if done {
        return Some(ContextDone), k, at;
      }
      first, s := log, state;
      others := Take(Check(t));
      GoSteps(s, others, t, controllers);
      RunsStay(s, others, Check(t), |base.runs|, controllers);
      SawLiveMore(base, first, others, Check(t), t);
      assert log[..|log| - 1] == first + others;
      assert log[..at] == first[..at];
      err := None;
    }

    /** Go's loop: until all are launched or a check finds the context done. */
    method LaunchAll(controllers: seq<Controller>) returns (done: bool, ghost k: nat)
      requires Valid() && t in state.gos && state.gos[t] == GoCall(controllers, false)
      requires |base.runs| <= |state.runs| && SawLive(base, log, t)
      modifies this
      ensures Valid() && base == old(base) && old(log) <= log && |base.runs| <= |state.runs| && k <= |controllers|
      ensures Own(log, t) == old(Own(log, t)) + Launches(t, k)
      ensures forall n :: 0 <= n < k ==> HasRun(state, |base.runs|, controllers[n])
      ensures !done ==> k == |controllers| && SawLive(base, log, t)
      ensures !done ==> t in state.gos && state.gos[t] == GoCall([], false)
      ensures done ==> k > 0 && |log| > 0 && SawLive(base, log[..|log| - 1], t) && t !in state.gos && state.rootDone
      ensures done ==> log[|log| - 1] == Check(t) && RunAll(base, log[..|log| - 1]).rootDone
    {
      hide Step, RunAll, AllForeign, Own, HasRun, Foreign, SawLive;
      k := 0;
      for n := 0 to |controllers|
        invariant Valid() && base == old(base) && k == n && old(log) <= log
        invariant Own(log, t) == old(Own(log, t)) + Launches(t, n)
        invariant t in state.gos && state.gos[t] == GoCall(controllers[n..], false)
        invariant |base.runs| <= |state.runs| && SawLive(base, log, t)
        invariant forall j :: 0 <= j < n ==> HasRun(state, |base.runs|, controllers[j])
      {
        LaunchOne(controllers[..n]);
        assert controllers[..n + 1] == controllers[..n] + [controllers[n]];
        k := n + 1;
        if t !in state.gos {
          return true, k;
        }
      }
      done := false;
    }

    /** One round of Go's loop: launch the next controller, then look at the context. */
    method LaunchOne(ghost launched: seq<Controller>)
      requires Valid() && t in state.gos && !state.gos[t].check && state.gos[t].rest != []
               && |base.runs| <= |state.runs|
      requires forall j :: 0 <= j < |launched| ==> HasRun(state, |base.runs|, launched[j])
      requires SawLive(base, log, t)
      modifies this
      ensures Valid() && base == old(base) && |base.runs| <= |state.runs|
      ensures Own(log, t) == old(Own(log, t)) + [Launch(t), Check(t)]
      ensures if t in state.gos then state.gos[t] == GoCall(old(state.gos[t].rest)[1..], false) else state.rootDone
      ensures |log| > |old(log)| && old(log) <= log && log[|log| - 1] == Check(t) && SawLive(base, log[..|log| - 1], t)
      ensures if t in state.gos then SawLive(base, log, t) else RunAll(base, log[..|log| - 1]).rootDone
      ensures var ls := launched + [old(state.gos[t].rest)[0]];
              forall j :: 0 <= j < |ls| ==> HasRun(state, |base.runs|, ls[j])
    {
      hide Step, RunAll, AllForeign, Own, HasRun, SawLive;
      ghost var c := state.gos[t].rest[0];
      ghost var s := state;
      ghost var before := log;
      ghost var others := Take(Launch(t));
      SawLiveMore(base, before, others, Launch(t), t);
      GoSteps(s, others, t, []);
      RunsStay(s, others, Launch(t), |base.runs|, launched);
      HasRunFrom(state, |base.runs|, |s.runs|, c);
      s := state;
      before := log;
      others := Take(Check(t));
      GoSteps(s, others, t, []);
      RunsStay(s, others, Check(t), |base.runs|, launched + [c]);
      SawLiveMore(base, before, others, Check(t), t);
      RunAllConcat(base, before, others);
      assert log[..|log| - 1] == before + others;
    }

    /** The shutdown drain, in one critical section: call and delete every entry. */
    method DrainFuncs()
      requires Enabled(state, Drain)
      modifies this`state
      ensures state == Step(old(state), Drain)
    {
      ghost var s, stopped: set<nat> := state, {};
      assert StopAll(s.runs, stopped) == s.runs;
      while state.cancelFuncs != map[]
        invariant state == s.(runs := StopAll(s.runs, stopped), cancelFuncs := state.cancelFuncs)
        invariant stopped + state.cancelFuncs.Values == s.cancelFuncs.Values
        decreases |state.cancelFuncs|
      {
        var c :| c in state.cancelFuncs;
        var r := state.cancelFuncs[c];
        StopOneMore(s.runs, stopped, r);
        ValuesWithout(state.cancelFuncs, c);
        stopped := stopped + {r};
        state := state.(runs := StopRun(state.runs, r), cancelFuncs := state.cancelFuncs - {c});
      }
      state := state.(drained := true);
    }
  }

  lemma OwnKinds(t: nat, cs: seq<Controller>)
    ensures !Foreign(Begin(t, cs), t) && !Foreign(Launch(t), t) && !Foreign(Check(t), t)
  {
  }

  lemma EmptyLog(s: State, t: nat)
    ensures RunAll(s, []) == s && Own([], t) == []
  {
  }

  /** Every context check of `t` in the log found the root context live. */
  ghost predicate SawLive(base: State, log: seq<Event>, t: nat) {
    forall m :: 0 <= m < |log| && log[m] == Check(t) ==> !RunAll(base, log[..m]).rootDone
  }

  lemma SawLiveMore(base: State, log: seq<Event>, others: seq<Event>, e: Event, t: nat)
    requires SawLive(base, log, t) && AllForeign(others, t)
    ensures SawLive(base, log + others, t)
    ensures SawLive(base, log + others + [e], t) <==> (e == Check(t) ==> !RunAll(base, log + others).rootDone)
  {
    hide RunAll;
    var l := log + others;
    assert forall m :: |log| <= m < |l| ==> l[m] in others;
    forall m | 0 <= m < |log| ensures l[..m] == log[..m] {
    }
    assert forall m :: 0 <= m <= |l| ==> (l + [e])[..m] == l[..m];
    assert l[..|l|] == l && (l + [e])[|l|] == e;
  }

  lemma FirstStep(base: State, others: seq<Event>, e: Event, t: nat)
    requires AllForeign(others, t) && e != Check(t)
    ensures SawLive(base, [] + others + [e], t) && SawLive(base, [] + others, t)
  {
    SawLiveMore(base, [], others, e, t);
  }

  datatype GoError = NotStarted | ContextDone

  function Launches(t: nat, k: nat): seq<Event> {
    if k == 0 then [] else Launches(t, k - 1) + [Launch(t), Check(t)]
  }

  /** Some run with index at least `from` is for controller `c`. */
  ghost predicate HasRun(s: State, from: nat, c: Controller) {
    exists i :: from <= i < |s.runs| && s.runs[i].controller == c
  }

  lemma HasRunFrom(s: State, from: nat, from': nat, c: Controller)
    requires from <= from' && HasRun(s, from', c)
    ensures HasRun(s, from, c)
  {
  }

  /** The effect of each of Go's steps on its own call, with anything foreign before it. */
  lemma GoSteps(s: State, es: seq<Event>, t: nat, cs: seq<Controller>)
    requires AllForeign(es, t)
    ensures var m := RunAll(s, es);
            && (t !in s.gos ==> var s' := Step(m, Begin(t, cs));
                  && (t in s'.gos ==> s'.gos[t] == GoCall(cs, false))
                  && (m.started <==> t in s'.gos)
                  && |s.runs| <= |s'.runs|)
            && (t in s.gos && !s.gos[t].check && s.gos[t].rest != [] ==> var s' := Step(m, Launch(t));
                  && t in s'.gos && s'.gos[t] == GoCall(s.gos[t].rest[1..], true)
                  && HasRun(s', |s.runs|, s.gos[t].rest[0]))
            && (t in s.gos && s.gos[t].check ==> var s' := Step(m, Check(t));
                  && (t in s'.gos <==> !m.rootDone) && s'.rootDone == m.rootDone
                  && (t in s'.gos ==> s'.gos[t] == GoCall(s.gos[t].rest, false)))
            && (t in s.gos && !s.gos[t].check && s.gos[t].rest == [] ==> t !in Step(m, Check(t)).gos)
  {
    hide NextFuncs, NextCancels, RunAll;
    ForeignGos(s, es, t);
    RunGrows(s, es);
    if t in s.gos && !s.gos[t].check && s.gos[t].rest != [] {
      var m := RunAll(s, es);
      assert Step(m, Launch(t)).runs[|m.runs|].controller == s.gos[t].rest[0];
    }
  }

  lemma ForeignStepGos(s: State, e: Event, t: nat)
    requires Foreign(e, t)
    ensures var s' := Step(s, e);
            && (t in s'.gos <==> t in s.gos) && (t in s.gos ==> s'.gos[t] == s.gos[t])
            && (s.started ==> s'.started)
  {
    hide NextRuns, NextFuncs, NextCancels;
  }

  lemma {:induction false} ForeignGos(s: State, es: seq<Event>, t: nat)
    requires AllForeign(es, t)
    ensures var s' := RunAll(s, es);
            && (t in s'.gos <==> t in s.gos) && (t in s.gos ==> s'.gos[t] == s.gos[t])
            && (s.started ==> s'.started)
  {
    hide Step, Foreign;
    if es != [] {
      var n := |es| - 1;
      ForeignGos(s, es[..n], t);
      assert es[n] in es;
      ForeignStepGos(RunAll(s, es[..n]), es[n], t);
    }
  }

  lemma RunGrows(s: State, es: seq<Event>)
    ensures |s.runs| <= |RunAll(s, es).runs|
  {
    hide RunAll;
    if |s.runs| > 0 {
      RunExtends(s, es, |s.runs| - 1);
    }
  }

  lemma RunsStay(s: State, es: seq<Event>, e: Event, from: nat, cs: seq<Controller>)
    ensures forall j :: 0 <= j < |cs| && HasRun(s, from, cs[j]) ==> HasRun(Step(RunAll(s, es), e), from, cs[j])
    ensures |s.runs| <= |Step(RunAll(s, es), e).runs|
  {
    hide Step, RunAll;
    var s' := Step(RunAll(s, es), e);
    RunGrows(s, es);
    StepExtends(RunAll(s, es), e);
    forall j | 0 <= j < |cs| && HasRun(s, from, cs[j]) ensures HasRun(s', from, cs[j]) {
      var i :| from <= i < |s.runs| && s.runs[i].controller == cs[j];
      RunExtends(s, es, i);
      assert s'.runs[i].controller == cs[j];
    }
  }

  lemma StopOneMore(runs: seq<Run>, stopped: set<nat>, r: nat)
    ensures StopRun(StopAll(runs, stopped), r) == StopAll(runs, stopped + {r})
  {
  }

  lemma ValuesWithout(m: map<Controller, nat>, c: Controller)
    requires c in m
    ensures (m - {c}).Values + {m[c]} == m.Values && |m - {c}| < |m|
  {
    var m' := m - {c};
    forall r | r in m.Values ensures r in m'.Values + {m[c]} {
      var d :| d in m && m[d] == r;
      if d != c { assert d in m' && m'[d] == r; }
    }
    assert m' == map d | d in m && d != c :: m[d];
    assert m == m'[c := m[c]];
  }

  /** The effect of each of Cancel's steps on its own call, with anything foreign before it. */
  lemma OwnSteps(s: State, es: seq<Event>, t: nat, c: Controller)
    requires AllForeign(es, t)
    ensures var m := RunAll(s, es);
            && (t !in s.cancels ==> var s' := Step(m, Look(t, c));
                  t in s'.cancels && s'.cancels[t].controller == c && !s'.cancels[t].called)
            && (t in s.cancels && !s.cancels[t].called ==> var s' := Step(m, Stop(t));
                  t in s'.cancels && s'.cancels[t].controller == s.cancels[t].controller && s'.cancels[t].called)
            && (t in s.cancels ==> t in m.cancels && m.cancels[t] == s.cancels[t])
            && (t in s.cancels && s.cancels[t].called ==> t !in Step(m, Delete(t)).cancels)
  {
    hide NextRuns, NextFuncs, NextGos, RunAll;
    ForeignKeeps(s, es, t);
  }

  lemma StillStopped(base: State, before: seq<Event>, es: seq<Event>, cs: seq<Controller>)
    requires Good(base) && forall k :: 0 <= k < |cs| ==> AllStopped(base, RunAll(base, before), cs[k])
    ensures forall k :: 0 <= k < |cs| ==> AllStopped(base, RunAll(base, before + es), cs[k])
  {
    hide RunAll, AllStopped, Sound, Disciplined, Tracked;
    RunKeepsSound(base, before);
    RunAllConcat(base, before, es);
    forall k | 0 <= k < |cs| ensures AllStopped(base, RunAll(base, before + es), cs[k]) {
      StoppedStays(base, RunAll(base, before), es, cs[k]);
    }
  }

  lemma LogGrows(base: State, log: seq<Event>, es: seq<Event>, e: Event, t: nat)
    requires AllForeign(es, t) && !Foreign(e, t)
    ensures RunAll(base, log + es + [e]) == Step(RunAll(RunAll(base, log), es), e)
    ensures Own(log + es + [e], t) == Own(log, t) + [e]
  {
    hide Step, Foreign;
    RunAllConcat(base, log + es, [e]);
    RunAllConcat(base, log, es);
    RunAllOne(RunAll(base, log + es), e);
    OwnConcat(log + es, [e], t);
    OwnConcat(log, es, t);
    OwnForeign(es, t);
    assert [e][..0] == [];
  }
}
