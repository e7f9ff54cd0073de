/** Handles that have all read the same fresh caches and then interleave: exactly when every schedule keeps the
    owned objects visible.
 */
module AdoptionClashes {
  import opened Options
  import opened ServerSideApply
  import opened Adoption
  import opened AdoptionRuns
  import opened AdoptionRecovery
  import opened AdoptionTheorems
  import opened AdoptionLimits
  import opened AdoptionSchedules

  ghost predicate AllFresh(cfg: Config, c: Cluster, sessions: seq<Session>) {
    forall i :: 0 <= i < |sessions| ==> Fresh(cfg, c, sessions[i].owner, sessions[i].adoptee, sessions[i].view)
  }

  /** One Handle annotates the object, another takes the controller's labels from it. */
  ghost predicate Contested(cfg: Config, sessions: seq<Session>, nn: NamespacedName) {
    exists i, j :: 0 <= i < |sessions| && 0 <= j < |sessions| && sessions[i].adoptee == nn
                   && AnnotateCall(cfg, sessions[i].owner, nn) in ProgramOf(cfg, sessions[i]).calls
                   && UnlabelCall(cfg, nn) in ProgramOf(cfg, sessions[j]).calls
  }

  /** Some contested object has a label that the controller alone owns. */
  ghost predicate Clash(cfg: Config, c: Cluster, sessions: seq<Session>) {
    exists i :: 0 <= i < |sessions| && Contested(cfg, sessions, sessions[i].adoptee)
        && Sole(cfg, Lookup(c, sessions[i].adoptee))
  }

  // ----- What the sessions say about a contested object -----

  /** The calls of a Handle under the controller's name. */
  lemma ControllerCalls(cfg: Config, s: Session, m: nat)
    requires ValidConfig(cfg) && m < |ProgramOf(cfg, s).calls| && ProgramOf(cfg, s).calls[m].manager == cfg.controller
    ensures var call := ProgramOf(cfg, s).calls[m];
            || (call == LabelCall(cfg, s.adoptee) && NeedsLabel(s.adoptee, s.view))
            || call == UnlabelCall(cfg, call.target)
  {
    hide CleanupPlan, Extras, ValidConfig;
    OwnerIsNotController(cfg, s.owner);
    var plan := ProgramOf(cfg, s).calls;
    if s.view.index.Some? {
      var extras := Extras(s.adoptee, s.view.index.value);
      var head := LabelPlan(cfg, s.adoptee, s.view) + AnnotatePlan(cfg, s.owner, s.adoptee, s.view.index.value);
      var k := CleanupPlan(cfg, s.owner, extras);
      assert m >= |head| ==> plan[m] == k[m - |head|];
      if m >= |head| {
        CleanupNeverAnnotates(cfg, s.owner, extras, m - |head|);
      }
    }
  }

  /** What one Handle is going to unlabel is an owned object of the cluster, not its own adoptee. */
  lemma UnlabelledIsOwned(cfg: Config, c: Cluster, s: Session, nn: NamespacedName)
    requires ValidConfig(cfg) && cfg.labels != map[] && Inv(cfg, c) && Fresh(cfg, c, s.owner, s.adoptee, s.view)
    requires UnlabelCall(cfg, nn) in ProgramOf(cfg, s).calls
    ensures nn != s.adoptee && nn in c && Labelled(cfg, c[nn])
  {
    hide ValidConfig, ProgramOf, Extras, Fresh, Labelled, AtIndexRead, ListsIndex, ObjectOk;
    var k :| 0 <= k < |ProgramOf(cfg, s).calls| && ProgramOf(cfg, s).calls[k] == UnlabelCall(cfg, nn);
    UnlabelsExtra(cfg, s, k);
    FreshFacts(cfg, c, s.owner, s.adoptee, s.view);
    AfterLabelling(cfg, c, s.owner, s.adoptee, s.view);
    IndexReadFacts(cfg, AtIndexRead(cfg, c, s.adoptee, s.view), s.owner, s.adoptee, s.view.index.value);
    assert AnnotatedFor(cfg, c, s.owner, nn);
    assert IsOwnerField(cfg, OwnerField(cfg, s.owner));
  }

  /** Nobody labels a labelled object. */
  lemma LabelledIsNotLabelled(cfg: Config, c: Cluster, s: Session, nn: NamespacedName)
    requires ValidConfig(cfg) && cfg.labels != map[] && Fresh(cfg, c, s.owner, s.adoptee, s.view)
    requires nn in c && Labelled(cfg, c[nn])
    ensures LabelCall(cfg, nn) !in ProgramOf(cfg, s).calls
  {
    hide ProgramOf, Labelled, ListsIndex, AtIndexRead, ValidConfig;
    if LabelCall(cfg, nn) in ProgramOf(cfg, s).calls {
      var m :| 0 <= m < |ProgramOf(cfg, s).calls| && ProgramOf(cfg, s).calls[m] == LabelCall(cfg, nn);
      ControllerCalls(cfg, s, m);
      LabelIsNotUnlabel(cfg, nn);
    }
  }

  // ----- Without a clash every schedule keeps owned objects labelled -----

  ghost function ContestedNames(cfg: Config, sessions: seq<Session>): (r: set<NamespacedName>)
    ensures forall nn :: nn in r <==> Contested(cfg, sessions, nn)
  {
    var r := set i | 0 <= i < |sessions| && Contested(cfg, sessions, sessions[i].adoptee) :: sessions[i].adoptee;
    r
  }

  lemma SessionsAreOrderly(cfg: Config, c: Cluster, sessions: seq<Session>, start: seq<nat>)
    requires ValidConfig(cfg) && cfg.labels != map[] && Inv(cfg, c) && AllFresh(cfg, c, sessions)
             && !Clash(cfg, c, sessions)
    requires |start| == |sessions| && forall i :: 0 <= i < |start| ==> start[i] == 0
    ensures Orderly(cfg, c, Programs(cfg, sessions), start, ContestedNames(cfg, sessions))
  {
    hide Inv, ValidConfig, Fresh, ProgramOf, ReadyToAnnotate, ReadyToUnlabel, ValidProgram, LabelCall, UnlabelCall,
         AnnotateCall, UnannotateCall, Contested, ContestedNames, Labelled;
    var ps, firm := Programs(cfg, sessions), ContestedNames(cfg, sessions);
    forall i | 0 <= i < |ps|
      ensures ValidProgram(cfg, ps[i]) && ReadyToAnnotate(cfg, c, ps[i], start[i])
      ensures ReadyToUnlabel(cfg, c, ps[i], start[i], firm)
    {
      var s := sessions[i];
      FreshIsValidSession(cfg, c, s.owner, s.adoptee, s.view);
      assert Session(s.owner, s.adoptee, s.view) == s;
      HandleIsValidProgram(cfg, s);
      FreshIsReady(cfg, c, s);
      FewerToUnlabel(cfg, c, ps[i], start[i], firm);
    }
    forall nn | nn in firm
      ensures Firm(cfg, Lookup(c, nn))
      ensures forall i :: 0 <= i < |ps| ==> LabelCall(cfg, nn) !in ps[i].calls
    {
      ContestedFacts(cfg, c, sessions, nn);
    }
    ContestedOrApart(cfg, sessions);
  }

  lemma FewerToUnlabel(cfg: Config, c: Cluster, prog: Program, from: nat, firm: set<NamespacedName>)
    requires ReadyToUnlabel(cfg, c, prog, from, {})
    ensures ReadyToUnlabel(cfg, c, prog, from, firm)
  {}

  /** A contested object that does not clash is firm, and nobody labels it. */
  lemma ContestedFacts(cfg: Config, c: Cluster, sessions: seq<Session>, nn: NamespacedName)
    requires ValidConfig(cfg) && cfg.labels != map[] && Inv(cfg, c) && AllFresh(cfg, c, sessions)
    requires Contested(cfg, sessions, nn)
    ensures nn in c && Labelled(cfg, c[nn]) && (!Clash(cfg, c, sessions) ==> Firm(cfg, Lookup(c, nn)))
    ensures forall i :: 0 <= i < |sessions| ==> LabelCall(cfg, nn) !in ProgramOf(cfg, sessions[i]).calls
  {
    hide Inv, ValidConfig, Fresh, ProgramOf, LabelCall, UnlabelCall, AnnotateCall, Labelled, Sole;
    var i, j :| 0 <= i < |sessions| && 0 <= j < |sessions| && sessions[i].adoptee == nn
                && AnnotateCall(cfg, sessions[i].owner, nn) in ProgramOf(cfg, sessions[i]).calls
                && UnlabelCall(cfg, nn) in ProgramOf(cfg, sessions[j]).calls;
    UnlabelledIsOwned(cfg, c, sessions[j], nn);
    forall k | 0 <= k < |sessions| ensures LabelCall(cfg, nn) !in ProgramOf(cfg, sessions[k]).calls {
      LabelledIsNotLabelled(cfg, c, sessions[k], nn);
    }
  }

  lemma ContestedOrApart(cfg: Config, sessions: seq<Session>)
    requires ValidConfig(cfg) && cfg.labels != map[]
    ensures TargetsApart(cfg, Programs(cfg, sessions), ContestedNames(cfg, sessions))
  {
    hide ValidConfig, ProgramOf, LabelCall, UnlabelCall, AnnotateCall, UnannotateCall, ContestedNames;
    var ps := Programs(cfg, sessions);
    forall i, j, m, k | 0 <= i < |ps| && 0 <= j < |ps| && 0 <= m < |ps[i].calls| && 0 <= k < |ps[j].calls|
                        && ps[i].calls[m] == AnnotateCall(cfg, ps[i].owner, ps[i].calls[m].target)
                        && ps[j].calls[k] == UnlabelCall(cfg, ps[j].calls[k].target)
                        && ps[i].calls[m].target !in ContestedNames(cfg, sessions)
      ensures ps[i].calls[m].target != ps[j].calls[k].target
    {
      OwnerOfProgram(cfg, sessions[i]);
      if ps[i].calls[m].target == ps[j].calls[k].target {
        IsContested(cfg, sessions, i, m, j, k);
      }
    }
  }

  lemma IsContested(cfg: Config, sessions: seq<Session>, i: nat, m: nat, j: nat, k: nat)
    requires ValidConfig(cfg) && cfg.labels != map[] && i < |sessions| && j < |sessions|
    requires m < |ProgramOf(cfg, sessions[i]).calls| && k < |ProgramOf(cfg, sessions[j]).calls|
    requires var nn := ProgramOf(cfg, sessions[i]).calls[m].target;
             && ProgramOf(cfg, sessions[i]).calls[m] == AnnotateCall(cfg, sessions[i].owner, nn)
             && ProgramOf(cfg, sessions[j]).calls[k] == UnlabelCall(cfg, nn)
    ensures Contested(cfg, sessions, ProgramOf(cfg, sessions[i]).calls[m].target)
  {
    hide ValidConfig, ProgramOf, LabelCall, UnlabelCall, AnnotateCall, UnannotateCall;
    PlanAt(cfg, sessions[i], m);
    assert ProgramOf(cfg, sessions[i]).calls[m] in ProgramOf(cfg, sessions[i]).calls;
    assert ProgramOf(cfg, sessions[j]).calls[k] in ProgramOf(cfg, sessions[j]).calls;
  }

  // ----- With a clash some schedule does not -----

  function Times(i: nat, n: nat): seq<nat> {
    if n == 0 then [] else [i] + Times(i, n - 1)
  }

  function First(calls: seq<Call>, call: Call): (k: nat)
    requires call in calls
    ensures k < |calls| && calls[k] == call && call !in calls[..k]
  {
    if calls[0] == call then 0 else First(calls[1..], call) + 1
  }

  /** A stretch of the schedule that belongs to one program. */
  lemma {:induction false} OneRuns(cfg: Config, c: Cluster, programs: seq<Program>, p: seq<nat>, j: nat, n: nat,
                                   rest: seq<nat>)
    requires |p| == |programs| && j < |programs| && p[j] + n <= |programs[j].calls|
    requires AllHarmless(cfg, c, programs, p, Times(j, n) + rest)
    ensures AllHarmless(cfg, ApplyAll(c, programs[j].calls[p[j]..p[j] + n]), programs, p[j := p[j] + n], rest)
    decreases n
  {
    hide ServerSideApply.Apply, Harmless;
    if n == 0 {
      assert Times(j, n) + rest == rest && p[j := p[j] + n] == p;
    } else {
      var schedule, call := Times(j, n) + rest, programs[j].calls[p[j]];
      assert schedule[0] == j && schedule[1..] == Times(j, n - 1) + rest;
      var p' := p[j := p[j] + 1];
      OneRuns(cfg, Apply(c, call), programs, p', j, n - 1, rest);
      assert programs[j].calls[p[j]..p[j] + n][1..] == programs[j].calls[p'[j]..p'[j] + n - 1];
      assert p'[j := p'[j] + n - 1] == p[j := p[j] + n];
    }
  }

  /** Calls on other objects, and an owner's own calls, do not change who owns an object's labels. */
  lemma {:induction false} SoleKept(cfg: Config, c: Cluster, owner: NamespacedName, calls: seq<Call>,
                                    nn: NamespacedName)
    requires ValidConfig(cfg) && ClusterOk(cfg, c) && ValidProgram(cfg, Program(owner, calls))
    requires forall k :: 0 <= k < |calls| && calls[k].target == nn ==> calls[k].manager != cfg.controller
    ensures ClusterOk(cfg, ApplyAll(c, calls))
    ensures Sole(cfg, Lookup(ApplyAll(c, calls), nn)) <==> Sole(cfg, Lookup(c, nn))
    decreases |calls|
  {
    hide ForceApply, ClusterOk, ValidConfig, Sole;
    if calls != [] {
      var call := calls[0];
      assert CallBy(cfg, owner, call);
      CallKeepsOk(cfg, c, owner, call);
      if call.target == nn {
        OwnerKeepsSole(cfg, owner, Lookup(c, nn), call.patch);
      }
      SoleKept(cfg, Apply(c, call), owner, calls[1..], nn);
    }
  }

  /** The releaser up to its un-label, the annotator, the un-label. */
  lemma ClashHides(cfg: Config, c: Cluster, sessions: seq<Session>, start: seq<nat>)
    requires ValidConfig(cfg) && cfg.labels != map[] && Inv(cfg, c) && AllFresh(cfg, c, sessions)
             && Clash(cfg, c, sessions)
    requires |start| == |sessions| && forall i :: 0 <= i < |start| ==> start[i] == 0
    ensures exists schedule :: !AlwaysVisible(cfg, c, Programs(cfg, sessions), start, schedule)
  {
    hide Inv, ValidConfig, AllFresh, ProgramOf, LabelCall, UnlabelCall, AnnotateCall, Sole, AlwaysVisible,
         Lookup, Programs;
    var a :| 0 <= a < |sessions| && Contested(cfg, sessions, sessions[a].adoptee)
        && Sole(cfg, Lookup(c, sessions[a].adoptee));
    var nn := sessions[a].adoptee;
    var i, j :| 0 <= i < |sessions| && 0 <= j < |sessions| && sessions[i].adoptee == nn
                && AnnotateCall(cfg, sessions[i].owner, nn) in ProgramOf(cfg, sessions[i]).calls
                && UnlabelCall(cfg, nn) in ProgramOf(cfg, sessions[j]).calls;
    ClashHidesAt(cfg, c, sessions, start, nn, i, j);
  }

  lemma ClashHidesAt(cfg: Config, c: Cluster, sessions: seq<Session>, start: seq<nat>, nn: NamespacedName, i: nat,
                     j: nat)
    requires ValidConfig(cfg) && cfg.labels != map[] && Inv(cfg, c) && AllFresh(cfg, c, sessions)
    requires i < |sessions| && j < |sessions| && sessions[i].adoptee == nn && Sole(cfg, Lookup(c, nn))
    requires AnnotateCall(cfg, sessions[i].owner, nn) in ProgramOf(cfg, sessions[i]).calls
    requires UnlabelCall(cfg, nn) in ProgramOf(cfg, sessions[j]).calls
    requires |start| == |sessions| && forall i :: 0 <= i < |start| ==> start[i] == 0
    ensures exists schedule :: !AlwaysVisible(cfg, c, Programs(cfg, sessions), start, schedule)
  {
    hide Inv, ValidConfig, AllFresh, ProgramOf, LabelCall, UnlabelCall, AnnotateCall, Sole, AlwaysVisible,
         AllHarmless, ValidProgram, Times, First, Lookup;
    var ps := Programs(cfg, sessions);
    var m, k := First(ps[i].calls, AnnotateCall(cfg, sessions[i].owner, nn)), First(ps[j].calls, UnlabelCall(cfg, nn));
    AllValid(cfg, c, sessions);
    InterleavingKeepsVisibility(cfg, c, ps, start, Times(j, k) + (Times(i, m + 1) + [j]));
    ClashSchedule(cfg, c, sessions, start, nn, i, j, m, k);
  }

  lemma AllValid(cfg: Config, c: Cluster, sessions: seq<Session>)
    requires ValidConfig(cfg) && Inv(cfg, c) && AllFresh(cfg, c, sessions)
    ensures forall i :: 0 <= i < |sessions| ==> ValidProgram(cfg, ProgramOf(cfg, sessions[i]))
  {
    hide Inv, ValidConfig, Fresh, ProgramOf, ValidProgram, ValidSession;
    forall i | 0 <= i < |sessions| ensures ValidProgram(cfg, ProgramOf(cfg, sessions[i])) {
      var s := sessions[i];
      FreshIsValidSession(cfg, c, s.owner, s.adoptee, s.view);
      assert Session(s.owner, s.adoptee, s.view) == s;
      HandleIsValidProgram(cfg, s);
    }
  }

  lemma ClashSchedule(cfg: Config, c: Cluster, sessions: seq<Session>, start: seq<nat>, nn: NamespacedName,
                      i: nat, j: nat, m: nat, k: nat)
    requires ValidConfig(cfg) && cfg.labels != map[] && Inv(cfg, c) && AllFresh(cfg, c, sessions)
    requires i < |sessions| && j < |sessions| && sessions[i].adoptee == nn && Sole(cfg, Lookup(c, nn))
    requires var ci, cj := ProgramOf(cfg, sessions[i]).calls, ProgramOf(cfg, sessions[j]).calls;
             && m < |ci| && ci[m] == AnnotateCall(cfg, sessions[i].owner, nn)
             && k < |cj| && cj[k] == UnlabelCall(cfg, nn) && UnlabelCall(cfg, nn) !in cj[..k]
    requires |start| == |sessions| && forall i :: 0 <= i < |start| ==> start[i] == 0
    ensures !AllHarmless(cfg, c, Programs(cfg, sessions), start, Times(j, k) + (Times(i, m + 1) + [j]))
  {
    hide Inv, ValidConfig, AllFresh, ProgramOf, LabelCall, UnlabelCall, AnnotateCall, Labelled, Sole,
         AllHarmless, ValidProgram, Times, ApplyAll, Harmless, Lookup;
    var ps := Programs(cfg, sessions);
    LastCallHarms(cfg, c, sessions, nn, i, j, m, k);
    AdopteeNotOwn(cfg, c, sessions, nn, i, j);
    if AllHarmless(cfg, c, ps, start, Times(j, k) + (Times(i, m + 1) + [j])) {
      OneRuns(cfg, c, ps, start, j, k, Times(i, m + 1) + [j]);
      var p1 := start[j := start[j] + k];
      OneRuns(cfg, ApplyAll(c, ps[j].calls[0..k]), ps, p1, i, m + 1, [j]);
      LastCall(cfg, ApplyAll(ApplyAll(c, ps[j].calls[0..k]), ps[i].calls[0..m + 1]), ps, p1[i := p1[i] + (m + 1)], j);
    }
  }

  /** A Handle does not release its own adoptee. */
  lemma AdopteeNotOwn(cfg: Config, c: Cluster, sessions: seq<Session>, nn: NamespacedName, i: nat, j: nat)
    requires ValidConfig(cfg) && cfg.labels != map[] && Inv(cfg, c) && AllFresh(cfg, c, sessions)
    requires i < |sessions| && j < |sessions| && sessions[i].adoptee == nn
    requires UnlabelCall(cfg, nn) in ProgramOf(cfg, sessions[j]).calls
    ensures i != j
  {
    hide Inv, ValidConfig, Fresh, ProgramOf, UnlabelCall;
    UnlabelledIsOwned(cfg, c, sessions[j], nn);
  }

  lemma LastCall(cfg: Config, c: Cluster, programs: seq<Program>, p: seq<nat>, j: nat)
    requires |p| == |programs| && j < |programs| && p[j] < |programs[j].calls| && AllHarmless(cfg, c, programs, p, [j])
    ensures Harmless(cfg, c, programs[j].owner, programs[j].calls[p[j]])
  {}

  lemma LastCallHarms(cfg: Config, c: Cluster, sessions: seq<Session>, nn: NamespacedName, i: nat, j: nat, m: nat,
                      k: nat)
    requires ValidConfig(cfg) && cfg.labels != map[] && Inv(cfg, c) && AllFresh(cfg, c, sessions)
    requires i < |sessions| && j < |sessions| && sessions[i].adoptee == nn && Sole(cfg, Lookup(c, nn))
    requires var ci, cj := ProgramOf(cfg, sessions[i]).calls, ProgramOf(cfg, sessions[j]).calls;
             && m < |ci| && ci[m] == AnnotateCall(cfg, sessions[i].owner, nn)
             && k < |cj| && cj[k] == UnlabelCall(cfg, nn) && UnlabelCall(cfg, nn) !in cj[..k]
    ensures var ci, cj := ProgramOf(cfg, sessions[i]).calls, ProgramOf(cfg, sessions[j]).calls;
            !Harmless(cfg, ApplyAll(ApplyAll(c, cj[0..k]), ci[0..m + 1]), ProgramOf(cfg, sessions[j]).owner, cj[k])
  {
    hide ValidConfig, AllFresh, Inv, ProgramOf, ApplyAll, Sole, HasOwner, Lookup, ServerSideApply.Apply, Harmless,
         UnlabelCall, AnnotateCall, ValidProgram, ClusterOk;
    var pi, pj := ProgramOf(cfg, sessions[i]), ProgramOf(cfg, sessions[j]);
    ReleaserKeepsSole(cfg, c, sessions, nn, j, k);
    var d := ApplyAll(c, pj.calls[0..k]);
    AnnotatorKeepsSole(cfg, c, d, sessions, nn, i, j, m);
    assert pi.calls[0..m + 1] == pi.calls[0..m] + [pi.calls[m]];
    ApplyAllConcat(d, pi.calls[0..m], [pi.calls[m]]);
    ApplyOne(ApplyAll(d, pi.calls[0..m]), pi.calls[m]);
    AnnotatedHasOwner(cfg, ApplyAll(d, pi.calls[0..m]), sessions[i].owner, nn);
    SoleUnlabelHarms(cfg, ApplyAll(d, pi.calls[0..m + 1]), pj.owner, nn);
  }

  lemma SoleUnlabelHarms(cfg: Config, c: Cluster, owner: NamespacedName, nn: NamespacedName)
    requires HasOwner(cfg, Lookup(c, nn)) && Sole(cfg, Lookup(c, nn))
    ensures !Harmless(cfg, c, owner, UnlabelCall(cfg, nn))
  {}

  lemma ReleaserKeepsSole(cfg: Config, c: Cluster, sessions: seq<Session>, nn: NamespacedName, j: nat, k: nat)
    requires ValidConfig(cfg) && cfg.labels != map[] && Inv(cfg, c) && AllFresh(cfg, c, sessions) && j < |sessions|
    requires var cj := ProgramOf(cfg, sessions[j]).calls;
             k < |cj| && cj[k] == UnlabelCall(cfg, nn) && UnlabelCall(cfg, nn) !in cj[..k]
    ensures var d := ApplyAll(c, ProgramOf(cfg, sessions[j]).calls[0..k]);
            ClusterOk(cfg, d) && (Sole(cfg, Lookup(d, nn)) <==> Sole(cfg, Lookup(c, nn)))
  {
    hide ValidConfig, Fresh, Inv, ProgramOf, ApplyAll, Sole, Lookup, UnlabelCall, CallBy, ClusterOk;
    var prog := ProgramOf(cfg, sessions[j]);
    assert prog.calls[k] in prog.calls;
    UnlabelledIsOwned(cfg, c, sessions[j], nn);
    forall b | 0 <= b < k && prog.calls[b].target == nn ensures prog.calls[b].manager != cfg.controller {
      assert prog.calls[b] in prog.calls[..k];
      if prog.calls[b].manager == cfg.controller {
        ControllerCalls(cfg, sessions[j], b);
      }
    }
    InvIsOk(cfg, c);
    AllValid(cfg, c, sessions);
    SoleKept(cfg, c, prog.owner, prog.calls[0..k], nn);
  }

  lemma AnnotatorKeepsSole(cfg: Config, c: Cluster, d: Cluster, sessions: seq<Session>, nn: NamespacedName, i: nat,
                           j: nat, m: nat)
    requires ValidConfig(cfg) && cfg.labels != map[] && Inv(cfg, c) && AllFresh(cfg, c, sessions) && ClusterOk(cfg, d)
    requires i < |sessions| && j < |sessions| && sessions[i].adoptee == nn && m < |ProgramOf(cfg, sessions[i]).calls|
    requires UnlabelCall(cfg, nn) in ProgramOf(cfg, sessions[j]).calls
    ensures Sole(cfg, Lookup(ApplyAll(d, ProgramOf(cfg, sessions[i]).calls[0..m + 1]), nn)) <==>
            Sole(cfg, Lookup(d, nn))
  {
    hide ValidConfig, Fresh, Inv, ProgramOf, ApplyAll, Sole, Lookup, UnlabelCall, CallBy, ClusterOk;
    var prog := ProgramOf(cfg, sessions[i]);
    UnlabelledIsOwned(cfg, c, sessions[j], nn);
    forall b | 0 <= b < m + 1 && prog.calls[b].target == nn ensures prog.calls[b].manager != cfg.controller {
      AdopteeUntouched(cfg, c, sessions[i], b);
    }
    AllValid(cfg, c, sessions);
    SoleKept(cfg, d, prog.owner, prog.calls[0..m + 1], nn);
  }

  lemma AnnotatedHasOwner(cfg: Config, c: Cluster, owner: NamespacedName, nn: NamespacedName)
    ensures HasOwner(cfg, Lookup(Apply(c, AnnotateCall(cfg, owner, nn)), nn))
  {
    var f := OwnerField(cfg, owner);
    assert f in AnnotateCall(cfg, owner, nn).patch;
    assert f in Lookup(Apply(c, AnnotateCall(cfg, owner, nn)), nn).fields && IsOwnerField(cfg, f);
  }

  /** A Handle that finds its adoptee labelled makes no call on it under the controller's name. */
  lemma AdopteeUntouched(cfg: Config, c: Cluster, s: Session, b: nat)
    requires ValidConfig(cfg) && cfg.labels != map[] && Inv(cfg, c) && Fresh(cfg, c, s.owner, s.adoptee, s.view)
    requires s.adoptee in c && Labelled(cfg, c[s.adoptee]) && b < |ProgramOf(cfg, s).calls|
    ensures ProgramOf(cfg, s).calls[b].target == s.adoptee ==> ProgramOf(cfg, s).calls[b].manager != cfg.controller
  {
    hide Inv, ValidConfig, Fresh, ProgramOf, Labelled, UnlabelCall;
    var call := ProgramOf(cfg, s).calls[b];
    if call.manager == cfg.controller {
      ControllerCalls(cfg, s, b);
      LabelledIsNotLabelled(cfg, c, s, s.adoptee);
      assert call in ProgramOf(cfg, s).calls;
      if call == UnlabelCall(cfg, call.target) {
        UnlabelledIsOwned(cfg, c, s, call.target);
      }
    }
  }

  // ----- The exact rule -----

  /** Any number of Handles that have read the same fresh caches: every interleaving of their calls, stopped
      anywhere, keeps every owned object labelled, if and only if no object that one of them annotates and another
      unlabels has a label owned by the controller alone. */
  lemma VisibleUnlessClash(cfg: Config, c: Cluster, sessions: seq<Session>, start: seq<nat>)
    requires ValidConfig(cfg) && Inv(cfg, c) && AllFresh(cfg, c, sessions)
    requires |start| == |sessions| && forall i :: 0 <= i < |start| ==> start[i] == 0
    ensures (forall schedule :: AlwaysVisible(cfg, c, Programs(cfg, sessions), start, schedule)) <==>
            !Clash(cfg, c, sessions)
  {
    hide Inv, ValidConfig, AllFresh, Orderly, AlwaysVisible, Contested;
    if cfg.labels == map[] {
      forall schedule ensures AlwaysVisible(cfg, c, Programs(cfg, sessions), start, schedule) {
        NoLabelsAlwaysVisible(cfg, c, Programs(cfg, sessions), start, schedule);
      }
    } else if Clash(cfg, c, sessions) {
      ClashHides(cfg, c, sessions, start);
    } else {
      SessionsAreOrderly(cfg, c, sessions, start);
      forall schedule ensures AlwaysVisible(cfg, c, Programs(cfg, sessions), start, schedule) {
        OrderlyStaysVisible(cfg, c, Programs(cfg, sessions), start, ContestedNames(cfg, sessions), schedule);
      }
    }
  }

  lemma {:induction false} NoLabelsAlwaysVisible(cfg: Config, c: Cluster, programs: seq<Program>, p: seq<nat>,
                                                 schedule: seq<nat>)
    requires cfg.labels == map[] && |p| == |programs|
    ensures AlwaysVisible(cfg, c, programs, p, schedule)
    decreases |schedule|
  {
    hide ServerSideApply.Apply;
    if schedule != [] {
      var i := schedule[0];
      if i < |programs| && p[i] < |programs[i].calls| {
        NoLabelsAlwaysVisible(cfg, Apply(c, programs[i].calls[p[i]]), programs, p[i := p[i] + 1], schedule[1..]);
      } else {
        NoLabelsAlwaysVisible(cfg, c, programs, p, schedule[1..]);
      }
    }
  }
}
