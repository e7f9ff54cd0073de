/** Interleavings of adoption Handles, one call at a time: exactly when they keep every owned object visible to
    the controller, and a rule for the owners under which every interleaving does.
 */
module AdoptionSchedules {
  import opened Options
  import opened ServerSideApply
  import opened Adoption
  import opened AdoptionRuns
  import opened AdoptionRecovery
  import opened AdoptionTheorems
  import opened AdoptionLimits

  // ----- Exactly the schedules that keep owned objects labelled -----

  /** The state in which a call does no harm: an object to annotate is labelled, and an object to take the labels
      from has no owner or keeps its labels for another manager's sake. */
  ghost predicate Harmless(cfg: Config, c: Cluster, owner: NamespacedName, call: Call) {
    var o := Lookup(c, call.target);
    && (call == AnnotateCall(cfg, owner, call.target) ==> Labelled(cfg, o))
    && (call == UnlabelCall(cfg, call.target) && HasOwner(cfg, o) ==>
          forall l :: l in cfg.labels ==> !Relinquished(o, cfg.controller, map[], Label(l)))
  }

  /** Owned objects are labelled at every moment of the schedule. */
  ghost predicate AlwaysVisible(cfg: Config, c: Cluster, programs: seq<Program>, p: seq<nat>, schedule: seq<nat>)
    requires |p| == |programs|
    decreases |schedule|
  {
    OwnedIsLabelled(cfg, c) &&
    (schedule == [] ||
     var i := schedule[0];
     if i < |programs| && p[i] < |programs[i].calls| then
       AlwaysVisible(cfg, Apply(c, programs[i].calls[p[i]]), programs, p[i := p[i] + 1], schedule[1..])
     else AlwaysVisible(cfg, c, programs, p, schedule[1..]))
  }

  /** Every call of the schedule meets a state in which it does no harm. */
  ghost predicate AllHarmless(cfg: Config, c: Cluster, programs: seq<Program>, p: seq<nat>, schedule: seq<nat>)
    requires |p| == |programs|
    decreases |schedule|
  {
    schedule == [] ||
    var i := schedule[0];
    if i < |programs| && p[i] < |programs[i].calls| then
      && Harmless(cfg, c, programs[i].owner, programs[i].calls[p[i]])
      && AllHarmless(cfg, Apply(c, programs[i].calls[p[i]]), programs, p[i := p[i] + 1], schedule[1..])
    else AllHarmless(cfg, c, programs, p, schedule[1..])
  }

  /** An interleaving keeps owned objects labelled all along exactly when each of its calls is harmless when
      it is made. */
  lemma {:induction false} InterleavingKeepsVisibility(cfg: Config, c: Cluster, programs: seq<Program>, p: seq<nat>,
                                                       schedule: seq<nat>)
    requires ValidConfig(cfg) && Inv(cfg, c) && |p| == |programs|
    requires forall i :: 0 <= i < |programs| ==> ValidProgram(cfg, programs[i])
    ensures AlwaysVisible(cfg, c, programs, p, schedule) <==> AllHarmless(cfg, c, programs, p, schedule)
    decreases |schedule|
  {
    hide ServerSideApply.Apply, ClusterOk, OwnedIsLabelled, ValidConfig, CallBy, Harmless;
    if schedule != [] {
      var i := schedule[0];
      if i < |programs| && p[i] < |programs[i].calls| {
        var owner, call := programs[i].owner, programs[i].calls[p[i]];
        assert ValidProgram(cfg, programs[i]);
        HarmlessExact(cfg, c, owner, call);
        if Harmless(cfg, c, owner, call) {
          InterleavingKeepsVisibility(cfg, Apply(c, call), programs, p[i := p[i] + 1], schedule[1..]);
        } else {
          Hidden(cfg, Apply(c, call), programs, p[i := p[i] + 1], schedule[1..]);
        }
      } else {
        InterleavingKeepsVisibility(cfg, c, programs, p, schedule[1..]);
      }
    }
  }

  lemma HarmlessExact(cfg: Config, c: Cluster, owner: NamespacedName, call: Call)
    requires ValidConfig(cfg) && Inv(cfg, c) && CallBy(cfg, owner, call) && '/' !in owner.namespace
    ensures ClusterOk(cfg, Apply(c, call))
    ensures OwnedIsLabelled(cfg, Apply(c, call)) <==> Harmless(cfg, c, owner, call)
  {
    hide ForceApply, ClusterOk, OwnedIsLabelled, ValidConfig, CallBy, HasOwner, Labelled, Relinquished;
    CallKeepsOk(cfg, c, owner, call);
    CallKeepsVisibility(cfg, c, owner, call);
  }

  lemma Hidden(cfg: Config, c: Cluster, programs: seq<Program>, p: seq<nat>, schedule: seq<nat>)
    requires |p| == |programs| && !OwnedIsLabelled(cfg, c)
    ensures !AlwaysVisible(cfg, c, programs, p, schedule)
  {}

  // ----- Programs that cannot get in each other's way -----

  ghost predicate LabelComes(cfg: Config, prog: Program, from: nat, m: nat, nn: NamespacedName) {
    exists k :: from <= k < m && k < |prog.calls| && prog.calls[k] == LabelCall(cfg, nn)
  }

  /** What the program is still going to annotate is labelled, or the program labels it before. */
  ghost predicate ReadyToAnnotate(cfg: Config, c: Cluster, prog: Program, from: nat) {
    forall m :: from <= m < |prog.calls| && prog.calls[m] == AnnotateCall(cfg, prog.owner, prog.calls[m].target) ==>
      Labelled(cfg, Lookup(c, prog.calls[m].target)) || LabelComes(cfg, prog, from, m, prog.calls[m].target)
  }

  /** What the program is still going to unlabel, if it is not firm, has no owner but this one, whom the program
      removes just before. */
  ghost predicate ReadyToUnlabel(cfg: Config, c: Cluster, prog: Program, from: nat, firm: set<NamespacedName>) {
    forall m, f :: from <= m < |prog.calls| && prog.calls[m] == UnlabelCall(cfg, prog.calls[m].target) &&
                   prog.calls[m].target !in firm &&
                   f in Lookup(c, prog.calls[m].target).fields && IsOwnerField(cfg, f) ==>
      && f == OwnerField(cfg, prog.owner) && from < m
      && prog.calls[m - 1] == UnannotateCall(cfg, prog.owner, prog.calls[m].target)
  }

  /** No program unlabels what a program annotates, except for firm objects. */
  ghost predicate TargetsApart(cfg: Config, programs: seq<Program>, firm: set<NamespacedName>) {
    forall i, j, m, k ::
      0 <= i < |programs| && 0 <= j < |programs| && 0 <= m < |programs[i].calls| && 0 <= k < |programs[j].calls|
      && programs[i].calls[m] == AnnotateCall(cfg, programs[i].owner, programs[i].calls[m].target)
      && programs[j].calls[k] == UnlabelCall(cfg, programs[j].calls[k].target)
      && programs[i].calls[m].target !in firm ==>
      programs[i].calls[m].target != programs[j].calls[k].target
  }

  /** The controller alone owns one of its labels: taking its labels away removes that one. */
  ghost predicate Sole(cfg: Config, o: Object) {
    exists l :: l in cfg.labels && Relinquished(o, cfg.controller, map[], Label(l))
  }

  /** Taking the controller's labels away leaves the object labelled. */
  ghost predicate Firm(cfg: Config, o: Object) {
    Labelled(cfg, o) && !Sole(cfg, o)
  }

  /** Firm objects are firm, and no program is going to put the controller's name to their labels. */
  ghost predicate FirmOk(cfg: Config, c: Cluster, programs: seq<Program>, firm: set<NamespacedName>) {
    && (forall nn :: nn in firm ==> Firm(cfg, Lookup(c, nn)))
    && (forall i, m :: 0 <= i < |programs| && 0 <= m < |programs[i].calls| && programs[i].calls[m].target in firm ==>
          programs[i].calls[m] != LabelCall(cfg, programs[i].calls[m].target))
  }

  ghost predicate Orderly(cfg: Config, c: Cluster, programs: seq<Program>, p: seq<nat>, firm: set<NamespacedName>)
    requires |p| == |programs|
  {
    && Inv(cfg, c) && TargetsApart(cfg, programs, firm) && FirmOk(cfg, c, programs, firm)
    && (forall i :: 0 <= i < |programs| ==>
          && ValidProgram(cfg, programs[i])
          && ReadyToAnnotate(cfg, c, programs[i], p[i]) && ReadyToUnlabel(cfg, c, programs[i], p[i], firm))
  }

  /** What a call does to the owners and labels of its target. */
  lemma CallOnTarget(cfg: Config, c: Cluster, owner: NamespacedName, call: Call)
    requires ValidConfig(cfg) && ClusterOk(cfg, c) && CallBy(cfg, owner, call) && '/' !in owner.namespace
    ensures var o, o' := Lookup(c, call.target), Lookup(Apply(c, call), call.target);
            && (call == LabelCall(cfg, call.target) ==> Labelled(cfg, o'))
            && (call != UnlabelCall(cfg, call.target) && Labelled(cfg, o) ==> Labelled(cfg, o'))
            && (forall f :: IsOwnerField(cfg, f) && f in o'.fields ==>
                  f in o.fields || (f == OwnerField(cfg, owner) && call == AnnotateCall(cfg, owner, call.target)))
            && (call == UnannotateCall(cfg, owner, call.target) ==> OwnerField(cfg, owner) !in o'.fields)
    ensures forall nn :: nn != call.target ==> Lookup(Apply(c, call), nn) == Lookup(c, nn)
  {
    hide ForceApply, ObjectOk, Labelled, ClusterOk;
    var o := Lookup(c, call.target);
    OwnerIsNotController(cfg, owner);
    CallKeepsOk(cfg, c, owner, call);
    TargetEffect(cfg, o, owner, call);
    if call == LabelCall(cfg, call.target) {
      LabelApply(cfg, owner.namespace, call.target, o);
    } else if call.manager != cfg.controller {
      OwnerKeepsLabels(cfg, owner, o, call.patch);
    }
  }

  /** An owner's call does not change who owns the labels. */
  lemma OwnerKeepsSole(cfg: Config, owner: NamespacedName, o: Object, patch: Patch)
    requires ValidConfig(cfg) && ObjectOk(cfg, owner.namespace, o)
    requires patch == map[] || patch == map[OwnerField(cfg, owner) := OWNED]
    ensures Sole(cfg, ForceApply(o, cfg.ownerManager(owner), patch)) <==> Sole(cfg, o)
  {
    hide ObjectOk, ValidConfig;
    var m := cfg.ownerManager(owner);
    var o' := ForceApply(o, m, patch);
    OwnsOnlyAnnotation(cfg, owner, o);
    OwnerIsNotController(cfg, owner);
    forall p: (Manager, Field) | p.1.Label? ensures p in o'.managed <==> p in o.managed {}
    forall l ensures Relinquished(o', cfg.controller, map[], Label(l)) <==>
        Relinquished(o, cfg.controller, map[], Label(l)) {
      assert OwnedByOther(o', cfg.controller, Label(l)) <==> OwnedByOther(o, cfg.controller, Label(l));
    }
  }

  lemma OwnsOnlyAnnotation(cfg: Config, owner: NamespacedName, o: Object)
    requires ObjectOk(cfg, owner.namespace, o)
    ensures forall f :: (cfg.ownerManager(owner), f) in o.managed ==> f == OwnerField(cfg, owner)
  {}

  lemma UnlabelKeepsFirm(cfg: Config, o: Object)
    requires Firm(cfg, o)
    ensures Firm(cfg, ForceApply(o, cfg.controller, map[]))
  {
    var o' := ForceApply(o, cfg.controller, map[]);
    forall l | l in cfg.labels ensures Label(l) in o'.fields && o'.fields[Label(l)] == cfg.labels[l] {
      assert !Relinquished(o, cfg.controller, map[], Label(l));
    }
  }

  /** No call but a labelling one makes a firm object lose its firmness. */
  lemma FirmStep(cfg: Config, c: Cluster, owner: NamespacedName, call: Call, nn: NamespacedName)
    requires ValidConfig(cfg) && ClusterOk(cfg, c) && CallBy(cfg, owner, call) && '/' !in owner.namespace
    requires Firm(cfg, Lookup(c, nn)) && (nn == call.target ==> call != LabelCall(cfg, nn))
    ensures Firm(cfg, Lookup(Apply(c, call), nn))
  {
    hide ForceApply, ObjectOk, ClusterOk, Labelled, Sole, ValidConfig;
    if nn == call.target {
      CallKeepsOk(cfg, c, owner, call);
      if call == UnlabelCall(cfg, nn) {
        UnlabelKeepsFirm(cfg, Lookup(c, nn));
      } else {
        OwnerKeepsLabels(cfg, owner, Lookup(c, nn), call.patch);
        OwnerKeepsSole(cfg, owner, Lookup(c, nn), call.patch);
      }
    }
  }

  /** Another program's call leaves this one ready. */
  lemma OthersKeepReady(cfg: Config, c: Cluster, owner: NamespacedName, call: Call, prog: Program, from: nat,
                        firm: set<NamespacedName>)
    requires ValidConfig(cfg) && ClusterOk(cfg, c) && CallBy(cfg, owner, call) && '/' !in owner.namespace
    requires ReadyToAnnotate(cfg, c, prog, from) && ReadyToUnlabel(cfg, c, prog, from, firm)
    requires call.target in firm ==> Firm(cfg, Lookup(Apply(c, call), call.target))
    requires call.target !in firm ==> forall m :: 0 <= m < |prog.calls| && prog.calls[m].target == call.target ==>
               && !(prog.calls[m] == AnnotateCall(cfg, prog.owner, call.target)
                  && call == UnlabelCall(cfg, call.target))
               && !(prog.calls[m] == UnlabelCall(cfg, call.target) && call == AnnotateCall(cfg, owner, call.target))
    ensures ReadyToAnnotate(cfg, Apply(c, call), prog, from) && ReadyToUnlabel(cfg, Apply(c, call), prog, from, firm)
  {
    hide ServerSideApply.Apply, Labelled, ClusterOk, ValidConfig, CallBy, LabelCall, UnlabelCall, AnnotateCall,
         UnannotateCall, LabelComes, Sole;
    CallOnTarget(cfg, c, owner, call);
  }

  /** Its own call takes it one step further. */
  lemma OwnKeepsReady(cfg: Config, c: Cluster, prog: Program, from: nat, firm: set<NamespacedName>)
    requires ValidConfig(cfg) && ClusterOk(cfg, c) && ValidProgram(cfg, prog) && from < |prog.calls|
    requires ReadyToAnnotate(cfg, c, prog, from) && ReadyToUnlabel(cfg, c, prog, from, firm)
    requires TargetsApart(cfg, [prog], firm)
    requires prog.calls[from].target in firm ==> Firm(cfg, Lookup(Apply(c, prog.calls[from]), prog.calls[from].target))
    ensures ReadyToAnnotate(cfg, Apply(c, prog.calls[from]), prog, from + 1)
    ensures ReadyToUnlabel(cfg, Apply(c, prog.calls[from]), prog, from + 1, firm)
  {
    hide ServerSideApply.Apply, Labelled, ClusterOk, ValidConfig, CallBy, LabelCall, UnlabelCall, AnnotateCall,
         UnannotateCall, Firm;
    var call := prog.calls[from];
    CallOnTarget(cfg, c, prog.owner, call);
    assert [prog][0] == prog;
    OthersKeepReady(cfg, c, prog.owner, call, prog, from, firm);
    var d := Apply(c, call);
    forall m | from + 1 <= m < |prog.calls| && prog.calls[m] == AnnotateCall(cfg, prog.owner, prog.calls[m].target)
      ensures Labelled(cfg, Lookup(d, prog.calls[m].target)) || LabelComes(cfg, prog, from + 1, m, prog.calls[m].target)
    {
      var nn := prog.calls[m].target;
      if LabelComes(cfg, prog, from, m, nn) && !LabelComes(cfg, prog, from + 1, m, nn) {
        assert call == LabelCall(cfg, nn);
        LabelTarget(cfg, nn);
      }
    }
    forall m, f | from + 1 <= m < |prog.calls| && prog.calls[m] == UnlabelCall(cfg, prog.calls[m].target)
                  && prog.calls[m].target !in firm && f in Lookup(d, prog.calls[m].target).fields
                     && IsOwnerField(cfg, f)
      ensures f == OwnerField(cfg, prog.owner) && from + 1 < m
      ensures prog.calls[m - 1] == UnannotateCall(cfg, prog.owner, prog.calls[m].target)
    {
      if m == from + 1 {
        UnannotateTarget(cfg, prog.owner, prog.calls[m].target);
      }
    }
  }

  lemma LabelTarget(cfg: Config, nn: NamespacedName)
    ensures LabelCall(cfg, nn).target == nn
  {}

  lemma UnannotateTarget(cfg: Config, owner: NamespacedName, nn: NamespacedName)
    ensures UnannotateCall(cfg, owner, nn).target == nn
  {}

  /** A call of an orderly program is harmless. */
  lemma OrderlyIsHarmless(cfg: Config, c: Cluster, prog: Program, from: nat, firm: set<NamespacedName>)
    requires Inv(cfg, c) && from < |prog.calls|
    requires ReadyToAnnotate(cfg, c, prog, from) && ReadyToUnlabel(cfg, c, prog, from, firm)
    requires prog.calls[from].target in firm ==> Firm(cfg, Lookup(c, prog.calls[from].target))
    ensures Harmless(cfg, c, prog.owner, prog.calls[from])
  {
    hide Labelled, LabelCall, UnlabelCall, AnnotateCall, UnannotateCall, Inv;
    var call := prog.calls[from];
    assert !LabelComes(cfg, prog, from, from, call.target);
    if call == UnlabelCall(cfg, call.target) && call.target !in firm {
      assert !HasOwner(cfg, Lookup(c, call.target));
    }
  }

  lemma OrderlyStep(cfg: Config, c: Cluster, programs: seq<Program>, p: seq<nat>, firm: set<NamespacedName>, i: nat)
    requires ValidConfig(cfg) && |p| == |programs| && Orderly(cfg, c, programs, p, firm)
    requires i < |programs| && p[i] < |programs[i].calls|
    ensures Harmless(cfg, c, programs[i].owner, programs[i].calls[p[i]])
    ensures Orderly(cfg, Apply(c, programs[i].calls[p[i]]), programs, p[i := p[i] + 1], firm)
  {
    hide ServerSideApply.Apply, ClusterOk, OwnedIsLabelled, ValidConfig, Harmless, ReadyToAnnotate, ReadyToUnlabel,
         CallBy, LabelCall, UnlabelCall, AnnotateCall, UnannotateCall, Firm;
    var owner, call := programs[i].owner, programs[i].calls[p[i]];
    var d := Apply(c, call);
    assert ValidProgram(cfg, programs[i]);
    OrderlyIsHarmless(cfg, c, programs[i], p[i], firm);
    HarmlessExact(cfg, c, owner, call);
    forall nn | nn in firm ensures Firm(cfg, Lookup(d, nn)) {
      FirmStep(cfg, c, owner, call, nn);
    }
    forall j | 0 <= j < |programs|
      ensures ReadyToAnnotate(cfg, d, programs[j], p[i := p[i] + 1][j])
      ensures ReadyToUnlabel(cfg, d, programs[j], p[i := p[i] + 1][j], firm)
    {
      if j == i {
        assert TargetsApart(cfg, [programs[i]], firm);
        OwnKeepsReady(cfg, c, programs[i], p[i], firm);
      } else {
        OthersKeepReady(cfg, c, owner, call, programs[j], p[j], firm);
      }
    }
  }

  /** Orderly programs keep owned objects labelled under every schedule. */
  lemma {:induction false} OrderlyStaysVisible(cfg: Config, c: Cluster, programs: seq<Program>, p: seq<nat>,
                                               firm: set<NamespacedName>, schedule: seq<nat>)
    requires ValidConfig(cfg) && |p| == |programs| && Orderly(cfg, c, programs, p, firm)
    ensures AllHarmless(cfg, c, programs, p, schedule) && AlwaysVisible(cfg, c, programs, p, schedule)
    decreases |schedule|
  {
    hide ServerSideApply.Apply, ClusterOk, OwnedIsLabelled, ValidConfig, Harmless, ReadyToAnnotate, ReadyToUnlabel,
         TargetsApart, ValidProgram, FirmOk;
    if schedule != [] {
      var i := schedule[0];
      if i < |programs| && p[i] < |programs[i].calls| {
        OrderlyStep(cfg, c, programs, p, firm, i);
        OrderlyStaysVisible(cfg, Apply(c, programs[i].calls[p[i]]), programs, p[i := p[i] + 1], firm, schedule[1..]);
      } else {
        OrderlyStaysVisible(cfg, c, programs, p, firm, schedule[1..]);
      }
    }
  }

  // ----- A rule for the owners -----

  /** Where the un-labelling calls of a clean-up come from. */
  lemma {:induction false} CleanupUnlabels(cfg: Config, owner: NamespacedName, extras: seq<Entry>, m: nat)
    requires ValidConfig(cfg) && m < |CleanupPlan(cfg, owner, extras)|
             && CleanupPlan(cfg, owner, extras)[m].manager == cfg.controller
    ensures exists e :: e in extras && Unlabels(cfg, owner, CleanupPlan(cfg, owner, extras), m, e)
    decreases |extras|
  {
    var plan, first := CleanupPlan(cfg, owner, extras), ReleasePlan(cfg, owner, extras[0]);
    var rest := CleanupPlan(cfg, owner, extras[1..]);
    OwnerIsNotController(cfg, owner);
    if m < |first| {
      assert plan[m] == first[m];
      assert m > 0 ==> plan[m - 1] == first[m - 1];
      assert Unlabels(cfg, owner, plan, m, extras[0]);
    } else {
      assert plan[m] == rest[m - |first|];
      CleanupUnlabels(cfg, owner, extras[1..], m - |first|);
      var e :| e in extras[1..] && Unlabels(cfg, owner, rest, m - |first|, e);
      assert m - |first| > 0 ==> plan[m - 1] == rest[m - |first| - 1];
      assert Unlabels(cfg, owner, plan, m, e);
    }
  }

  /** The call takes the labels from `e`, which has no other owner, right after removing this owner if it is one. */
  ghost predicate Unlabels(cfg: Config, owner: NamespacedName, plan: seq<Call>, m: nat, e: Entry)
    requires m < |plan|
  {
    && plan[m].target == e.nn && !HasOtherOwner(cfg, owner, e.o)
    && (CarriesOwner(cfg, owner, e.o) ==> m > 0 && plan[m - 1] == UnannotateCall(cfg, owner, e.nn))
  }

  /** Which call of a Handle is which. */
  lemma PlanAt(cfg: Config, s: Session, m: nat)
    requires ValidConfig(cfg) && cfg.labels != map[] && m < |ProgramOf(cfg, s).calls|
    ensures var call := ProgramOf(cfg, s).calls[m];
            && (call == AnnotateCall(cfg, s.owner, call.target) ==>
                  call.target == s.adoptee && s.adoptee.name != ""
                  && (s.view.cached.Miss? ==> m > 0 && ProgramOf(cfg, s).calls[0] == LabelCall(cfg, s.adoptee)))
            && (call == UnlabelCall(cfg, call.target) ==>
                  && s.view.index.Some?
                  && exists e ::
                       && e in Extras(s.adoptee, s.view.index.value)
                       && Unlabels(cfg, s.owner, ProgramOf(cfg, s).calls, m, e))
  {
    hide CleanupPlan, Extras, ValidConfig;
    var plan, call := ProgramOf(cfg, s).calls, ProgramOf(cfg, s).calls[m];
    OwnerIsNotController(cfg, s.owner);
    LabelIsNotUnlabel(cfg, s.adoptee);
    if s.view.index.Some? {
      var extras := Extras(s.adoptee, s.view.index.value);
      var head := LabelPlan(cfg, s.adoptee, s.view) + AnnotatePlan(cfg, s.owner, s.adoptee, s.view.index.value);
      var k := CleanupPlan(cfg, s.owner, extras);
      assert plan == head + k;
      if m >= |head| {
        assert call == k[m - |head|];
        CleanupNeverAnnotates(cfg, s.owner, extras, m - |head|);
        AnnotatingSets(cfg, s.owner, call.target);
        if call == UnlabelCall(cfg, call.target) {
          CleanupUnlabels(cfg, s.owner, extras, m - |head|);
          var e :| e in extras && Unlabels(cfg, s.owner, k, m - |head|, e);
          assert m - |head| > 0 ==> plan[m - 1] == k[m - |head| - 1];
          assert Unlabels(cfg, s.owner, plan, m, e);
        }
      }
    }
  }

  lemma LabelIsNotUnlabel(cfg: Config, nn: NamespacedName)
    requires cfg.labels != map[]
    ensures LabelCall(cfg, nn) != UnlabelCall(cfg, nn)
  {
    var l :| l in cfg.labels;
    assert Label(l) in LabelCall(cfg, nn).patch;
  }

  lemma FreshIsReady(cfg: Config, c: Cluster, s: Session)
    requires ValidConfig(cfg) && cfg.labels != map[] && Inv(cfg, c) && Fresh(cfg, c, s.owner, s.adoptee, s.view)
    ensures ReadyToAnnotate(cfg, c, ProgramOf(cfg, s), 0) && ReadyToUnlabel(cfg, c, ProgramOf(cfg, s), 0, {})
  {
    hide Inv, ValidConfig, Labelled, AtIndexRead, Plan, Extras, ListsIndex, LabelCall, UnlabelCall, AnnotateCall,
         UnannotateCall;
    var prog := ProgramOf(cfg, s);
    forall m | 0 <= m < |prog.calls| && prog.calls[m] == AnnotateCall(cfg, s.owner, prog.calls[m].target)
      ensures Labelled(cfg, Lookup(c, prog.calls[m].target)) || LabelComes(cfg, prog, 0, m, prog.calls[m].target)
    {
      PlanAt(cfg, s, m);
      NoCallsAfterCacheError(cfg, s);
    }
    forall m, f | 0 <= m < |prog.calls| && prog.calls[m] == UnlabelCall(cfg, prog.calls[m].target)
                  && f in Lookup(c, prog.calls[m].target).fields && IsOwnerField(cfg, f)
      ensures f == OwnerField(cfg, s.owner) && 0 < m
      ensures prog.calls[m - 1] == UnannotateCall(cfg, s.owner, prog.calls[m].target)
    {
      PlanAt(cfg, s, m);
      var e :| e in Extras(s.adoptee, s.view.index.value) && Unlabels(cfg, s.owner, prog.calls, m, e);
      ExtraIsCurrent(cfg, c, s, e);
      assert f in e.o.fields;
    }
  }

  lemma NoCallsAfterCacheError(cfg: Config, s: Session)
    ensures s.view.cached.CacheError? ==> ProgramOf(cfg, s).calls == []
  {}

  /** The snapshot of an object to release is what the cluster holds. */
  lemma ExtraIsCurrent(cfg: Config, c: Cluster, s: Session, e: Entry)
    requires ValidConfig(cfg) && Inv(cfg, c) && Fresh(cfg, c, s.owner, s.adoptee, s.view) && s.view.index.Some?
    requires e in Extras(s.adoptee, s.view.index.value)
    ensures e.o == Lookup(c, e.nn) && e.nn != s.adoptee
  {
    hide Inv, ValidConfig, Labelled, AtIndexRead, ListsIndex, Fresh, HasOwner, AnnotatedFor;
    var d := AtIndexRead(cfg, c, s.adoptee, s.view);
    FreshFacts(cfg, c, s.owner, s.adoptee, s.view);
    AfterLabelling(cfg, c, s.owner, s.adoptee, s.view);
    IndexReadFacts(cfg, d, s.owner, s.adoptee, s.view.index.value);
    ExtrasAreEntries(s.adoptee, s.view.index.value);
    CurrentAt(cfg, d, s.owner, Extras(s.adoptee, s.view.index.value), e);
  }

  lemma CurrentAt(cfg: Config, c: Cluster, owner: NamespacedName, extras: seq<Entry>, e: Entry)
    requires Current(cfg, c, owner, extras) && e in extras
    ensures Lookup(c, e.nn) == e.o
  {}

  /** Nobody wants to adopt an object that somebody is about to release. */
  ghost predicate WantsApart(sessions: seq<Session>) {
    forall i, j ::
      0 <= i < |sessions| && 0 <= j < |sessions| && sessions[i].adoptee.name != "" && sessions[j].view.index.Some? ==>
      !Found(sessions[i].adoptee, Extras(sessions[j].adoptee, sessions[j].view.index.value))
  }

  function Programs(cfg: Config, sessions: seq<Session>): (ps: seq<Program>)
    ensures |ps| == |sessions| && forall i :: 0 <= i < |ps| ==> ps[i] == ProgramOf(cfg, sessions[i])
  {
    seq(|sessions|, i requires 0 <= i < |sessions| => ProgramOf(cfg, sessions[i]))
  }

  lemma WantsApartTargets(cfg: Config, sessions: seq<Session>)
    requires ValidConfig(cfg) && cfg.labels != map[] && WantsApart(sessions)
    ensures TargetsApart(cfg, Programs(cfg, sessions), {})
  {
    hide ValidConfig, ProgramOf, Extras, LabelCall, UnlabelCall, AnnotateCall, UnannotateCall;
    var ps := Programs(cfg, sessions);
    forall i, j, m, k | 0 <= i < |ps| && 0 <= j < |ps| && 0 <= m < |ps[i].calls| && 0 <= k < |ps[j].calls|
                        && ps[i].calls[m] == AnnotateCall(cfg, ps[i].owner, ps[i].calls[m].target)
                        && ps[j].calls[k] == UnlabelCall(cfg, ps[j].calls[k].target)
      ensures ps[i].calls[m].target != ps[j].calls[k].target
    {
      OwnerOfProgram(cfg, sessions[i]);
      PlanAt(cfg, sessions[i], m);
      UnlabelsExtra(cfg, sessions[j], k);
    }
  }

  lemma UnlabelsExtra(cfg: Config, s: Session, k: nat)
    requires ValidConfig(cfg) && cfg.labels != map[] && k < |ProgramOf(cfg, s).calls|
    requires ProgramOf(cfg, s).calls[k] == UnlabelCall(cfg, ProgramOf(cfg, s).calls[k].target)
    ensures s.view.index.Some? && Found(ProgramOf(cfg, s).calls[k].target, Extras(s.adoptee, s.view.index.value))
  {
    hide ValidConfig, ProgramOf, Extras, LabelCall, UnlabelCall, AnnotateCall, UnannotateCall;
    PlanAt(cfg, s, k);
    var extras := Extras(s.adoptee, s.view.index.value);
    var e :| e in extras && Unlabels(cfg, s.owner, ProgramOf(cfg, s).calls, k, e);
    assert Found(e.nn, extras);
  }

  lemma OwnerOfProgram(cfg: Config, s: Session)
    ensures ProgramOf(cfg, s).owner == s.owner
  {}

  // ----- Handles that come at any time -----

  /** Handles under way, how far each has got, and the cluster. The index result of a Handle is None until it
      has read the index. */
  datatype Stage = Stage(cluster: Cluster, sessions: seq<Session>, progress: seq<nat>)

  /** A Handle starts and reads the cache; a Handle that is through with labelling reads the index; a Handle
      makes its next call; a Handle ends, finished or not. */
  datatype Happening =
    | Enter(owner: NamespacedName, adoptee: NamespacedName, cached: CacheRead, exists_: bool)
    | ReadIndex(i: nat, entries: seq<Entry>)
    | Go(i: nat)
    | Leave(i: nat)

  ghost predicate ReadyToRead(cfg: Config, st: Stage, i: nat) {
    && i < |st.sessions| == |st.progress| && st.sessions[i].view.index.None?
    && !st.sessions[i].view.cached.CacheError?
    && (NeedsLabel(st.sessions[i].adoptee, st.sessions[i].view) ==> st.sessions[i].view.exists_)
    && st.progress[i] == |LabelPlan(cfg, st.sessions[i].adoptee, st.sessions[i].view)|
  }

  function WithIndex(s: Session, entries: seq<Entry>): Session {
    s.(view := s.view.(index := Some(entries)))
  }

  function After(cfg: Config, st: Stage, h: Happening): Stage {
    match h
    case Enter(owner, adoptee, cached, exists_) =>
      Stage(st.cluster, st.sessions + [Session(owner, adoptee, View(cached, exists_, None))], st.progress + [0])
    case ReadIndex(i, entries) =>
      if i < |st.sessions| then st.(sessions := st.sessions[i := WithIndex(st.sessions[i], entries)]) else st
    case Go(i) =>
      if i < |st.sessions| == |st.progress| && st.progress[i] < |ProgramOf(cfg, st.sessions[i]).calls| then
        Stage(Apply(st.cluster, ProgramOf(cfg, st.sessions[i]).calls[st.progress[i]]), st.sessions,
              st.progress[i := st.progress[i] + 1])
      else st
    case Leave(i) =>
      if i < |st.sessions| == |st.progress| then
        st.(sessions := st.sessions[..i] + st.sessions[i + 1..], progress := st.progress[..i] + st.progress[i + 1..])
      else st
  }

  /** Caches and index are read as they are at that moment, and no Handle under way wants an object that another
      one under way releases. */
  ghost predicate Proper(cfg: Config, st: Stage, h: Happening) {
    && (match h
        case Enter(owner, adoptee, cached, _) =>
          && owner.namespace == adoptee.namespace && '/' !in owner.namespace
          && (adoptee.name != "" && !cached.CacheError? ==>
                (cached.Hit? <==> adoptee in st.cluster && Labelled(cfg, st.cluster[adoptee])))
        case ReadIndex(i, entries) =>
          ReadyToRead(cfg, st, i) && ListsIndex(cfg, st.cluster, st.sessions[i].owner, entries)
        case _ => true)
    && WantsApart(After(cfg, st, h).sessions)
  }

  ghost predicate ProperRun(cfg: Config, st: Stage, hs: seq<Happening>)
    decreases |hs|
  {
    hs == [] || (Proper(cfg, st, hs[0]) && ProperRun(cfg, After(cfg, st, hs[0]), hs[1..]))
  }

  ghost predicate StaysVisible(cfg: Config, st: Stage, hs: seq<Happening>)
    decreases |hs|
  {
    OwnedIsLabelled(cfg, st.cluster) && (hs == [] || StaysVisible(cfg, After(cfg, st, hs[0]), hs[1..]))
  }

  /** A Handle that may still annotate has its adoptee labelled, or labels it next. */
  ghost predicate Labelling(cfg: Config, st: Stage, i: nat)
    requires i < |st.sessions| == |st.progress|
  {
    var s := st.sessions[i];
    s.adoptee.name != "" && !s.view.cached.CacheError? ==>
      Labelled(cfg, Lookup(st.cluster, s.adoptee)) || (s.view.cached.Miss? && st.progress[i] == 0)
  }

  ghost predicate Staged(cfg: Config, st: Stage) {
    && |st.sessions| == |st.progress| && WantsApart(st.sessions)
    && Orderly(cfg, st.cluster, Programs(cfg, st.sessions), st.progress, {})
    && (forall i :: 0 <= i < |st.sessions| ==> Labelling(cfg, st, i) && ValidSession(cfg, st.sessions[i]))
  }

  lemma EnterKeepsStaged(cfg: Config, st: Stage, h: Happening)
    requires ValidConfig(cfg) && cfg.labels != map[] && Staged(cfg, st) && h.Enter? && Proper(cfg, st, h)
    ensures Staged(cfg, After(cfg, st, h))
  {
    hide Inv, ValidConfig, Labelled, ReadyToAnnotate, ReadyToUnlabel, ValidProgram, TargetsApart, WantsApart, ProgramOf;
    var st' := After(cfg, st, h);
    var s := st'.sessions[|st.sessions|];
    WantsApartTargets(cfg, st'.sessions);
    HandleIsValidProgram(cfg, s);
    NewIsReady(cfg, st.cluster, s);
    forall i | 0 <= i < |st'.sessions|
      ensures ValidProgram(cfg, ProgramOf(cfg, st'.sessions[i]))
      ensures ReadyToAnnotate(cfg, st.cluster, ProgramOf(cfg, st'.sessions[i]), st'.progress[i])
      ensures ReadyToUnlabel(cfg, st.cluster, ProgramOf(cfg, st'.sessions[i]), st'.progress[i], {})
      ensures Labelling(cfg, st', i) && ValidSession(cfg, st'.sessions[i])
    {
      if i < |st.sessions| {
        assert st'.sessions[i] == st.sessions[i] && st'.progress[i] == st.progress[i];
        assert Programs(cfg, st.sessions)[i] == ProgramOf(cfg, st.sessions[i]);
        assert Labelling(cfg, st, i);
      }
    }
  }

  /** Before the index is read there is nothing to annotate or unlabel. */
  lemma NewIsReady(cfg: Config, c: Cluster, s: Session)
    requires ValidConfig(cfg) && cfg.labels != map[] && s.view.index.None?
    ensures ReadyToAnnotate(cfg, c, ProgramOf(cfg, s), 0) && ReadyToUnlabel(cfg, c, ProgramOf(cfg, s), 0, {})
  {
    OwnerIsNotController(cfg, s.owner);
    LabelIsNotUnlabel(cfg, s.adoptee);
  }

  /** Reading the index makes the rest of a Handle ready. */
  lemma ReadIsReady(cfg: Config, c: Cluster, s: Session, from: nat, entries: seq<Entry>)
    requires ValidConfig(cfg) && cfg.labels != map[] && ListsIndex(cfg, c, s.owner, entries)
    requires from == |LabelPlan(cfg, s.adoptee, s.view)|
    requires s.adoptee.name != "" && !s.view.cached.CacheError? ==> Labelled(cfg, Lookup(c, s.adoptee))
    ensures var prog := ProgramOf(cfg, WithIndex(s, entries));
            ReadyToAnnotate(cfg, c, prog, from) && ReadyToUnlabel(cfg, c, prog, from, {})
  {
    hide ValidConfig, Labelled, Plan, Extras, UnlabelCall, AnnotateCall, UnannotateCall;
    var s' := WithIndex(s, entries);
    var prog := ProgramOf(cfg, s');
    forall m | from <= m < |prog.calls| && prog.calls[m] == AnnotateCall(cfg, s.owner, prog.calls[m].target)
      ensures Labelled(cfg, Lookup(c, prog.calls[m].target))
    {
      PlanAt(cfg, s', m);
      NoCallsAfterCacheError(cfg, s');
    }
    forall m, f | from <= m < |prog.calls| && prog.calls[m] == UnlabelCall(cfg, prog.calls[m].target)
                  && f in Lookup(c, prog.calls[m].target).fields && IsOwnerField(cfg, f)
      ensures f == OwnerField(cfg, s.owner) && from < m
      ensures prog.calls[m - 1] == UnannotateCall(cfg, s.owner, prog.calls[m].target)
    {
      PlanAt(cfg, s', m);
      var e :| e in Extras(s.adoptee, entries) && Unlabels(cfg, s.owner, prog.calls, m, e);
      ExtrasAreEntries(s.adoptee, entries);
      assert e in entries && e.o == c[e.nn];
      assert f in e.o.fields;
      LabellingComesFirst(cfg, s', m);
    }
  }

  lemma LabellingComesFirst(cfg: Config, s: Session, m: nat)
    requires ValidConfig(cfg) && 0 < m < |ProgramOf(cfg, s).calls|
    requires exists nn :: ProgramOf(cfg, s).calls[m - 1] == UnannotateCall(cfg, s.owner, nn)
    ensures |LabelPlan(cfg, s.adoptee, s.view)| < m
  {
    OwnerIsNotController(cfg, s.owner);
  }

  lemma ReadKeepsStaged(cfg: Config, st: Stage, h: Happening)
    requires ValidConfig(cfg) && cfg.labels != map[] && Staged(cfg, st) && h.ReadIndex? && Proper(cfg, st, h)
    ensures Staged(cfg, After(cfg, st, h))
  {
    hide Inv, ValidConfig, Labelled, ReadyToAnnotate, ReadyToUnlabel, ValidProgram, TargetsApart, WantsApart,
         ProgramOf, ListsIndex;
    var st' := After(cfg, st, h);
    var s, s' := st.sessions[h.i], st'.sessions[h.i];
    WantsApartTargets(cfg, st'.sessions);
    IndexedIsValid(cfg, st.cluster, s, h.entries);
    HandleIsValidProgram(cfg, s');
    assert Labelling(cfg, st, h.i);
    ReadIsReady(cfg, st.cluster, s, st.progress[h.i], h.entries);
    forall i | 0 <= i < |st'.sessions|
      ensures ValidProgram(cfg, ProgramOf(cfg, st'.sessions[i]))
      ensures ReadyToAnnotate(cfg, st.cluster, ProgramOf(cfg, st'.sessions[i]), st'.progress[i])
      ensures ReadyToUnlabel(cfg, st.cluster, ProgramOf(cfg, st'.sessions[i]), st'.progress[i], {})
      ensures Labelling(cfg, st', i) && ValidSession(cfg, st'.sessions[i])
    {
      assert Programs(cfg, st.sessions)[i] == ProgramOf(cfg, st.sessions[i]);
      assert Labelling(cfg, st, i);
    }
  }

  lemma IndexedIsValid(cfg: Config, c: Cluster, s: Session, entries: seq<Entry>)
    requires Inv(cfg, c) && ValidSession(cfg, s) && ListsIndex(cfg, c, s.owner, entries)
    ensures ValidSession(cfg, WithIndex(s, entries))
  {
    hide ObjectOk;
    forall i | 0 <= i < |entries|
      ensures '/' !in entries[i].nn.namespace && entries[i].nn.name != ""
      ensures Text(s.owner) in OwnerKeys(cfg.prefix, entries[i].nn.namespace, entries[i].o)
    {
      assert Indexed(cfg, c, s.owner, entries[i].nn);
    }
  }

  lemma GoKeepsStaged(cfg: Config, st: Stage, i: nat)
    requires ValidConfig(cfg) && cfg.labels != map[] && Staged(cfg, st)
    ensures Staged(cfg, After(cfg, st, Go(i)))
  {
    hide Inv, ValidConfig, Labelled, ReadyToAnnotate, ReadyToUnlabel, TargetsApart, WantsApart, ProgramOf,
         ServerSideApply.Apply, CallBy, UnlabelCall;
    if i < |st.sessions| && st.progress[i] < |ProgramOf(cfg, st.sessions[i]).calls| {
      var st' := After(cfg, st, Go(i));
      var ps := Programs(cfg, st.sessions);
      var call := ps[i].calls[st.progress[i]];
      OrderlyStep(cfg, st.cluster, ps, st.progress, {}, i);
      OwnerOfProgram(cfg, st.sessions[i]);
      assert ValidProgram(cfg, ps[i]);
      InvIsOk(cfg, st.cluster);
      forall j | 0 <= j < |st'.sessions| ensures Labelling(cfg, st', j) {
        GoKeepsLabelling(cfg, st, i, j);
      }
    }
  }

  lemma GoKeepsLabelling(cfg: Config, st: Stage, i: nat, j: nat)
    requires ValidConfig(cfg) && cfg.labels != map[] && |st.sessions| == |st.progress| && WantsApart(st.sessions)
    requires ClusterOk(cfg, st.cluster) && i < |st.sessions| && j < |st.sessions| && Labelling(cfg, st, j)
    requires ValidProgram(cfg, ProgramOf(cfg, st.sessions[i]))
             && st.progress[i] < |ProgramOf(cfg, st.sessions[i]).calls|
    ensures Labelling(cfg, After(cfg, st, Go(i)), j)
  {
    hide ClusterOk, ValidConfig, Labelled, WantsApart, ProgramOf, ServerSideApply.Apply, CallBy, UnlabelCall;
    var s, prog := st.sessions[j], ProgramOf(cfg, st.sessions[i]);
    var call := prog.calls[st.progress[i]];
    OwnerOfProgram(cfg, st.sessions[i]);
    CallOnTarget(cfg, st.cluster, prog.owner, call);
    if s.adoptee.name != "" && call == UnlabelCall(cfg, call.target) {
      UnlabelsExtra(cfg, st.sessions[i], st.progress[i]);
      ApartAt(st.sessions, j, i);
    }
    if j == i && st.progress[i] == 0 && NeedsLabel(s.adoptee, s.view) {
      FirstCallLabels(cfg, s);
    }
  }

  lemma InvIsOk(cfg: Config, c: Cluster)
    requires Inv(cfg, c)
    ensures ClusterOk(cfg, c) && OwnedIsLabelled(cfg, c)
  {}

  lemma ApartAt(sessions: seq<Session>, i: nat, j: nat)
    requires WantsApart(sessions) && i < |sessions| && j < |sessions|
    requires sessions[i].adoptee.name != "" && sessions[j].view.index.Some?
    ensures !Found(sessions[i].adoptee, Extras(sessions[j].adoptee, sessions[j].view.index.value))
  {}

  lemma FirstCallLabels(cfg: Config, s: Session)
    requires NeedsLabel(s.adoptee, s.view) && ProgramOf(cfg, s).calls != []
    ensures ProgramOf(cfg, s).calls[0] == LabelCall(cfg, s.adoptee) && LabelCall(cfg, s.adoptee).target == s.adoptee
  {}

  lemma LeaveKeepsStaged(cfg: Config, st: Stage, i: nat)
    requires ValidConfig(cfg) && cfg.labels != map[] && Staged(cfg, st) && Proper(cfg, st, Leave(i))
    ensures Staged(cfg, After(cfg, st, Leave(i)))
  {
    hide Inv, ValidConfig, Labelled, ReadyToAnnotate, ReadyToUnlabel, ValidProgram, TargetsApart, WantsApart, ProgramOf;
    if i < |st.sessions| {
      var st' := After(cfg, st, Leave(i));
      WantsApartTargets(cfg, st'.sessions);
      forall j | 0 <= j < |st'.sessions|
        ensures ValidProgram(cfg, ProgramOf(cfg, st'.sessions[j]))
        ensures ReadyToAnnotate(cfg, st.cluster, ProgramOf(cfg, st'.sessions[j]), st'.progress[j])
        ensures ReadyToUnlabel(cfg, st.cluster, ProgramOf(cfg, st'.sessions[j]), st'.progress[j], {})
        ensures Labelling(cfg, st', j) && ValidSession(cfg, st'.sessions[j])
      {
        var k := if j < i then j else j + 1;
        assert st'.sessions[j] == st.sessions[k] && st'.progress[j] == st.progress[k];
        assert Programs(cfg, st.sessions)[k] == ProgramOf(cfg, st.sessions[k]);
        assert Labelling(cfg, st, k);
      }
    }
  }

  lemma {:induction false} StagedStaysVisible(cfg: Config, st: Stage, hs: seq<Happening>)
    requires ValidConfig(cfg) && cfg.labels != map[] && Staged(cfg, st) && ProperRun(cfg, st, hs)
    ensures StaysVisible(cfg, st, hs)
    decreases |hs|
  {
    hide Inv, ValidConfig, Labelling, WantsApart, TargetsApart, ReadyToAnnotate, ReadyToUnlabel, Proper, After,
         Programs;
    InvIsOk(cfg, st.cluster);
    if hs != [] {
      match hs[0] {
        case Enter(_, _, _, _) => EnterKeepsStaged(cfg, st, hs[0]);
        case ReadIndex(_, _) => ReadKeepsStaged(cfg, st, hs[0]);
        case Go(i) => GoKeepsStaged(cfg, st, i);
        case Leave(i) => LeaveKeepsStaged(cfg, st, i);
      }
      StagedStaysVisible(cfg, After(cfg, st, hs[0]), hs[1..]);
    }
  }

  lemma {:induction false} NoLabelsStayVisible(cfg: Config, st: Stage, hs: seq<Happening>)
    requires cfg.labels == map[]
    ensures StaysVisible(cfg, st, hs)
    decreases |hs|
  {
    hide After;
    if hs != [] {
      NoLabelsStayVisible(cfg, After(cfg, st, hs[0]), hs[1..]);
    }
  }

  /** Handles may start at any time, each reading the cache when it starts and the index when it gets there, and
      their calls may interleave in any way and stop anywhere: as long as no Handle wants an object that another one
      under way releases, every owned object is labelled at every moment. */
  lemma ApartHandlesStayVisible(cfg: Config, c: Cluster, hs: seq<Happening>)
    requires ValidConfig(cfg) && Inv(cfg, c) && ProperRun(cfg, Stage(c, [], []), hs)
    ensures StaysVisible(cfg, Stage(c, [], []), hs)
  {
    hide Inv, ValidConfig, ProperRun, StaysVisible;
    if cfg.labels == map[] {
      NoLabelsStayVisible(cfg, Stage(c, [], []), hs);
    } else {
      StagedStaysVisible(cfg, Stage(c, [], []), hs);
    }
  }
}
