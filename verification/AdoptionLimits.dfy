/** Quiescence of adoption, and the limits of what it keeps: labels stranded by a fault, and
    visibility lost when two Handles interleave.
 */
module AdoptionLimits {
  import opened Options
  import opened ServerSideApply
  import opened Adoption
  import opened AdoptionRuns
  import opened AdoptionRecovery
  import opened AdoptionTheorems

  // ----- Quiescence -----

  lemma FreshIsValidSession(cfg: Config, c: Cluster, owner: NamespacedName, adoptee: NamespacedName, view: View)
    requires ValidConfig(cfg) && Inv(cfg, c) && Fresh(cfg, c, owner, adoptee, view)
    ensures ValidSession(cfg, Session(owner, adoptee, view))
  {
    hide ForceApply, LabelPlan, ObjectOk;
    AfterLabelling(cfg, c, owner, adoptee, view);
    if view.index.Some? {
      var entries := view.index.value;
      forall i | 0 <= i < |entries|
        ensures '/' !in entries[i].nn.namespace && entries[i].nn.name != ""
        ensures Text(owner) in OwnerKeys(cfg.prefix, entries[i].nn.namespace, entries[i].o)
      {
        assert Indexed(cfg, AtIndexRead(cfg, c, adoptee, view), owner, entries[i].nn);
      }
    }
  }

  lemma {:induction false} OthersKeepAnnotation(cfg: Config, c: Cluster, actor: NamespacedName, calls: seq<Call>,
                                                owner: NamespacedName, nn: NamespacedName)
    requires ValidConfig(cfg) && ClusterOk(cfg, c) && ValidProgram(cfg, Program(actor, calls))
    requires actor != owner && owner.namespace == nn.namespace
    ensures AnnotatedFor(cfg, ApplyAll(c, calls), owner, nn) == AnnotatedFor(cfg, c, owner, nn)
    decreases |calls|
  {
    hide ServerSideApply.Apply, ClusterOk, AnnotatedFor, ValidConfig, CallBy;
    if calls != [] {
      StepEffect(cfg, c, actor, calls[0], owner, nn);
      OthersKeepAnnotation(cfg, Apply(c, calls[0]), actor, calls[1..], owner, nn);
    }
  }

  lemma StepKeepsSettled(cfg: Config, c: Cluster, step: Step, owner: NamespacedName, adoptee: NamespacedName)
    requires ValidConfig(cfg) && Inv(cfg, c) && ValidStep(cfg, c, step) && Settled(cfg, c, owner, adoptee)
    requires QuietStep(step, owner, adoptee)
    ensures Settled(cfg, After(cfg, c, step), owner, adoptee)
  {
    hide Plan, Attempt, ObjectOk;
    match step
    case HandleStep(actor, wanted, view, script) =>
      var plan := Plan(cfg, actor, wanted, view);
      FreshIsValidSession(cfg, c, actor, wanted, view);
      HandleIsValidProgram(cfg, Session(actor, wanted, view));
      AttemptIsPrefix(c, plan, script);
      var calls := plan[..Effective(plan, script)];
      assert ValidProgram(cfg, Program(actor, calls));
      forall nn: NamespacedName | nn.namespace == owner.namespace
        ensures AnnotatedFor(cfg, ApplyAll(c, calls), owner, nn) == AnnotatedFor(cfg, c, owner, nn)
      {
        OthersKeepAnnotation(cfg, c, actor, calls, owner, nn);
      }
    case External(next) =>
      assert IsOwnerField(cfg, OwnerField(cfg, owner));
      forall nn | nn in next
        ensures OwnerField(cfg, owner) in next[nn].fields <==> OwnerField(cfg, owner) in Lookup(c, nn).fields
      {
        assert ExternalChange(cfg, nn, Lookup(c, nn), next[nn]);
      }
  }

  /** Steps of other owners, and changes that do not delete the adoptee. */
  predicate QuietStep(step: Step, owner: NamespacedName, adoptee: NamespacedName) {
    match step
    case HandleStep(actor, _, _, _) => actor != owner
    case External(next) => adoptee.name != "" ==> adoptee in next
  }

  lemma {:induction false} RunKeepsSettled(cfg: Config, c: Cluster, steps: seq<Step>, owner: NamespacedName,
                                           adoptee: NamespacedName)
    requires ValidConfig(cfg) && Inv(cfg, c) && ValidRun(cfg, c, steps) && Settled(cfg, c, owner, adoptee)
    requires forall i :: 0 <= i < |steps| ==> QuietStep(steps[i], owner, adoptee)
    ensures Settled(cfg, Final(cfg, c, steps), owner, adoptee)
    decreases |steps|
  {
    hide Inv, ValidStep, After, ValidConfig, Settled, QuietStep;
    if steps != [] {
      StepKeepsSettled(cfg, c, steps[0], owner, adoptee);
      StepKeepsInv(cfg, c, steps[0]);
      RunKeepsSettled(cfg, After(cfg, c, steps[0]), steps[1..], owner, adoptee);
    }
  }

  /** On a settled cluster a fresh Handle has nothing to do but call Next. */
  lemma SettledIsQuiet(cfg: Config, c: Cluster, owner: NamespacedName, adoptee: NamespacedName, view: View)
    requires ValidConfig(cfg) && Inv(cfg, c) && Settled(cfg, c, owner, adoptee)
    requires Fresh(cfg, c, owner, adoptee, view) && ReadsSucceed(adoptee, view)
    ensures !NeedsLabel(adoptee, view)
    ensures Found(adoptee, view.index.value) <==> adoptee.name != ""
    ensures Extras(adoptee, view.index.value) == []
  {
    hide ForceApply, ObjectOk;
    assert IsOwnerField(cfg, OwnerField(cfg, owner));
    assert adoptee.name != "" ==> AnnotatedFor(cfg, c, owner, adoptee);
    assert !NeedsLabel(adoptee, view);
    IndexReadFacts(cfg, c, owner, adoptee, view.index.value);
    var extras := Extras(adoptee, view.index.value);
    assert extras != [] ==> Found(extras[0].nn, extras);
  }

  /** Quiescence: once a Handle has succeeded, a later fresh Handle for the same owner and adoptee
      makes no call and no announcement and calls Next once, whatever other owners and faults came between. */
  lemma Quiescence(cfg: Config, c: Cluster, owner: NamespacedName, adoptee: NamespacedName, view: View,
                   script: seq<Outcome>, between: seq<Step>, view': View, script': seq<Outcome>)
    requires ValidConfig(cfg) && Inv(cfg, c) && Fresh(cfg, c, owner, adoptee, view) && ReadsSucceed(adoptee, view)
    requires Attempt(c, Plan(cfg, owner, adoptee, view), script).ok
    requires var d := Attempt(c, Plan(cfg, owner, adoptee, view), script).cluster;
             && ValidRun(cfg, d, between)
             && (forall i :: 0 <= i < |between| ==> QuietStep(between[i], owner, adoptee))
             && Fresh(cfg, Final(cfg, d, between), owner, adoptee, view') && ReadsSucceed(adoptee, view')
    ensures Plan(cfg, owner, adoptee, view') == []
    ensures var d := Attempt(c, Plan(cfg, owner, adoptee, view), script).cluster;
            Events(cfg, owner, adoptee, view', Final(cfg, d, between), script')
            == [Next(if adoptee.name == "" then None else Some(adoptee))]
  {
    hide Inv, Fresh, ValidConfig, ValidRun, Final, QuietStep, Attempt;
    var d := Attempt(c, Plan(cfg, owner, adoptee, view), script).cluster;
    EmptyRun(cfg, c);
    Recovery(cfg, c, [], owner, adoptee, view, script);
    RunKeepsSettled(cfg, d, between, owner, adoptee);
    RunInvariant(cfg, d, between);
    SettledIsQuiet(cfg, Final(cfg, d, between), owner, adoptee, view');
    NothingToAttempt(Final(cfg, d, between), script');
  }

  lemma EmptyRun(cfg: Config, c: Cluster)
    ensures ValidRun(cfg, c, []) && Final(cfg, c, []) == c
  {}

  lemma NothingToAttempt(c: Cluster, script: seq<Outcome>)
    ensures Attempt(c, [], script) == Attempted(c, script, true)
  {}

  // ----- Labels stranded by a fault -----

  lemma {:induction false} CallsAvoid(c: Cluster, calls: seq<Call>, nn: NamespacedName)
    requires forall i :: 0 <= i < |calls| ==> calls[i].target != nn
    ensures Lookup(ApplyAll(c, calls), nn) == Lookup(c, nn) && (nn in ApplyAll(c, calls) <==> nn in c)
    decreases |calls|
  {
    hide ForceApply;
    if calls != [] {
      CallsAvoid(Apply(c, calls[0]), calls[1..], nn);
    }
  }

  /** A fresh Handle for another adoptee does not touch an object without owners. */
  lemma PlanAvoids(cfg: Config, c: Cluster, owner: NamespacedName, adoptee: NamespacedName, view: View,
                   nn: NamespacedName)
    requires ValidConfig(cfg) && Inv(cfg, c) && Fresh(cfg, c, owner, adoptee, view)
    requires nn != adoptee && !HasOwner(cfg, Lookup(c, nn))
    ensures forall i :: 0 <= i < |Plan(cfg, owner, adoptee, view)| ==> Plan(cfg, owner, adoptee, view)[i].target != nn
  {
    hide ForceApply, ObjectOk, Labelled, CleanupPlan, Extras, Inv;
    AfterLabelling(cfg, c, owner, adoptee, view);
    if view.index.Some? {
      var extras := Extras(adoptee, view.index.value);
      IndexReadFacts(cfg, AtIndexRead(cfg, c, adoptee, view), owner, adoptee, view.index.value);
      assert IsOwnerField(cfg, OwnerField(cfg, owner));
      assert !Found(nn, extras);
      CleanupTargets(cfg, owner, extras);
    }
  }

  /** Steps that do not ask for `nn` and do not change it from outside. */
  ghost predicate LeavesAlone(c: Cluster, step: Step, nn: NamespacedName) {
    match step
    case HandleStep(_, adoptee, _, _) => adoptee != nn
    case External(next) => nn in next && next[nn] == Lookup(c, nn)
  }

  ghost predicate RunLeavesAlone(cfg: Config, c: Cluster, steps: seq<Step>, nn: NamespacedName)
    decreases |steps|
  {
    steps == [] || (LeavesAlone(c, steps[0], nn) && RunLeavesAlone(cfg, After(cfg, c, steps[0]), steps[1..], nn))
  }

  lemma StepLeavesAlone(cfg: Config, c: Cluster, step: Step, nn: NamespacedName)
    requires ValidConfig(cfg) && Inv(cfg, c) && ValidStep(cfg, c, step) && LeavesAlone(c, step, nn)
    requires nn in c && !HasOwner(cfg, c[nn])
    ensures nn in After(cfg, c, step) && After(cfg, c, step)[nn] == c[nn]
  {
    hide Inv, Fresh, ValidConfig, Plan, Attempt, HasOwner;
    match step
    case HandleStep(owner, adoptee, view, script) =>
      var plan := Plan(cfg, owner, adoptee, view);
      PlanAvoids(cfg, c, owner, adoptee, view, nn);
      AttemptIsPrefix(c, plan, script);
      CallsAvoid(c, plan[..Effective(plan, script)], nn);
    case External(next) =>
  }

  /** A label left behind is never retried: an object without owners keeps its labels and its
      ownership records through every later run in which no owner asks for it. */
  lemma {:induction false} StrandedForever(cfg: Config, c: Cluster, steps: seq<Step>, nn: NamespacedName)
    requires ValidConfig(cfg) && Inv(cfg, c) && ValidRun(cfg, c, steps) && RunLeavesAlone(cfg, c, steps, nn)
    requires nn in c && !HasOwner(cfg, c[nn])
    ensures nn in Final(cfg, c, steps) && Final(cfg, c, steps)[nn] == c[nn]
    decreases |steps|
  {
    hide Inv, ValidStep, After, ValidConfig, LeavesAlone, HasOwner;
    if steps != [] {
      StepLeavesAlone(cfg, c, steps[0], nn);
      StepKeepsInv(cfg, c, steps[0]);
      StrandedForever(cfg, After(cfg, c, steps[0]), steps[1..], nn);
    }
  }

  // ----- A concrete controller -----

  function ExampleManager(owner: NamespacedName): Manager {
    "my-owner-" + owner.namespace + "-" + owner.name
  }

  const EXAMPLE := Config("test-controller", map["managed-by" := "example"], "owner-obj-", o => ExampleManager(o))
  const ALICE := NamespacedName("test", "alice")
  const BOB := NamespacedName("test", "bob")
  const NOBODY := NamespacedName("test", "")
  const SECRET := NamespacedName("test", "secret")
  const SECRET_OBJECT := Object(
    map[Label("managed-by") := "example", Annotation("owner-obj-alice") := OWNED],
    {("test-controller", Label("managed-by")), ("my-owner-test-alice", Annotation("owner-obj-alice"))})
  const ADOPTED: Cluster := map[SECRET := SECRET_OBJECT]

  /** The manager names used in the tests may collide across namespaces, never within one. */
  lemma ExampleIsValid()
    ensures ValidConfig(EXAMPLE)
  {
    forall o: NamespacedName ensures ExampleManager(o) != "test-controller" {
      assert ExampleManager(o)[0] == 'm';
    }
    forall o: NamespacedName, p: NamespacedName
      | o.namespace == p.namespace && ExampleManager(o) == ExampleManager(p)
      ensures o == p
    {
      var n := |"my-owner-" + o.namespace + "-"|;
      assert ExampleManager(o)[n..] == o.name && ExampleManager(p)[n..] == p.name;
    }
  }

  const ALICE_VIEW := View(Hit, true, Some([Entry(SECRET, SECRET_OBJECT)]))
  const BOB_VIEW := View(Hit, true, Some([]))

  lemma AliceKey()
    ensures OwnerField(EXAMPLE, ALICE) == Annotation("owner-obj-alice")
    ensures OwnerField(EXAMPLE, BOB) == Annotation("owner-obj-bob")
    ensures ExampleManager(ALICE) == "my-owner-test-alice" && ExampleManager(BOB) == "my-owner-test-bob"
    ensures IsOwnerField(EXAMPLE, Annotation("owner-obj-alice")) && IsOwnerField(EXAMPLE, Annotation("owner-obj-bob"))
    ensures OwnerOf(EXAMPLE, "test", Annotation("owner-obj-alice")) == ALICE
  {
    assert "owner-obj-" + "alice" == "owner-obj-alice" && "owner-obj-" + "bob" == "owner-obj-bob";
    assert "owner-obj-alice"[|"owner-obj-"|..] == "alice";
    assert EXAMPLE.prefix <= "owner-obj-alice" && EXAMPLE.prefix <= "owner-obj-bob";
    assert "my-owner-" + "test" + "-" + "alice" == "my-owner-test-alice";
    assert "my-owner-" + "test" + "-" + "bob" == "my-owner-test-bob";
  }

  lemma AdoptedIsOk()
    ensures ObjectOk(EXAMPLE, "test", SECRET_OBJECT) && Labelled(EXAMPLE, SECRET_OBJECT)
            && HasOwner(EXAMPLE, SECRET_OBJECT)
    ensures Inv(EXAMPLE, ADOPTED) && Tidy(EXAMPLE, ADOPTED)
  {
    AliceKey();
    ExampleIsValid();
    assert Annotation("owner-obj-alice") in SECRET_OBJECT.fields;
    assert EXAMPLE.ownerManager(ALICE) == "my-owner-test-alice";
    forall owner: NamespacedName, f | owner.namespace == "test"
        && (EXAMPLE.ownerManager(owner), f) in SECRET_OBJECT.managed
      ensures f == OwnerField(EXAMPLE, owner)
    {
      assert EXAMPLE.ownerManager(owner) != "test-controller";
      assert EXAMPLE.ownerManager(owner) == EXAMPLE.ownerManager(ALICE);
      assert owner == ALICE;
    }
  }

  lemma ViewsAreFresh()
    ensures Fresh(EXAMPLE, ADOPTED, ALICE, NOBODY, ALICE_VIEW)
    ensures Fresh(EXAMPLE, ADOPTED, BOB, SECRET, BOB_VIEW)
  {
    AliceKey();
    AdoptedIsOk();
    assert AtIndexRead(EXAMPLE, ADOPTED, NOBODY, ALICE_VIEW) == ADOPTED;
    assert AtIndexRead(EXAMPLE, ADOPTED, SECRET, BOB_VIEW) == ADOPTED;
    forall nn ensures Indexed(EXAMPLE, ADOPTED, ALICE, nn) <==> nn == SECRET {
      IndexIsScan(EXAMPLE, ADOPTED, ALICE, nn);
    }
    forall nn ensures !Indexed(EXAMPLE, ADOPTED, BOB, nn) {
      IndexIsScan(EXAMPLE, ADOPTED, BOB, nn);
    }
    assert Found(SECRET, [Entry(SECRET, SECRET_OBJECT)]) by { assert [Entry(SECRET, SECRET_OBJECT)][0].nn == SECRET; }
  }

  lemma ExamplePlans()
    ensures Plan(EXAMPLE, ALICE, NOBODY, ALICE_VIEW)
            == [UnannotateCall(EXAMPLE, ALICE, SECRET), UnlabelCall(EXAMPLE, SECRET)]
    ensures Plan(EXAMPLE, BOB, SECRET, BOB_VIEW) == [AnnotateCall(EXAMPLE, BOB, SECRET)]
  {
    AliceKey();
    AdoptedIsOk();
    var e := Entry(SECRET, SECRET_OBJECT);
    assert Extras(NOBODY, [e]) == [e] by { assert [e][1..] == []; }
    assert !HasOtherOwner(EXAMPLE, ALICE, SECRET_OBJECT);
    assert CleanupPlan(EXAMPLE, ALICE, [e]) == ReleasePlan(EXAMPLE, ALICE, e) by { assert [e][1..] == []; }
  }

  /** "Labelled only while owned" is not kept under faults: the un-annotating call succeeds, the
      un-labelling call fails. */
  lemma FaultStrandsLabel()
    ensures Inv(EXAMPLE, ADOPTED) && Tidy(EXAMPLE, ADOPTED)
    ensures ValidStep(EXAMPLE, ADOPTED, HandleStep(ALICE, NOBODY, ALICE_VIEW, [Applied, Rejected]))
    ensures !Tidy(EXAMPLE, After(EXAMPLE, ADOPTED, HandleStep(ALICE, NOBODY, ALICE_VIEW, [Applied, Rejected])))
  {
    ExampleIsValid();
    AdoptedIsOk();
    ViewsAreFresh();
    ExamplePlans();
    var plan := Plan(EXAMPLE, ALICE, NOBODY, ALICE_VIEW);
    assert Rest([Applied, Rejected]) == [Rejected];
    assert Effective(plan[1..], [Rejected]) == 0;
    assert Effective(plan, [Applied, Rejected]) == 1;
    AttemptIsPrefix(ADOPTED, plan, [Applied, Rejected]);
    assert ("test-controller", Label("managed-by")) in Lookup(ADOPTED, SECRET).managed;
    assert Torn(EXAMPLE, ADOPTED, plan, 1);
    assert "managed-by" in EXAMPLE.labels;
    TidyUnlessTorn(EXAMPLE, ADOPTED, ALICE, NOBODY, ALICE_VIEW, 1);
  }

  const OTHER := NamespacedName("test", "other")

  /** A Handle without failing calls that does not settle its owner: the object it now wants does not exist,
      so the one it owned before is not released. */
  lemma MissingAdopteeKeepsOld()
    ensures var view := View(Miss, false, None);
            && Inv(EXAMPLE, ADOPTED) && Fresh(EXAMPLE, ADOPTED, ALICE, OTHER, view)
            && Attempt(ADOPTED, Plan(EXAMPLE, ALICE, OTHER, view), []).ok
            && Events(EXAMPLE, ALICE, OTHER, view, ADOPTED, []) == [ObjectMissing]
            && AnnotatedFor(EXAMPLE, Attempt(ADOPTED, Plan(EXAMPLE, ALICE, OTHER, view), []).cluster, ALICE, SECRET)
  {
    hide ObjectOk;
    AliceKey();
    AdoptedIsOk();
    MissingAdopteeStopsHandle(EXAMPLE, ADOPTED, ALICE, OTHER, View(Miss, false, None), []);
  }

  /** And a label left behind without a failing call: the index cannot be read after the labelling. */
  lemma UnreadIndexLeavesLabel(cfg: Config, c: Cluster, owner: NamespacedName, adoptee: NamespacedName)
    requires ValidConfig(cfg) && Inv(cfg, c) && Tidy(cfg, c) && cfg.labels != map[]
    requires Fresh(cfg, c, owner, adoptee, View(Miss, true, None)) && adoptee.name != ""
    ensures var view := View(Miss, true, None);
            var a := Attempt(c, Plan(cfg, owner, adoptee, view), []);
            a.ok && !Tidy(cfg, a.cluster) && forall n :: !Torn(cfg, c, Plan(cfg, owner, adoptee, view), n)
  {
    hide Inv, Fresh, ValidConfig, Tidy, ServerSideApply.Apply;
    var view := View(Miss, true, None);
    var plan := Plan(cfg, owner, adoptee, view);
    AttemptIsPrefix(c, plan, []);
    TidyUnlessTorn(cfg, c, owner, adoptee, view, 1);
    assert Attempt(c, plan, []).ok && Effective(plan, []) == 1;
  }

  // ----- Visibility lost between two interleaved Handles -----

  const BARE := Object(map[Label("managed-by") := "example"], {("test-controller", Label("managed-by"))})
  const SHARED := Object(
    map[Label("managed-by") := "example", Annotation("owner-obj-bob") := OWNED],
    {("test-controller", Label("managed-by")), ("my-owner-test-bob", Annotation("owner-obj-bob"))})
  const HIDDEN := Object(
    map[Annotation("owner-obj-bob") := OWNED], {("my-owner-test-bob", Annotation("owner-obj-bob"))})

  lemma ExampleUnannotate()
    ensures ForceApply(SECRET_OBJECT, "my-owner-test-alice", map[]) == BARE
  {
    assert ForceApply(SECRET_OBJECT, "my-owner-test-alice", map[]).fields == BARE.fields;
    assert ForceApply(SECRET_OBJECT, "my-owner-test-alice", map[]).managed == BARE.managed;
  }

  lemma ExampleAnnotate()
    ensures ForceApply(BARE, "my-owner-test-bob", map[Annotation("owner-obj-bob") := OWNED]) == SHARED
  {
    var p: Patch := map[Annotation("owner-obj-bob") := OWNED];
    assert ForceApply(BARE, "my-owner-test-bob", p).fields == SHARED.fields;
    assert ForceApply(BARE, "my-owner-test-bob", p).managed == SHARED.managed;
  }

  lemma ExampleUnlabel()
    ensures ForceApply(SHARED, "test-controller", map[]) == HIDDEN
  {
    assert ForceApply(SHARED, "test-controller", map[]).fields == HIDDEN.fields;
    assert ForceApply(SHARED, "test-controller", map[]).managed == HIDDEN.managed;
  }

  /** The run invariant is one of sequences of Handles, not of interleavings: both Handles below read
      a fresh cache, and an owned object ends up without the controller's label. */
  lemma InterleavingHidesOwned()
    ensures Fresh(EXAMPLE, ADOPTED, ALICE, NOBODY, ALICE_VIEW) && Fresh(EXAMPLE, ADOPTED, BOB, SECRET, BOB_VIEW)
    ensures var programs := [ProgramOf(EXAMPLE, Session(ALICE, NOBODY, ALICE_VIEW)),
            ProgramOf(EXAMPLE, Session(BOB, SECRET, BOB_VIEW))];
            Inv(EXAMPLE, ADOPTED) && !OwnedIsLabelled(EXAMPLE, Interleave(ADOPTED, programs, [0, 0], [0, 1, 0]))
  {
    hide ForceApply, Inv, Fresh, Plan;
    AliceKey();
    AdoptedIsOk();
    ViewsAreFresh();
    ExamplePlans();
    ExampleUnannotate();
    ExampleAnnotate();
    ExampleUnlabel();
    var programs := [ProgramOf(EXAMPLE, Session(ALICE, NOBODY, ALICE_VIEW)),
        ProgramOf(EXAMPLE, Session(BOB, SECRET, BOB_VIEW))];
    assert [0, 1, 0][1..] == [1, 0] && [1, 0][1..] == [0] && [0][1..] == [];
    var c1 := Apply(ADOPTED, UnannotateCall(EXAMPLE, ALICE, SECRET));
    var c2 := Apply(c1, AnnotateCall(EXAMPLE, BOB, SECRET));
    var c3 := Apply(c2, UnlabelCall(EXAMPLE, SECRET));
    assert Interleave(ADOPTED, programs, [0, 0], [0, 1, 0]) == Interleave(c1, programs, [1, 0], [1, 0]);
    assert Interleave(c1, programs, [1, 0], [1, 0]) == Interleave(c2, programs, [1, 1], [0]);
    assert Interleave(c2, programs, [1, 1], [0]) == Interleave(c3, programs, [2, 1], []);
    assert c3[SECRET] == HIDDEN;
    assert Annotation("owner-obj-bob") in HIDDEN.fields && "managed-by" in EXAMPLE.labels;
  }

  /** One call keeps owned objects visible exactly when it does not annotate an unlabelled object and
      does not take away a label, owned by the controller alone, from an object that has an owner. */
  lemma CallKeepsVisibility(cfg: Config, c: Cluster, owner: NamespacedName, call: Call)
    requires ValidConfig(cfg) && Inv(cfg, c) && CallBy(cfg, owner, call) && '/' !in owner.namespace
    ensures var o := Lookup(c, call.target);
            OwnedIsLabelled(cfg, Apply(c, call)) <==>
            && (call == AnnotateCall(cfg, owner, call.target) ==> Labelled(cfg, o))
            && (call == UnlabelCall(cfg, call.target) && HasOwner(cfg, o) ==>
                  forall l :: l in cfg.labels ==> !Relinquished(o, cfg.controller, map[], Label(l)))
  {
    hide ForceApply, ObjectOk, HasOwner, Labelled, CallBy, Relinquished;
    var o := Lookup(c, call.target);
    CallNamespace(cfg, owner, call);
    VisibleAfter(cfg, c, call.target, ForceApply(o, call.manager, call.patch));
    EmptyIsOk(cfg, call.target.namespace);
    TargetVisibility(cfg, o, owner, call);
  }

  lemma CallNamespace(cfg: Config, owner: NamespacedName, call: Call)
    requires CallBy(cfg, owner, call)
    ensures call.target.namespace == owner.namespace
  {}

  lemma VisibleAfter(cfg: Config, c: Cluster, nn: NamespacedName, o: Object)
    requires OwnedIsLabelled(cfg, c)
    ensures OwnedIsLabelled(cfg, c[nn := o]) <==> (HasOwner(cfg, o) ==> Labelled(cfg, o))
  {
    hide HasOwner, Labelled;
    assert c[nn := o][nn] == o;
  }

  lemma TargetVisibility(cfg: Config, o: Object, owner: NamespacedName, call: Call)
    requires ValidConfig(cfg) && ObjectOk(cfg, owner.namespace, o) && CallBy(cfg, owner, call)
    requires HasOwner(cfg, o) ==> Labelled(cfg, o)
    ensures var o' := ForceApply(o, call.manager, call.patch);
            (HasOwner(cfg, o') ==> Labelled(cfg, o')) <==>
            && (call == AnnotateCall(cfg, owner, call.target) ==> Labelled(cfg, o))
            && (call == UnlabelCall(cfg, call.target) && HasOwner(cfg, o) ==>
                  forall l :: l in cfg.labels ==> !Relinquished(o, cfg.controller, map[], Label(l)))
  {
    var o' := ForceApply(o, call.manager, call.patch);
    OwnerIsNotController(cfg, owner);
    if call.manager == cfg.controller {
      assert HasOwner(cfg, o') == HasOwner(cfg, o) by { ControllerKeepsOwners(cfg, owner.namespace, o, call.patch); }
      if call == LabelCall(cfg, call.target) {
        LabelApply(cfg, owner.namespace, call.target, o);
      }
    } else if call == AnnotateCall(cfg, owner, call.target) {
      assert OwnerField(cfg, owner) in o'.fields && IsOwnerField(cfg, OwnerField(cfg, owner));
      assert Labelled(cfg, o') == Labelled(cfg, o) by { OwnerKeepsLabels(cfg, owner, o, call.patch); }
    } else {
      OwnersAfterRelease(cfg, owner, o);
      assert Labelled(cfg, o') == Labelled(cfg, o) by { OwnerKeepsLabels(cfg, owner, o, call.patch); }
    }
  }
}
