/** The main results about sequences of adoption Handles: the run invariant under any faults, when the cluster
    stays tidy, and when a Handle settles its owner.
 */
module AdoptionTheorems {
  import opened Options
  import opened ServerSideApply
  import opened Adoption
  import opened AdoptionRuns
  import opened AdoptionRecovery

  // ----- Every state a single Handle can stop in -----

  /** The state after `n` calls of a plan, by phase. */
  lemma PlanPrefix(cfg: Config, c: Cluster, owner: NamespacedName, adoptee: NamespacedName, view: View, n: nat)
    requires ReadsSucceed(adoptee, view) && n <= |Plan(cfg, owner, adoptee, view)|
    ensures var entries := view.index.value;
            var l, a := LabelPlan(cfg, adoptee, view), AnnotatePlan(cfg, owner, adoptee, entries);
            var c1 := AtIndexRead(cfg, c, adoptee, view);
            var c2 := ApplyAll(c1, a);
            var state := ApplyAll(c, Plan(cfg, owner, adoptee, view)[..n]);
            && |Plan(cfg, owner, adoptee, view)| == |l| + |a| + |CleanupPlan(cfg, owner, Extras(adoptee, entries))|
            && (n == 0 ==> state == c)
            && (0 < n <= |l| ==> state == c1)
            && (|l| < n <= |l| + |a| ==> state == c2)
            && (|l| + |a| < n ==>
                  state == ApplyAll(c2, CleanupPlan(cfg, owner, Extras(adoptee, entries))[..n - |l| - |a|]))
  {
    var entries := view.index.value;
    var l, a := LabelPlan(cfg, adoptee, view), AnnotatePlan(cfg, owner, adoptee, entries);
    var k := CleanupPlan(cfg, owner, Extras(adoptee, entries));
    ApplyPrefix(c, l + a, k, n);
    ApplyAllConcat(c, l, a);
    if n <= |l + a| { ApplyPrefix(c, l, a, n); }
    assert l[..|l|] == l && l[..0] == [] && a[..|a|] == a;
  }

  predicate AllTarget(calls: seq<Call>, nn: NamespacedName) {
    forall i :: 0 <= i < |calls| ==> calls[i].target == nn
  }

  /** Stopping inside the clean-up is torn within the plan exactly when it is torn within the clean-up. */
  lemma TornInCleanup(cfg: Config, c: Cluster, d: Cluster, head: seq<Call>, owner: NamespacedName,
                      adoptee: NamespacedName, extras: seq<Entry>, n: nat)
    requires n <= |head| + |CleanupPlan(cfg, owner, extras)| && !Found(adoptee, extras)
    requires AllTarget(head, adoptee)
    requires forall nn :: nn != adoptee ==> Lookup(d, nn) == Lookup(c, nn)
    requires |head| <= n
    ensures Torn(cfg, c, head + CleanupPlan(cfg, owner, extras), n)
       <==> Torn(cfg, d, CleanupPlan(cfg, owner, extras), n - |head|)
  {
    var k := CleanupPlan(cfg, owner, extras);
    var plan := head + k;
    CleanupTargets(cfg, owner, extras);
    forall i | 0 <= i < |k| ensures k[i].target != adoptee
        && Claimed(cfg, d, k[i].target) == Claimed(cfg, c, k[i].target) {
      assert Found(k[i].target, extras);
      assert Lookup(d, k[i].target) == Lookup(c, k[i].target);
    }
    if n < |plan| {
      assert plan[n] == k[n - |head|];
      if n == |head| {
        assert n > 0 ==> plan[n - 1] == head[n - 1];
      } else {
        assert plan[n - 1] == k[n - 1 - |head|];
      }
    }
  }

  lemma FreshFacts(cfg: Config, c: Cluster, owner: NamespacedName, adoptee: NamespacedName, view: View)
    requires Fresh(cfg, c, owner, adoptee, view)
    ensures owner.namespace == adoptee.namespace && '/' !in owner.namespace
    ensures view.index.Some? ==> ListsIndex(cfg, AtIndexRead(cfg, c, adoptee, view), owner, view.index.value)
    ensures LabelPlan(cfg, adoptee, view) == [] ==> AtIndexRead(cfg, c, adoptee, view) == c
  {}

  /** The states between the phases of a Handle that reads fresh caches. */
  lemma Phases(cfg: Config, c: Cluster, owner: NamespacedName, adoptee: NamespacedName, view: View)
    requires ValidConfig(cfg) && Inv(cfg, c) && Fresh(cfg, c, owner, adoptee, view) && ReadsSucceed(adoptee, view)
    ensures var entries := view.index.value;
            var c1 := AtIndexRead(cfg, c, adoptee, view);
            var c2 := ApplyAll(c1, AnnotatePlan(cfg, owner, adoptee, entries));
            && Inv(cfg, c1) && Inv(cfg, c2) && Current(cfg, c2, owner, Extras(adoptee, entries))
            && !Found(adoptee, Extras(adoptee, entries))
            && (forall nn :: nn != adoptee ==> Lookup(c2, nn) == Lookup(c, nn) && (nn in c2 <==> nn in c))
            && (AnnotatePlan(cfg, owner, adoptee, entries) == [] ==> LabelPlan(cfg, adoptee, view) == [] && c2 == c)
            && (adoptee.name != "" ==> AnnotatedFor(cfg, c2, owner, adoptee) && HasOwner(cfg, c2[adoptee]))
            && (c2 == c || (adoptee in c2 && HasOwner(cfg, c2[adoptee])))
            && (forall nn: NamespacedName ::
                  nn != adoptee && nn.namespace == owner.namespace && AnnotatedFor(cfg, c, owner, nn) ==>
                    Found(nn, Extras(adoptee, entries)))
  {
    hide ForceApply, Inv, ListsIndex, Current, Extras, Claimed, ValidConfig, Labelled, HasOwner, AtIndexRead, Fresh;
    var c1 := AtIndexRead(cfg, c, adoptee, view);
    FreshFacts(cfg, c, owner, adoptee, view);
    AfterLabelling(cfg, c, owner, adoptee, view);
    if NeedsLabel(adoptee, view) {
      NoOwnerNoAnnotation(cfg, c1[adoptee], owner);
    }
    AfterAnnotating(cfg, c1, owner, adoptee, view.index.value);
    IndexReadFacts(cfg, c1, owner, adoptee, view.index.value);
  }

  /** Every state of a Handle that reads fresh caches keeps the invariant. */
  lemma HandleStates(cfg: Config, c: Cluster, owner: NamespacedName, adoptee: NamespacedName, view: View, n: nat)
    requires ValidConfig(cfg) && Inv(cfg, c) && Fresh(cfg, c, owner, adoptee, view)
    requires n <= |Plan(cfg, owner, adoptee, view)|
    ensures Inv(cfg, ApplyAll(c, Plan(cfg, owner, adoptee, view)[..n]))
  {
    hide Inv, Fresh, ValidConfig, Current, ServerSideApply.Apply, AnnotatePlan, CleanupPlan, Extras, AnnotatedFor,
         HasOwner, Found;
    if ReadsSucceed(adoptee, view) {
      var entries := view.index.value;
      var m := |LabelPlan(cfg, adoptee, view)| + |AnnotatePlan(cfg, owner, adoptee, entries)|;
      Phases(cfg, c, owner, adoptee, view);
      PlanPrefix(cfg, c, owner, adoptee, view, n);
      hide Plan, LabelPlan, AtIndexRead, Lookup, ApplyAll;
      if m < n {
        CleanupStates(cfg, ApplyAll(AtIndexRead(cfg, c, adoptee, view), AnnotatePlan(cfg, owner, adoptee, entries)),
                      owner, Extras(adoptee, entries), n - m);
      }
    } else {
      AfterLabelling(cfg, c, owner, adoptee, view);
      var plan := Plan(cfg, owner, adoptee, view);
      assert plan == [] || plan == LabelPlan(cfg, adoptee, view);
      assert plan[..|plan|] == plan && plan[..0] == [];
    }
  }

  /** Run invariant, one Handle: whatever fails, owned objects stay visible to the controller. */
  lemma HandleKeepsInvariant(cfg: Config, c: Cluster, owner: NamespacedName, adoptee: NamespacedName, view: View,
                             script: seq<Outcome>)
    requires ValidConfig(cfg) && Inv(cfg, c) && Fresh(cfg, c, owner, adoptee, view)
    ensures Inv(cfg, Attempt(c, Plan(cfg, owner, adoptee, view), script).cluster)
  {
    hide Inv, Fresh, ValidConfig, Plan;
    AttemptIsPrefix(c, Plan(cfg, owner, adoptee, view), script);
    HandleStates(cfg, c, owner, adoptee, view, Effective(Plan(cfg, owner, adoptee, view), script));
  }

  /** How the calls that took effect leave a label without owner: they end between the two calls of a pair,
      or the label was set and then the index could not be read. */
  ghost predicate Unfinished(cfg: Config, c: Cluster, plan: seq<Call>, view: View, n: nat) {
    cfg.labels != map[] && (Torn(cfg, c, plan, n) || (n > 0 && view.index.None?))
  }

  /** A Handle from a tidy cluster, whatever its reads gave it and wherever it stops, leaves the cluster
      tidy exactly when it does not stop unfinished. */
  lemma TidyUnlessTorn(cfg: Config, c: Cluster, owner: NamespacedName, adoptee: NamespacedName, view: View, n: nat)
    requires ValidConfig(cfg) && Inv(cfg, c) && Fresh(cfg, c, owner, adoptee, view) && Tidy(cfg, c)
    requires n <= |Plan(cfg, owner, adoptee, view)|
    ensures Tidy(cfg, ApplyAll(c, Plan(cfg, owner, adoptee, view)[..n]))
       <==> !Unfinished(cfg, c, Plan(cfg, owner, adoptee, view), view, n)
  {
    hide Inv, Fresh, ValidConfig, Tidy, AnnotatePlan, CleanupPlan, ServerSideApply.Apply, Torn;
    if cfg.labels == map[] {
      HandleStates(cfg, c, owner, adoptee, view, n);
      NoLabelsNoClaims(cfg, ApplyAll(c, Plan(cfg, owner, adoptee, view)[..n]));
    } else if ReadsSucceed(adoptee, view) {
      TidyWhenRead(cfg, c, owner, adoptee, view, n);
    } else if n == 0 {
      NoCallYet(c, Plan(cfg, owner, adoptee, view));
      NotTornYet(cfg, c, Plan(cfg, owner, adoptee, view));
    } else {
      LabelOnly(cfg, c, owner, adoptee, view, n);
      UntidyAfterLabel(cfg, c, owner, adoptee, view);
    }
  }

  lemma NotTornYet(cfg: Config, c: Cluster, plan: seq<Call>)
    ensures !Torn(cfg, c, plan, 0)
  {}

  lemma NoLabelsNoClaims(cfg: Config, c: Cluster)
    requires Inv(cfg, c) && cfg.labels == map[]
    ensures Tidy(cfg, c)
  {
    forall nn | nn in c ensures !Claimed(cfg, c, nn) {
      assert ObjectOk(cfg, nn.namespace, c[nn]);
      assert forall f :: (cfg.controller, f) in c[nn].managed ==> IsControllerLabel(cfg, f);
    }
  }

  /** Without an index result, the only call there can be is the labelling one. */
  lemma LabelOnly(cfg: Config, c: Cluster, owner: NamespacedName, adoptee: NamespacedName, view: View, n: nat)
    requires !ReadsSucceed(adoptee, view) && 0 < n <= |Plan(cfg, owner, adoptee, view)|
    ensures NeedsLabel(adoptee, view) && view.index.None?
    ensures ApplyAll(c, Plan(cfg, owner, adoptee, view)[..n]) == AtIndexRead(cfg, c, adoptee, view)
  {
    hide ApplyAll;
    var plan := Plan(cfg, owner, adoptee, view);
    assert plan == LabelPlan(cfg, adoptee, view) && plan[..n] == plan;
  }

  lemma TidyWhenRead(cfg: Config, c: Cluster, owner: NamespacedName, adoptee: NamespacedName, view: View, n: nat)
    requires ValidConfig(cfg) && Inv(cfg, c) && Fresh(cfg, c, owner, adoptee, view) && ReadsSucceed(adoptee, view)
    requires cfg.labels != map[] && Tidy(cfg, c)
    requires n <= |Plan(cfg, owner, adoptee, view)|
    ensures Tidy(cfg, ApplyAll(c, Plan(cfg, owner, adoptee, view)[..n]))
       <==> !Torn(cfg, c, Plan(cfg, owner, adoptee, view), n)
  {
    hide Inv, Fresh, ValidConfig, Tidy, AnnotatePlan, CleanupPlan, ServerSideApply.Apply;
    if n == 0 {
      assert Plan(cfg, owner, adoptee, view)[..0] == [];
    } else if n <= |LabelPlan(cfg, adoptee, view)| {
      TornAfterLabel(cfg, c, owner, adoptee, view, n);
    } else {
      HeadTargets(cfg, owner, adoptee, view);
      TidyInCleanup(cfg, c, owner, adoptee, view, n);
    }
  }

  lemma TidyInCleanup(cfg: Config, c: Cluster, owner: NamespacedName, adoptee: NamespacedName, view: View, n: nat)
    requires ValidConfig(cfg) && Inv(cfg, c) && Fresh(cfg, c, owner, adoptee, view) && ReadsSucceed(adoptee, view)
    requires Tidy(cfg, c) && n <= |Plan(cfg, owner, adoptee, view)|
    requires n >= |LabelPlan(cfg, adoptee, view)| + |AnnotatePlan(cfg, owner, adoptee, view.index.value)| && n > 0
    ensures Tidy(cfg, ApplyAll(c, Plan(cfg, owner, adoptee, view)[..n]))
       <==> !Torn(cfg, c, Plan(cfg, owner, adoptee, view), n)
  {
    hide Inv, Fresh, ValidConfig, Tidy, Torn, Current, AtIndexRead, CleanupPlan, Extras, AnnotatedFor, HasOwner, Found,
         Plan, LabelPlan, AnnotatePlan, ServerSideApply.Apply, ApplyAll, AllTarget, Lookup;
    var entries := view.index.value;
    var l, a := LabelPlan(cfg, adoptee, view), AnnotatePlan(cfg, owner, adoptee, entries);
    HeadTargets(cfg, owner, adoptee, view);
    PlanPrefix(cfg, c, owner, adoptee, view, n);
    Phases(cfg, c, owner, adoptee, view);
    var c2 := ApplyAll(AtIndexRead(cfg, c, adoptee, view), a);
    NoCallYet(c2, CleanupPlan(cfg, owner, Extras(adoptee, entries)));
    TidyCleanupFrom(cfg, c, c2, l + a, owner, adoptee, Extras(adoptee, entries), n);
  }

  lemma TidyCleanupFrom(cfg: Config, c: Cluster, d: Cluster, head: seq<Call>, owner: NamespacedName,
                        adoptee: NamespacedName, extras: seq<Entry>, n: nat)
    requires ValidConfig(cfg) && Inv(cfg, d) && Current(cfg, d, owner, extras) && !Found(adoptee, extras)
    requires Tidy(cfg, c) && (d == c || (adoptee in d && HasOwner(cfg, d[adoptee])))
    requires forall nn :: nn != adoptee ==> Lookup(d, nn) == Lookup(c, nn) && (nn in d <==> nn in c)
    requires AllTarget(head, adoptee)
    requires |head| <= n <= |head| + |CleanupPlan(cfg, owner, extras)|
    ensures Tidy(cfg, ApplyAll(d, CleanupPlan(cfg, owner, extras)[..n - |head|]))
       <==> !Torn(cfg, c, head + CleanupPlan(cfg, owner, extras), n)
  {
    hide Inv, ValidConfig, Tidy, Torn, Current, CleanupPlan, HasOwner, Found, ServerSideApply.Apply, ApplyAll,
         AllTarget;
    TornInCleanup(cfg, c, d, head, owner, adoptee, extras, n);
    StaysTidy(cfg, c, d, adoptee);
    CleanupStates(cfg, d, owner, extras, n - |head|);
  }

  lemma NoCallYet(c: Cluster, plan: seq<Call>)
    ensures ApplyAll(c, plan[..0]) == c
  {}

  lemma HeadTargets(cfg: Config, owner: NamespacedName, adoptee: NamespacedName, view: View)
    requires view.index.Some?
    ensures AllTarget(LabelPlan(cfg, adoptee, view) + AnnotatePlan(cfg, owner, adoptee, view.index.value), adoptee)
    ensures ReadsSucceed(adoptee, view) ==>
              Plan(cfg, owner, adoptee, view)
                  == LabelPlan(cfg, adoptee, view) + AnnotatePlan(cfg, owner, adoptee, view.index.value)
                                                 + CleanupPlan(cfg, owner, Extras(adoptee, view.index.value))
    ensures |LabelPlan(cfg, adoptee, view)| <= 1 && |AnnotatePlan(cfg, owner, adoptee, view.index.value)| <= 1
  {}

  lemma TornAfterLabel(cfg: Config, c: Cluster, owner: NamespacedName, adoptee: NamespacedName, view: View, n: nat)
    requires ValidConfig(cfg) && Inv(cfg, c) && Fresh(cfg, c, owner, adoptee, view) && ReadsSucceed(adoptee, view)
    requires cfg.labels != map[]
    requires 0 < n <= |LabelPlan(cfg, adoptee, view)| && n <= |Plan(cfg, owner, adoptee, view)|
    ensures !Tidy(cfg, ApplyAll(c, Plan(cfg, owner, adoptee, view)[..n]))
    ensures Torn(cfg, c, Plan(cfg, owner, adoptee, view), n)
  {
    hide Inv, Fresh, ValidConfig, Tidy, Current, AtIndexRead, CleanupPlan, Extras, AnnotatedFor, HasOwner, Found,
         ApplyAll, ServerSideApply.Apply, Lookup;
    UntidyAfterLabel(cfg, c, owner, adoptee, view);
    Phases(cfg, c, owner, adoptee, view);
    PlanPrefix(cfg, c, owner, adoptee, view, n);
    assert n == 1 && AnnotatePlan(cfg, owner, adoptee, view.index.value) == [AnnotateCall(cfg, owner, adoptee)];
    assert Plan(cfg, owner, adoptee, view)[1] == AnnotateCall(cfg, owner, adoptee);
    assert cfg.ownerManager(owner) != cfg.controller by { OwnerIsNotController(cfg, owner); }
  }

  lemma OwnerIsNotController(cfg: Config, owner: NamespacedName)
    requires ValidConfig(cfg)
    ensures cfg.ownerManager(owner) != cfg.controller
  {}

  lemma UntidyAfterLabel(cfg: Config, c: Cluster, owner: NamespacedName, adoptee: NamespacedName, view: View)
    requires ValidConfig(cfg) && Inv(cfg, c) && Fresh(cfg, c, owner, adoptee, view) && NeedsLabel(adoptee, view)
    requires cfg.labels != map[]
    ensures !Tidy(cfg, AtIndexRead(cfg, c, adoptee, view))
  {
    hide Inv, Fresh, ForceApply, Claimed, ValidConfig, HasOwner, Labelled;
    AfterLabelling(cfg, c, owner, adoptee, view);
    LabelClaims(cfg, c, adoptee);
    ApplyOne(c, LabelCall(cfg, adoptee));
  }

  lemma StaysTidy(cfg: Config, c: Cluster, d: Cluster, nn: NamespacedName)
    requires Tidy(cfg, c)
    requires forall x :: x != nn ==> Lookup(d, x) == Lookup(c, x) && (x in d <==> x in c)
    requires d == c || (nn in d && HasOwner(cfg, d[nn]))
    ensures Tidy(cfg, d)
  {
    forall x | x in d && Claimed(cfg, d, x) ensures HasOwner(cfg, d[x]) {
      if x != nn {
        assert Lookup(d, x) == Lookup(c, x);
        assert Claimed(cfg, c, x);
      }
    }
  }

  // ----- Whole runs -----

  /** A run of the cluster: Handles of any owners with any faults, and changes by anyone else. */
  datatype Step =
    | HandleStep(owner: NamespacedName, adoptee: NamespacedName, view: View, script: seq<Outcome>)
    | External(next: Cluster)

  /** A field manager that this handler uses in namespace `ns`. */
  ghost predicate HandlerManager(cfg: Config, ns: string, m: Manager) {
    m == cfg.controller || exists owner: NamespacedName :: owner.namespace == ns && m == cfg.ownerManager(owner)
  }

  /** What others may do to an object: anything but write owner annotations, act under the
      handler's managers, or unlabel an owned object. */
  ghost predicate ExternalChange(cfg: Config, nn: NamespacedName, o: Object, o': Object) {
    && '/' !in nn.namespace && nn.name != ""
    && (forall f :: IsOwnerField(cfg, f) ==> (f in o'.fields <==> f in o.fields))
    && (forall f :: IsOwnerField(cfg, f) && f in o.fields ==> o'.fields[f] == o.fields[f])
    && (forall p: (Manager, Field) :: IsOwnerField(cfg, p.1) || HandlerManager(cfg, nn.namespace, p.0) ==>
          (p in o'.managed <==> p in o.managed))
    && (HasOwner(cfg, o) && Labelled(cfg, o) ==> Labelled(cfg, o'))
  }

  /** Others may also create and delete objects freely. */
  ghost predicate ExternalStep(cfg: Config, c: Cluster, d: Cluster) {
    forall nn :: nn in d ==> ExternalChange(cfg, nn, Lookup(c, nn), d[nn])
  }

  function After(cfg: Config, c: Cluster, step: Step): Cluster {
    match step
    case HandleStep(owner, adoptee, view, script) => Attempt(c, Plan(cfg, owner, adoptee, view), script).cluster
    case External(next) => next
  }

  function Final(cfg: Config, c: Cluster, steps: seq<Step>): Cluster
    decreases |steps|
  {
    if steps == [] then c else Final(cfg, After(cfg, c, steps[0]), steps[1..])
  }

  ghost predicate ValidStep(cfg: Config, c: Cluster, step: Step) {
    match step
    case HandleStep(owner, adoptee, view, _) => Fresh(cfg, c, owner, adoptee, view)
    case External(next) => ExternalStep(cfg, c, next)
  }

  ghost predicate ValidRun(cfg: Config, c: Cluster, steps: seq<Step>)
    decreases |steps|
  {
    steps == [] || (ValidStep(cfg, c, steps[0]) && ValidRun(cfg, After(cfg, c, steps[0]), steps[1..]))
  }

  lemma ExternalKeepsObject(cfg: Config, nn: NamespacedName, o: Object, o': Object)
    requires ObjectOk(cfg, nn.namespace, o) && (HasOwner(cfg, o) ==> Labelled(cfg, o))
    requires ExternalChange(cfg, nn, o, o')
    ensures ObjectOk(cfg, nn.namespace, o') && (HasOwner(cfg, o') ==> Labelled(cfg, o'))
  {
    forall owner: NamespacedName, f | owner.namespace == nn.namespace && (cfg.ownerManager(owner), f) in o'.managed
      ensures f == OwnerField(cfg, owner)
    {
      assert HandlerManager(cfg, nn.namespace, cfg.ownerManager(owner));
      assert (cfg.ownerManager(owner), f) in o.managed;
    }
    forall f | (cfg.controller, f) in o'.managed ensures IsControllerLabel(cfg, f) {
      assert HandlerManager(cfg, nn.namespace, cfg.controller);
      assert (cfg.controller, f) in o.managed;
    }
    if HasOwner(cfg, o') {
      var f :| f in o'.fields && IsOwnerField(cfg, f);
      assert f in o.fields;
    }
  }

  lemma ExternalKeepsInv(cfg: Config, c: Cluster, d: Cluster)
    requires Inv(cfg, c) && ExternalStep(cfg, c, d)
    ensures Inv(cfg, d)
  {
    hide ObjectOk, HasOwner, Labelled, ExternalChange;
    forall nn | nn in d
      ensures ObjectOk(cfg, nn.namespace, d[nn]) && (HasOwner(cfg, d[nn]) ==> Labelled(cfg, d[nn]))
      ensures '/' !in nn.namespace && nn.name != ""
    {
      EmptyIsOk(cfg, nn.namespace);
      ExternalKeepsObject(cfg, nn, Lookup(c, nn), d[nn]);
      ExternalNames(cfg, nn, Lookup(c, nn), d[nn]);
    }
  }

  lemma EmptyIsOk(cfg: Config, ns: string)
    ensures ObjectOk(cfg, ns, EMPTY) && !HasOwner(cfg, EMPTY)
  {}

  lemma ExternalNames(cfg: Config, nn: NamespacedName, o: Object, o': Object)
    requires ExternalChange(cfg, nn, o, o')
    ensures '/' !in nn.namespace && nn.name != ""
  {}

  lemma StepKeepsInv(cfg: Config, c: Cluster, step: Step)
    requires ValidConfig(cfg) && Inv(cfg, c) && ValidStep(cfg, c, step)
    ensures Inv(cfg, After(cfg, c, step))
  {
    hide Inv, Fresh, ExternalStep, ValidConfig, Plan, Attempt;
    match step
    case HandleStep(owner, adoptee, view, script) => HandleKeepsInvariant(cfg, c, owner, adoptee, view, script);
    case External(next) => ExternalKeepsInv(cfg, c, next);
  }

  /** Run invariant: over every run, with any failing calls, every object that carries an owner
      annotation carries all the controller's labels. */
  lemma {:induction false} RunInvariant(cfg: Config, c: Cluster, steps: seq<Step>)
    requires ValidConfig(cfg) && Inv(cfg, c) && ValidRun(cfg, c, steps)
    ensures Inv(cfg, Final(cfg, c, steps))
    decreases |steps|
  {
    hide Inv, ValidStep, After, ValidConfig;
    if steps != [] {
      StepKeepsInv(cfg, c, steps[0]);
      RunInvariant(cfg, After(cfg, c, steps[0]), steps[1..]);
    }
  }

  // ----- Tidiness over whole runs -----

  /** Changes by others neither claim an object for the controller nor take an owner away. */
  lemma ExternalKeepsTidy(cfg: Config, c: Cluster, d: Cluster)
    requires Tidy(cfg, c) && ExternalStep(cfg, c, d)
    ensures Tidy(cfg, d)
  {
    forall nn | nn in d && Claimed(cfg, d, nn) ensures HasOwner(cfg, d[nn]) {
      assert ExternalChange(cfg, nn, Lookup(c, nn), d[nn]);
      var f :| (cfg.controller, f) in d[nn].managed;
      assert HandlerManager(cfg, nn.namespace, cfg.controller);
      assert (cfg.controller, f) in Lookup(c, nn).managed;
      assert nn in c && Claimed(cfg, c, nn);
      var g :| g in c[nn].fields && IsOwnerField(cfg, g);
      assert g in d[nn].fields;
    }
  }

  /** This step is a Handle that stops unfinished. */
  ghost predicate Breaks(cfg: Config, c: Cluster, step: Step) {
    step.HandleStep? &&
    var plan := Plan(cfg, step.owner, step.adoptee, step.view);
    Unfinished(cfg, c, plan, step.view, Effective(plan, step.script))
  }

  ghost predicate NoneBreaks(cfg: Config, c: Cluster, steps: seq<Step>)
    decreases |steps|
  {
    steps == [] || (!Breaks(cfg, c, steps[0]) && NoneBreaks(cfg, After(cfg, c, steps[0]), steps[1..]))
  }

  /** The cluster is tidy before the run and after each of its steps. */
  ghost predicate AlwaysTidy(cfg: Config, c: Cluster, steps: seq<Step>)
    decreases |steps|
  {
    Tidy(cfg, c) && (steps == [] || AlwaysTidy(cfg, After(cfg, c, steps[0]), steps[1..]))
  }

  lemma StepStaysTidy(cfg: Config, c: Cluster, step: Step)
    requires ValidConfig(cfg) && Inv(cfg, c) && Tidy(cfg, c) && ValidStep(cfg, c, step)
    ensures Tidy(cfg, After(cfg, c, step)) <==> !Breaks(cfg, c, step)
  {
    hide Inv, Fresh, ExternalStep, ValidConfig, Plan, Attempt, Tidy, Unfinished;
    match step
    case HandleStep(owner, adoptee, view, script) =>
      var plan := Plan(cfg, owner, adoptee, view);
      AttemptIsPrefix(c, plan, script);
      TidyUnlessTorn(cfg, c, owner, adoptee, view, Effective(plan, script));
    case External(next) => ExternalKeepsTidy(cfg, c, next);
  }

  /** A cluster stays tidy all along a run, with any faults and any changes by others, exactly when no Handle
      of the run stops unfinished. */
  lemma {:induction false} RunStaysTidy(cfg: Config, c: Cluster, steps: seq<Step>)
    requires ValidConfig(cfg) && Inv(cfg, c) && Tidy(cfg, c) && ValidRun(cfg, c, steps)
    ensures AlwaysTidy(cfg, c, steps) <==> NoneBreaks(cfg, c, steps)
    decreases |steps|
  {
    hide Inv, ValidStep, After, ValidConfig, Tidy, Breaks;
    if steps != [] {
      StepStaysTidy(cfg, c, steps[0]);
      StepKeepsInv(cfg, c, steps[0]);
      if !Breaks(cfg, c, steps[0]) {
        RunStaysTidy(cfg, After(cfg, c, steps[0]), steps[1..]);
      }
    }
  }

  // ----- Recovery -----

  /** The owner's annotation sits on its adoptee and nowhere else in its namespace. */
  ghost predicate Settled(cfg: Config, c: Cluster, owner: NamespacedName, adoptee: NamespacedName) {
    forall nn: NamespacedName :: nn.namespace == owner.namespace ==>
      (AnnotatedFor(cfg, c, owner, nn) <==> nn == adoptee && adoptee.name != "")
  }

  /** A Handle that gets through to its end leaves the owner's annotation on the adoptee alone. */
  lemma HandleSettles(cfg: Config, c: Cluster, owner: NamespacedName, adoptee: NamespacedName, view: View)
    requires ValidConfig(cfg) && Inv(cfg, c) && Fresh(cfg, c, owner, adoptee, view) && ReadsSucceed(adoptee, view)
    ensures Settled(cfg, ApplyAll(c, Plan(cfg, owner, adoptee, view)), owner, adoptee)
  {
    hide Fresh, Inv, ValidConfig, Current, CleanupPlan, Extras, ServerSideApply.Apply, ApplyAll, AtIndexRead,
         LabelPlan, AnnotatePlan, HasOwner, Found, ListsIndex;
    var entries := view.index.value;
    var a := AnnotatePlan(cfg, owner, adoptee, entries);
    var l := LabelPlan(cfg, adoptee, view);
    var c1 := AtIndexRead(cfg, c, adoptee, view);
    var c2 := ApplyAll(c1, a);
    FreshFacts(cfg, c, owner, adoptee, view);
    Phases(cfg, c, owner, adoptee, view);
    CleanupUnannotates(cfg, c2, owner, Extras(adoptee, entries));
    ApplyAllConcat(c, l + a, CleanupPlan(cfg, owner, Extras(adoptee, entries)));
    ApplyAllConcat(c, l, a);
    assert ApplyAll(c, l) == c1 by { AtIndexReadIs(cfg, c, adoptee, view); }
    NoEmptyName(cfg, c2);
    assert forall nn :: nn != adoptee ==> AnnotatedFor(cfg, c2, owner, nn) == AnnotatedFor(cfg, c, owner, nn);
  }

  lemma AtIndexReadIs(cfg: Config, c: Cluster, adoptee: NamespacedName, view: View)
    ensures AtIndexRead(cfg, c, adoptee, view) == ApplyAll(c, LabelPlan(cfg, adoptee, view))
  {}

  lemma NoEmptyName(cfg: Config, c: Cluster)
    requires Inv(cfg, c)
    ensures forall nn :: nn in c ==> nn.name != ""
  {}

  /** A Handle that a read stopped changes no annotation. */
  lemma UnreadChangesNothing(cfg: Config, c: Cluster, owner: NamespacedName, adoptee: NamespacedName, view: View)
    requires ValidConfig(cfg) && Inv(cfg, c) && Fresh(cfg, c, owner, adoptee, view) && !ReadsSucceed(adoptee, view)
    ensures forall o, nn ::
              AnnotatedFor(cfg, ApplyAll(c, Plan(cfg, owner, adoptee, view)), o, nn) == AnnotatedFor(cfg, c, o, nn)
  {
    hide Inv, Fresh, ValidConfig, AnnotatedFor, HasOwner, Labelled;
    AfterLabelling(cfg, c, owner, adoptee, view);
    var plan := Plan(cfg, owner, adoptee, view);
    if plan != [] {
      LabelOnly(cfg, c, owner, adoptee, view, 1);
      assert plan[..1] == plan;
    }
  }

  /** Recovery: after any run, however many calls failed in it, one Handle without failing calls leaves exactly
      the adoptee annotated for its owner, or nothing if there is no adoptee, if and only if its reads let it
      get that far or nothing was left to do. */
  lemma Recovery(cfg: Config, c: Cluster, steps: seq<Step>, owner: NamespacedName, adoptee: NamespacedName,
                 view: View, script: seq<Outcome>)
    requires ValidConfig(cfg) && Inv(cfg, c) && ValidRun(cfg, c, steps)
    requires var d := Final(cfg, c, steps);
             Fresh(cfg, d, owner, adoptee, view) && Attempt(d, Plan(cfg, owner, adoptee, view), script).ok
    ensures var d := Final(cfg, c, steps);
            var e := Attempt(d, Plan(cfg, owner, adoptee, view), script).cluster;
            && Inv(cfg, e)
            && (Settled(cfg, e, owner, adoptee) <==> ReadsSucceed(adoptee, view) || Settled(cfg, d, owner, adoptee))
  {
    hide Inv, Fresh, ValidConfig, ValidRun, Final, Plan, AnnotatedFor, ReadsSucceed;
    var d := Final(cfg, c, steps);
    var plan := Plan(cfg, owner, adoptee, view);
    RunInvariant(cfg, c, steps);
    HandleKeepsInvariant(cfg, d, owner, adoptee, view, script);
    AttemptIsPrefix(d, plan, script);
    assert plan[..|plan|] == plan;
    if ReadsSucceed(adoptee, view) {
      HandleSettles(cfg, d, owner, adoptee, view);
    } else {
      UnreadChangesNothing(cfg, d, owner, adoptee, view);
    }
  }

  /** A Handle whose adoptee does not exist ends before the clean-up, without a failing call: whatever the owner
      was annotated on before, it still is. */
  lemma MissingAdopteeStopsHandle(cfg: Config, c: Cluster, owner: NamespacedName, adoptee: NamespacedName, view: View,
                                  script: seq<Outcome>)
    requires NeedsLabel(adoptee, view) && !view.exists_
    ensures Events(cfg, owner, adoptee, view, c, script) == [ObjectMissing]
    ensures Attempt(c, Plan(cfg, owner, adoptee, view), script) == Attempted(c, script, true)
    ensures !ReadsSucceed(adoptee, view)
  {}
}
