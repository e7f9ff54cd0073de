/** Sequences of adoption Handles that read fresh caches, with any pattern of failing calls:
    what every such run keeps, and what the first fault-free Handle restores.
 */
module AdoptionRecovery {
  import opened Options
  import opened ServerSideApply
  import opened Adoption
  import opened AdoptionRuns

  // ----- Fresh reads -----

  /** The index result lists, once each and in any order, exactly the indexed objects. */
  ghost predicate ListsIndex(cfg: Config, c: Cluster, owner: NamespacedName, entries: seq<Entry>) {
    && (forall i :: 0 <= i < |entries| ==>
          Indexed(cfg, c, owner, entries[i].nn) && c[entries[i].nn] == entries[i].o)
    && (forall nn :: Indexed(cfg, c, owner, nn) ==> Found(nn, entries))
    && (forall i, j :: 0 <= i < j < |entries| ==> entries[i].nn != entries[j].nn)
  }

  /** The cluster the index is read from: after the labelling call, if there is one. */
  function AtIndexRead(cfg: Config, c: Cluster, adoptee: NamespacedName, view: View): Cluster {
    ApplyAll(c, LabelPlan(cfg, adoptee, view))
  }

  ghost predicate Fresh(cfg: Config, c: Cluster, owner: NamespacedName, adoptee: NamespacedName, view: View) {
    && owner.namespace == adoptee.namespace && '/' !in owner.namespace
    && (adoptee.name != "" && !view.cached.CacheError? ==>
          (view.cached.Hit? <==> adoptee in c && Labelled(cfg, c[adoptee])))
    && (view.index.Some? ==> ListsIndex(cfg, AtIndexRead(cfg, c, adoptee, view), owner, view.index.value))
  }

  // ----- The four calls on a cluster that satisfies the invariant -----

  ghost predicate Claimed(cfg: Config, c: Cluster, nn: NamespacedName) {
    exists f :: (cfg.controller, f) in Lookup(c, nn).managed
  }

  /** Replacing one object keeps the invariant if the new object obeys it. */
  lemma InvAfter(cfg: Config, c: Cluster, nn: NamespacedName, o: Object)
    requires Inv(cfg, c) && '/' !in nn.namespace && nn.name != ""
    requires ObjectOk(cfg, nn.namespace, o) && (HasOwner(cfg, o) ==> Labelled(cfg, o))
    ensures Inv(cfg, c[nn := o])
  {
    hide ObjectOk, HasOwner, Labelled;
  }

  /** What the invariant says about one object, present or not. */
  lemma InvAt(cfg: Config, c: Cluster, nn: NamespacedName)
    requires Inv(cfg, c)
    ensures ObjectOk(cfg, nn.namespace, Lookup(c, nn))
    ensures nn in c ==> '/' !in nn.namespace && nn.name != "" && (HasOwner(cfg, c[nn]) ==> Labelled(cfg, c[nn]))
  {}

  lemma LabelStep(cfg: Config, c: Cluster, nn: NamespacedName)
    requires ValidConfig(cfg) && Inv(cfg, c) && '/' !in nn.namespace && nn.name != ""
    ensures var d := Apply(c, LabelCall(cfg, nn));
            && Inv(cfg, d) && nn in d && Labelled(cfg, d[nn])
            && HasOwner(cfg, d[nn]) == HasOwner(cfg, Lookup(c, nn))
            && (forall owner, x :: AnnotatedFor(cfg, d, owner, x) == AnnotatedFor(cfg, c, owner, x))
  {
    hide ForceApply, ObjectOk, HasOwner, Labelled, Inv, ValidConfig;
    var o := Lookup(c, nn);
    InvAt(cfg, c, nn);
    LabelApply(cfg, nn.namespace, nn, o);
    ControllerKeepsOwners(cfg, nn.namespace, o, LabelCall(cfg, nn).patch);
    InvAfter(cfg, c, nn, ForceApply(o, cfg.controller, LabelCall(cfg, nn).patch));
  }

  lemma LabelClaims(cfg: Config, c: Cluster, nn: NamespacedName)
    requires cfg.labels != map[]
    ensures Claimed(cfg, Apply(c, LabelCall(cfg, nn)), nn)
  {
    var l :| l in cfg.labels;
    assert Label(l) in LabelCall(cfg, nn).patch;
    assert (cfg.controller, Label(l)) in Lookup(Apply(c, LabelCall(cfg, nn)), nn).managed;
  }

  lemma AnnotateStep(cfg: Config, c: Cluster, owner: NamespacedName, nn: NamespacedName)
    requires ValidConfig(cfg) && Inv(cfg, c) && nn.namespace == owner.namespace
    requires nn in c && Labelled(cfg, c[nn])
    ensures var d := Apply(c, AnnotateCall(cfg, owner, nn));
            && Inv(cfg, d) && AnnotatedFor(cfg, d, owner, nn) && HasOwner(cfg, d[nn])
            && Claimed(cfg, d, nn) == Claimed(cfg, c, nn)
  {
    hide ForceApply, ObjectOk, Labelled, Inv, ValidConfig;
    var patch := map[OwnerField(cfg, owner) := OWNED];
    InvAt(cfg, c, nn);
    OwnerApply(cfg, owner, c[nn], patch);
    OwnerKeepsLabels(cfg, owner, c[nn], patch);
    var o' := ForceApply(c[nn], cfg.ownerManager(owner), patch);
    assert OwnerField(cfg, owner) in patch;
    assert OwnerField(cfg, owner) in o'.fields;
    assert cfg.prefix <= cfg.prefix + owner.name;
    assert IsOwnerField(cfg, OwnerField(cfg, owner));
    InvAfter(cfg, c, nn, o');
  }

  lemma UnannotateStep(cfg: Config, c: Cluster, owner: NamespacedName, nn: NamespacedName)
    requires ValidConfig(cfg) && Inv(cfg, c) && nn.namespace == owner.namespace && nn in c
    ensures var d := Apply(c, UnannotateCall(cfg, owner, nn));
            && Inv(cfg, d) && nn in d && !AnnotatedFor(cfg, d, owner, nn)
            && HasOwner(cfg, d[nn]) == HasOtherOwner(cfg, owner, c[nn])
            && Claimed(cfg, d, nn) == Claimed(cfg, c, nn)
  {
    hide ForceApply, ObjectOk, Labelled, Inv, ValidConfig;
    InvAt(cfg, c, nn);
    OwnerApply(cfg, owner, c[nn], map[]);
    OwnersAfterRelease(cfg, owner, c[nn]);
    OwnerKeepsLabels(cfg, owner, c[nn], map[]);
    InvAfter(cfg, c, nn, ForceApply(c[nn], cfg.ownerManager(owner), map[]));
  }

  lemma OwnersAfterRelease(cfg: Config, owner: NamespacedName, o: Object)
    requires ValidConfig(cfg) && ObjectOk(cfg, owner.namespace, o)
    ensures HasOwner(cfg, ForceApply(o, cfg.ownerManager(owner), map[])) == HasOtherOwner(cfg, owner, o)
  {
    hide ForceApply;
    OwnerApply(cfg, owner, o, map[]);
    var o' := ForceApply(o, cfg.ownerManager(owner), map[]);
    if HasOtherOwner(cfg, owner, o) {
      var f :| f in o.fields && IsOwnerField(cfg, f) && !(f == OwnerField(cfg, owner) && o.fields[f] == OWNED);
      assert f in o'.fields;
    }
    if HasOwner(cfg, o') {
      var f :| f in o'.fields && IsOwnerField(cfg, f);
      assert f in o.fields && f != OwnerField(cfg, owner);
    }
  }

  lemma UnlabelStep(cfg: Config, c: Cluster, nn: NamespacedName)
    requires ValidConfig(cfg) && Inv(cfg, c) && nn in c && !HasOwner(cfg, c[nn])
    ensures var d := Apply(c, UnlabelCall(cfg, nn));
            && Inv(cfg, d) && nn in d && !HasOwner(cfg, d[nn]) && !Claimed(cfg, d, nn)
            && (forall owner :: !AnnotatedFor(cfg, d, owner, nn))
  {
    hide ForceApply, ObjectOk, Labelled, Inv, ValidConfig, HasOwner;
    InvAt(cfg, c, nn);
    ControllerApply(cfg, nn.namespace, c[nn], map[]);
    ControllerKeepsOwners(cfg, nn.namespace, c[nn], map[]);
    InvAfter(cfg, c, nn, ForceApply(c[nn], cfg.controller, map[]));
    var d := Apply(c, UnlabelCall(cfg, nn));
    forall owner ensures !AnnotatedFor(cfg, d, owner, nn) {
      NoOwnerNoAnnotation(cfg, d[nn], owner);
    }
  }

  lemma NoOwnerNoAnnotation(cfg: Config, o: Object, owner: NamespacedName)
    requires !HasOwner(cfg, o)
    ensures OwnerField(cfg, owner) !in o.fields
  {
    assert IsOwnerField(cfg, OwnerField(cfg, owner));
  }

  // ----- Prefixes of a plan: every state a failing Handle can stop in -----

  /** How many calls of a plan take effect before the first failure stops it. */
  function Effective(plan: seq<Call>, script: seq<Outcome>): (n: nat)
    ensures n <= |plan|
    decreases |plan|
  {
    if plan == [] then 0
    else
      match NextOutcome(script)
      case Applied => 1 + Effective(plan[1..], Rest(script))
      case Rejected => 0
      case AppliedButFailed => 1
  }

  /** A Handle with failing calls leaves the state that some prefix of its plan leaves. */
  lemma {:induction false} AttemptIsPrefix(c: Cluster, plan: seq<Call>, script: seq<Outcome>)
    ensures Attempt(c, plan, script).cluster == ApplyAll(c, plan[..Effective(plan, script)])
    ensures Attempt(c, plan, script).ok ==> Effective(plan, script) == |plan|
    decreases |plan|
  {
    if plan != [] {
      var n := Effective(plan, script);
      assert n > 0 ==> plan[..n][1..] == plan[1..][..n - 1];
      if NextOutcome(script) == Applied {
        AttemptIsPrefix(Apply(c, plan[0]), plan[1..], Rest(script));
      } else if NextOutcome(script) == AppliedButFailed {
        assert plan[1..][..0] == [];
      }
    }
  }

  lemma {:induction false} ApplyAllConcat(c: Cluster, p: seq<Call>, q: seq<Call>)
    ensures ApplyAll(c, p + q) == ApplyAll(ApplyAll(c, p), q)
    decreases |p|
  {
    if p == [] {
      assert p + q == q;
    } else {
      assert (p + q)[1..] == p[1..] + q;
      ApplyAllConcat(Apply(c, p[0]), p[1..], q);
    }
  }

  lemma ApplyOne(c: Cluster, call: Call)
    ensures ApplyAll(c, [call]) == Apply(c, call)
  {}

  lemma ApplyPrefix(c: Cluster, p: seq<Call>, q: seq<Call>, n: nat)
    requires n <= |p| + |q|
    ensures ApplyAll(c, (p + q)[..n])
         == if n <= |p| then ApplyAll(c, p[..n]) else ApplyAll(ApplyAll(c, p), q[..n - |p|])
  {
    if n <= |p| {
      assert (p + q)[..n] == p[..n];
    } else {
      assert (p + q)[..n] == p + q[..n - |p|];
      ApplyAllConcat(c, p, q[..n - |p|]);
    }
  }

  // ----- Cleaning up the objects an owner no longer references -----

  /** The snapshots to release are current, distinct, and annotated for the owner. */
  ghost predicate Current(cfg: Config, c: Cluster, owner: NamespacedName, extras: seq<Entry>) {
    && (forall i :: 0 <= i < |extras| ==>
          && extras[i].nn.namespace == owner.namespace
          && AnnotatedFor(cfg, c, owner, extras[i].nn) && c[extras[i].nn] == extras[i].o)
    && (forall i, j :: 0 <= i < j < |extras| ==> extras[i].nn != extras[j].nn)
  }

  /** The controller holds labels only on objects that still have an owner. */
  ghost predicate Tidy(cfg: Config, c: Cluster) {
    forall nn :: nn in c && Claimed(cfg, c, nn) ==> HasOwner(cfg, c[nn])
  }

  /** The calls made so far end between the two calls of a pair on one object: labelled but not
      yet annotated, or un-annotated while the controller still holds its labels. */
  ghost predicate Torn(cfg: Config, c: Cluster, plan: seq<Call>, n: nat) {
    && 0 < n < |plan| && plan[n - 1].target == plan[n].target
    && (plan[n].manager == cfg.controller ==> Claimed(cfg, c, plan[n].target))
  }

  lemma ReleasePlanShape(cfg: Config, c: Cluster, owner: NamespacedName, e: Entry)
    requires Inv(cfg, c) && Current(cfg, c, owner, [e])
    ensures e.nn in c && c[e.nn] == e.o && e.nn.namespace == owner.namespace
    ensures ReleasePlan(cfg, owner, e) == if HasOtherOwner(cfg, owner, e.o)
                                          then [UnannotateCall(cfg, owner, e.nn)]
                                          else [UnannotateCall(cfg, owner, e.nn), UnlabelCall(cfg, e.nn)]
  {
    assert [e][0] == e;
    assert ObjectOk(cfg, e.nn.namespace, c[e.nn]) && IsOwnerField(cfg, OwnerField(cfg, owner));
  }

  lemma ReleaseStates(cfg: Config, c: Cluster, owner: NamespacedName, e: Entry)
    requires ValidConfig(cfg) && Inv(cfg, c) && Current(cfg, c, owner, [e])
    ensures var u := Apply(c, UnannotateCall(cfg, owner, e.nn));
            var v := ApplyAll(c, ReleasePlan(cfg, owner, e));
            && Inv(cfg, u) && Inv(cfg, v)
            && e.nn in c && c[e.nn] == e.o
            && e.nn in u && Claimed(cfg, u, e.nn) == Claimed(cfg, c, e.nn)
            && HasOwner(cfg, u[e.nn]) == HasOtherOwner(cfg, owner, e.o)
            && e.nn in v && !AnnotatedFor(cfg, v, owner, e.nn)
            && (Claimed(cfg, v, e.nn) ==> HasOwner(cfg, v[e.nn]))
            && u == c[e.nn := u[e.nn]] && v == c[e.nn := v[e.nn]]
  {
    hide ForceApply, Inv, HasOwner, HasOtherOwner, Claimed, AnnotatedFor, Current, ReleasePlan, ValidConfig;
    ReleasePlanShape(cfg, c, owner, e);
    UnannotateStep(cfg, c, owner, e.nn);
    var u := Apply(c, UnannotateCall(cfg, owner, e.nn));
    var plan := ReleasePlan(cfg, owner, e);
    if HasOtherOwner(cfg, owner, e.o) {
      ApplyOne(c, plan[0]);
    } else {
      ApplyOne(u, plan[1]);
      assert plan[1..] == [plan[1]];
      UnlabelStep(cfg, u, e.nn);
    }
  }

  /** Every state of the clean-up keeps the invariant; it is tidy unless it is torn. */
  lemma {:induction false} CleanupStates(cfg: Config, c: Cluster, owner: NamespacedName, extras: seq<Entry>, n: nat)
    requires ValidConfig(cfg) && Inv(cfg, c) && Current(cfg, c, owner, extras)
    requires n <= |CleanupPlan(cfg, owner, extras)|
    ensures Inv(cfg, ApplyAll(c, CleanupPlan(cfg, owner, extras)[..n]))
    ensures Tidy(cfg, c) ==>
              (Tidy(cfg, ApplyAll(c, CleanupPlan(cfg, owner, extras)[..n]))
               <==> !Torn(cfg, c, CleanupPlan(cfg, owner, extras), n))
    decreases |extras|
  {
    hide ForceApply, ServerSideApply.Apply, Inv, Tidy, Current, ValidConfig, ReleasePlan, Claimed;
    if n == 0 {
      assert CleanupPlan(cfg, owner, extras)[..0] == [];
    } else {
      var p, q := ReleasePlan(cfg, owner, extras[0]), CleanupPlan(cfg, owner, extras[1..]);
      FirstIsCurrent(cfg, c, owner, extras);
      if n < |p| {
        TornRelease(cfg, c, owner, extras, n);
      } else {
        ReleasePlanShape(cfg, c, owner, extras[0]);
        ReleaseStates(cfg, c, owner, extras[0]);
        var v := ApplyAll(c, p);
        ApplyPrefix(c, p, q, n);
        assert p[..|p|] == p && q[..0] == [];
        assert CleanupPlan(cfg, owner, extras) == p + q;
        assert ApplyAll(c, CleanupPlan(cfg, owner, extras)[..n]) == ApplyAll(v, q[..n - |p|]);
        RestIsCurrent(cfg, c, v, owner, extras);
        if Tidy(cfg, c) { TidyAfter(cfg, c, v, extras[0].nn); }
        CleanupStates(cfg, v, owner, extras[1..], n - |p|);
        TornTail(cfg, c, v, owner, extras, n);
      }
    }
  }

  lemma TornRelease(cfg: Config, c: Cluster, owner: NamespacedName, extras: seq<Entry>, n: nat)
    requires ValidConfig(cfg) && Inv(cfg, c) && extras != [] && Current(cfg, c, owner, [extras[0]])
    requires 0 < n < |ReleasePlan(cfg, owner, extras[0])|
    ensures Inv(cfg, ApplyAll(c, CleanupPlan(cfg, owner, extras)[..n]))
    ensures Tidy(cfg, c) ==>
              (Tidy(cfg, ApplyAll(c, CleanupPlan(cfg, owner, extras)[..n]))
               <==> !Torn(cfg, c, CleanupPlan(cfg, owner, extras), n))
  {
    hide ForceApply, Inv, Tidy, Claimed, HasOwner, HasOtherOwner, Current, ReleasePlan, ValidConfig;
    var e := extras[0];
    var plan := CleanupPlan(cfg, owner, extras);
    ReleasePlanShape(cfg, c, owner, e);
    ReleaseStates(cfg, c, owner, e);
    var u := Apply(c, UnannotateCall(cfg, owner, e.nn));
    assert plan[..n] == [UnannotateCall(cfg, owner, e.nn)];
    ApplyOne(c, plan[0]);
    if Tidy(cfg, c) { TidyAfter(cfg, c, u, e.nn); }
  }

  lemma {:induction false} CleanupTargets(cfg: Config, owner: NamespacedName, extras: seq<Entry>)
    ensures forall i :: 0 <= i < |CleanupPlan(cfg, owner, extras)| ==>
              Found(CleanupPlan(cfg, owner, extras)[i].target, extras)
  {
    if extras != [] {
      CleanupTargets(cfg, owner, extras[1..]);
      var p: seq<Call>, q: seq<Call> := ReleasePlan(cfg, owner, extras[0]), CleanupPlan(cfg, owner, extras[1..]);
      forall i | 0 <= i < |p + q| ensures Found((p + q)[i].target, extras) {
        if i < |p| {
          assert (p + q)[i].target == extras[0].nn;
        } else {
          var j :| 0 <= j < |extras[1..]| && extras[1..][j].nn == q[i - |p|].target;
          assert extras[j + 1].nn == (p + q)[i].target;
        }
      }
    }
  }

  lemma TornTail(cfg: Config, c: Cluster, v: Cluster, owner: NamespacedName, extras: seq<Entry>, n: nat)
    requires extras != [] && forall i, j :: 0 <= i < j < |extras| ==> extras[i].nn != extras[j].nn
    requires extras[0].nn in v && v == c[extras[0].nn := v[extras[0].nn]]
    requires 0 < |ReleasePlan(cfg, owner, extras[0])| <= n <= |CleanupPlan(cfg, owner, extras)|
    ensures Torn(cfg, c, CleanupPlan(cfg, owner, extras), n)
       <==> Torn(cfg, v, CleanupPlan(cfg, owner, extras[1..]), n - |ReleasePlan(cfg, owner, extras[0])|)
  {
    var p, q := ReleasePlan(cfg, owner, extras[0]), CleanupPlan(cfg, owner, extras[1..]);
    var plan := p + q;
    CleanupTargets(cfg, owner, extras[1..]);
    forall i | 0 <= i < |q| ensures q[i].target != extras[0].nn
        && Claimed(cfg, v, q[i].target) == Claimed(cfg, c, q[i].target) {
      var j :| 0 <= j < |extras[1..]| && extras[1..][j].nn == q[i].target;
      assert extras[j + 1].nn == q[i].target;
      assert Lookup(v, q[i].target) == Lookup(c, q[i].target);
    }
    if n < |plan| {
      assert plan[n] == q[n - |p|];
      if n == |p| {
        assert plan[n - 1] == p[n - 1] && p[n - 1].target == extras[0].nn;
      } else {
        assert plan[n - 1] == q[n - 1 - |p|];
      }
    }
  }

  lemma FirstIsCurrent(cfg: Config, c: Cluster, owner: NamespacedName, extras: seq<Entry>)
    requires Current(cfg, c, owner, extras) && extras != []
    ensures Current(cfg, c, owner, [extras[0]])
    ensures forall i, j :: 0 <= i < j < |extras| ==> extras[i].nn != extras[j].nn
  {}

  lemma RestIsCurrent(cfg: Config, c: Cluster, v: Cluster, owner: NamespacedName, extras: seq<Entry>)
    requires Current(cfg, c, owner, extras) && extras != []
    requires extras[0].nn in v && v == c[extras[0].nn := v[extras[0].nn]]
    ensures Current(cfg, v, owner, extras[1..])
  {}

  /** A change to one object keeps the cluster tidy if it leaves that object tidy, and only then. */
  lemma TidyAfter(cfg: Config, c: Cluster, d: Cluster, nn: NamespacedName)
    requires Tidy(cfg, c) && nn in d && d == c[nn := d[nn]]
    ensures Tidy(cfg, d) <==> (Claimed(cfg, d, nn) ==> HasOwner(cfg, d[nn]))
  {
    if Claimed(cfg, d, nn) ==> HasOwner(cfg, d[nn]) {
      forall x | x in d && Claimed(cfg, d, x) ensures HasOwner(cfg, d[x]) {
        if x != nn {
          assert Lookup(d, x) == Lookup(c, x);
          assert Claimed(cfg, c, x);
        }
      }
    }
  }

  /** After the clean-up the owner's annotation is gone from exactly the released objects. */
  lemma {:induction false} CleanupUnannotates(cfg: Config, c: Cluster, owner: NamespacedName, extras: seq<Entry>)
    requires ValidConfig(cfg) && Inv(cfg, c) && Current(cfg, c, owner, extras)
    ensures forall nn :: AnnotatedFor(cfg, ApplyAll(c, CleanupPlan(cfg, owner, extras)), owner, nn)
                    <==> AnnotatedFor(cfg, c, owner, nn) && !Found(nn, extras)
    decreases |extras|
  {
    hide ForceApply, ServerSideApply.Apply, Inv, Current, ValidConfig, ReleasePlan, Claimed, HasOwner;
    if extras != [] {
      var p, q := ReleasePlan(cfg, owner, extras[0]), CleanupPlan(cfg, owner, extras[1..]);
      FirstIsCurrent(cfg, c, owner, extras);
      ReleaseStates(cfg, c, owner, extras[0]);
      var v := ApplyAll(c, p);
      RestIsCurrent(cfg, c, v, owner, extras);
      ApplyAllConcat(c, p, q);
      CleanupUnannotates(cfg, v, owner, extras[1..]);
      assert forall nn :: Found(nn, extras) <==> nn == extras[0].nn || Found(nn, extras[1..]) by {
        FoundTail(extras);
      }
    }
  }

  lemma FoundTail(entries: seq<Entry>)
    requires entries != []
    ensures forall nn :: Found(nn, entries) <==> nn == entries[0].nn || Found(nn, entries[1..])
  {
    forall nn ensures Found(nn, entries) <==> nn == entries[0].nn || Found(nn, entries[1..]) {
      if Found(nn, entries) {
        var i :| 0 <= i < |entries| && entries[i].nn == nn;
        assert i > 0 ==> entries[1..][i - 1].nn == nn;
      }
      if Found(nn, entries[1..]) {
        var i :| 0 <= i < |entries[1..]| && entries[1..][i].nn == nn;
        assert entries[i + 1].nn == nn;
      }
    }
  }

  // ----- A whole Handle on fresh reads -----

  /** Under the invariant, the index lookup equals a scan of all annotations in the owner's namespace. */
  lemma IndexIsScan(cfg: Config, c: Cluster, owner: NamespacedName, nn: NamespacedName)
    requires Inv(cfg, c) && '/' !in owner.namespace
    ensures Indexed(cfg, c, owner, nn) <==> nn.namespace == owner.namespace && AnnotatedFor(cfg, c, owner, nn)
  {
    if nn in c {
      IndexKeyExact(cfg, owner, nn.namespace, c[nn]);
      assert IsOwnerField(cfg, OwnerField(cfg, owner));
    }
  }

  lemma {:induction false} ExtrasExact(adoptee: NamespacedName, entries: seq<Entry>)
    requires forall i, j :: 0 <= i < j < |entries| ==> entries[i].nn != entries[j].nn
    ensures forall nn :: Found(nn, Extras(adoptee, entries)) <==> nn != adoptee && Found(nn, entries)
    ensures forall i, j :: 0 <= i < j < |Extras(adoptee, entries)| ==>
              Extras(adoptee, entries)[i].nn != Extras(adoptee, entries)[j].nn
  {
    if entries != [] {
      var rest := Extras(adoptee, entries[1..]);
      ExtrasExact(adoptee, entries[1..]);
      FoundTail(entries);
      assert !Found(entries[0].nn, entries[1..]);
      if entries[0].nn != adoptee {
        var all := [entries[0]] + rest;
        FoundTail(all);
        assert all[1..] == rest;
        forall i, j | 0 <= i < j < |all| ensures all[i].nn != all[j].nn {
          assert all[j] == rest[j - 1];
          assert Found(rest[j - 1].nn, rest);
        }
      }
    }
  }

  /** The reads went well: nothing but a failing call can stop the Handle. */
  predicate ReadsSucceed(adoptee: NamespacedName, view: View) {
    !view.cached.CacheError? && (NeedsLabel(adoptee, view) ==> view.exists_) && view.index.Some?
  }

  /** After the labelling call: the invariant holds and no annotation has changed. */
  lemma AfterLabelling(cfg: Config, c: Cluster, owner: NamespacedName, adoptee: NamespacedName, view: View)
    requires ValidConfig(cfg) && Inv(cfg, c) && Fresh(cfg, c, owner, adoptee, view)
    ensures var d := AtIndexRead(cfg, c, adoptee, view);
            && Inv(cfg, d)
            && (forall o, nn :: AnnotatedFor(cfg, d, o, nn) == AnnotatedFor(cfg, c, o, nn))
            && (adoptee.name != "" && !view.cached.CacheError? ==> adoptee in d && Labelled(cfg, d[adoptee]))
            && (forall nn :: nn != adoptee ==> Lookup(d, nn) == Lookup(c, nn) && (nn in d <==> nn in c))
            && (NeedsLabel(adoptee, view) ==> !HasOwner(cfg, d[adoptee]))
  {
    hide ForceApply;
    if NeedsLabel(adoptee, view) {
      LabelStep(cfg, c, adoptee);
      ApplyOne(c, LabelCall(cfg, adoptee));
    }
  }

  /** What a fresh index result tells about the cluster it was read from. */
  lemma IndexReadFacts(cfg: Config, c: Cluster, owner: NamespacedName, adoptee: NamespacedName, entries: seq<Entry>)
    requires Inv(cfg, c) && '/' !in owner.namespace && ListsIndex(cfg, c, owner, entries)
    ensures forall nn: NamespacedName :: Found(nn, entries) <==>
            nn.namespace == owner.namespace && AnnotatedFor(cfg, c, owner, nn)
    ensures forall nn :: Found(nn, Extras(adoptee, entries)) <==>
                         nn != adoptee && nn.namespace == owner.namespace && AnnotatedFor(cfg, c, owner, nn)
    ensures Current(cfg, c, owner, Extras(adoptee, entries))
  {
    forall nn ensures Found(nn, entries) <==> nn.namespace == owner.namespace && AnnotatedFor(cfg, c, owner, nn) {
      IndexIsScan(cfg, c, owner, nn);
      if Found(nn, entries) {
        var i :| 0 <= i < |entries| && entries[i].nn == nn;
        assert Indexed(cfg, c, owner, nn);
      }
    }
    ExtrasExact(adoptee, entries);
    ExtrasAreEntries(adoptee, entries);
    var extras := Extras(adoptee, entries);
    forall i | 0 <= i < |extras|
      ensures extras[i].nn.namespace == owner.namespace
      ensures AnnotatedFor(cfg, c, owner, extras[i].nn) && c[extras[i].nn] == extras[i].o
    {
      var j :| 0 <= j < |entries| && entries[j] == extras[i];
      assert Found(entries[j].nn, entries);
    }
  }

  /** A change to one object that is not to be released keeps the releases current. */
  lemma StillCurrent(cfg: Config, c: Cluster, d: Cluster, owner: NamespacedName, extras: seq<Entry>, nn: NamespacedName)
    requires Current(cfg, c, owner, extras) && !Found(nn, extras)
    requires nn in d && d == c[nn := d[nn]]
    ensures Current(cfg, d, owner, extras)
  {}

  /** After the annotating call: the adoptee is annotated, and what is left to release is current. */
  lemma AfterAnnotating(cfg: Config, c: Cluster, owner: NamespacedName, adoptee: NamespacedName, entries: seq<Entry>)
    requires ValidConfig(cfg) && Inv(cfg, c) && owner.namespace == adoptee.namespace && '/' !in owner.namespace
    requires ListsIndex(cfg, c, owner, entries)
    requires adoptee.name != "" ==> adoptee in c && Labelled(cfg, c[adoptee])
    ensures var d := ApplyAll(c, AnnotatePlan(cfg, owner, adoptee, entries));
            && Inv(cfg, d)
            && (adoptee.name != "" ==> AnnotatedFor(cfg, d, owner, adoptee) && HasOwner(cfg, d[adoptee]))
            && (d == c || (adoptee in d && d == c[adoptee := d[adoptee]]))
            && Claimed(cfg, d, adoptee) == Claimed(cfg, c, adoptee)
            && Current(cfg, d, owner, Extras(adoptee, entries))
            && (AnnotatePlan(cfg, owner, adoptee, entries) == [] <==>
                adoptee.name == "" || AnnotatedFor(cfg, c, owner, adoptee))
  {
    hide ForceApply, Inv, Current, ListsIndex, Extras, Claimed, ValidConfig, Labelled;
    IndexReadFacts(cfg, c, owner, adoptee, entries);
    assert IsOwnerField(cfg, OwnerField(cfg, owner));
    if AnnotatePlan(cfg, owner, adoptee, entries) != [] {
      AnnotateStep(cfg, c, owner, adoptee);
      ApplyOne(c, AnnotateCall(cfg, owner, adoptee));
      var d := Apply(c, AnnotateCall(cfg, owner, adoptee));
      StillCurrent(cfg, c, d, owner, Extras(adoptee, entries), adoptee);
    }
  }
}
