/** The adoption handler: it labels a referenced object for the controller, annotates it for one
    owner, and cleans up the objects that owner no longer references.
 */
module Adoption {
  import opened Options
  import opened ServerSideApply

  /** The value stored under an owner annotation. */
  const OWNED := "owned"

  /** What a controller configures once for all its owners. */
  datatype Config = Config(
    controller: Manager,
    labels: map<string, string>,
    prefix: string,
    ownerManager: NamespacedName -> Manager)

  /** Owner managers differ from the controller's, and from each other within a namespace. */
  ghost predicate ValidConfig(cfg: Config) {
    && (forall o :: cfg.ownerManager(o) != cfg.controller)
    && (forall o: NamespacedName, p: NamespacedName ::
          o.namespace == p.namespace && cfg.ownerManager(o) == cfg.ownerManager(p) ==> o == p)
  }

  function Key(cfg: Config, owner: NamespacedName): string {
    cfg.prefix + owner.name
  }

  function OwnerField(cfg: Config, owner: NamespacedName): Field {
    Annotation(Key(cfg, owner))
  }

  /** An annotation under the common prefix, whoever it names. */
  predicate IsOwnerField(cfg: Config, f: Field) {
    f.Annotation? && cfg.prefix <= f.key
  }

  /** The owner that an annotation on an object in namespace `ns` names. */
  function OwnerOf(cfg: Config, ns: string, f: Field): NamespacedName
    requires IsOwnerField(cfg, f)
  {
    NamespacedName(ns, f.key[|cfg.prefix|..])
  }

  predicate IsControllerLabel(cfg: Config, f: Field) {
    f.Label? && f.key in cfg.labels
  }

  predicate Labelled(cfg: Config, o: Object) {
    forall l :: l in cfg.labels ==> Label(l) in o.fields && o.fields[Label(l)] == cfg.labels[l]
  }

  predicate HasOwner(cfg: Config, o: Object) {
    exists f :: f in o.fields && IsOwnerField(cfg, f)
  }

  // ----- The four requests the handler sends -----

  function LabelCall(cfg: Config, nn: NamespacedName): Call {
    Call(nn, cfg.controller, map l | l in cfg.labels :: Label(l) := cfg.labels[l])
  }

  function UnlabelCall(cfg: Config, nn: NamespacedName): Call {
    Call(nn, cfg.controller, map[])
  }

  function AnnotateCall(cfg: Config, owner: NamespacedName, nn: NamespacedName): Call {
    Call(nn, cfg.ownerManager(owner), map[OwnerField(cfg, owner) := OWNED])
  }

  function UnannotateCall(cfg: Config, owner: NamespacedName, nn: NamespacedName): Call {
    Call(nn, cfg.ownerManager(owner), map[])
  }

  // ----- The index over owner annotations -----

  function Text(nn: NamespacedName): string {
    nn.namespace + "/" + nn.name
  }

  /** The index keys of an object: one per owner annotation, in the object's own namespace. */
  function OwnerKeys(prefix: string, ns: string, o: Object): set<string> {
    set f | f in o.fields && f.Annotation? && prefix <= f.key :: Text(NamespacedName(ns, f.key[|prefix|..]))
  }

  /** OwnerKeysFromMeta walks the annotations in any order. */
  method OwnerKeysFromMeta(prefix: string, ns: string, o: Object) returns (ownerNames: seq<string>)
    ensures forall s :: s in ownerNames <==> s in OwnerKeys(prefix, ns, o)
    ensures |ownerNames| == |set f | f in o.fields && f.Annotation? && prefix <= f.key|
  {
    ownerNames := [];
    var rest := set f | f in o.fields && f.Annotation?;
    ghost var seen: set<Field> := {};
    while rest != {}
      invariant rest <= o.fields.Keys && seen <= o.fields.Keys
      invariant forall f :: f in o.fields && f.Annotation? && prefix <= f.key ==> f in seen || f in rest
      invariant forall f :: f in seen ==> f.Annotation? && prefix <= f.key && f !in rest
      invariant forall f :: f in rest ==> f.Annotation?
      invariant forall f :: f in seen ==> Text(NamespacedName(ns, f.key[|prefix|..])) in ownerNames
      invariant forall s :: s in ownerNames ==> s in OwnerKeys(prefix, ns, o)
      invariant |ownerNames| == |seen|
    {
      var f :| f in rest;
      rest := rest - {f};
      if prefix <= f.key {
        ownerNames := ownerNames + [Text(NamespacedName(ns, f.key[|prefix|..]))];
        seen := seen + {f};
      }
    }
    assert seen == set f | f in o.fields && f.Annotation? && prefix <= f.key;
  }

  predicate Indexed(cfg: Config, c: Cluster, owner: NamespacedName, nn: NamespacedName) {
    nn in c && Labelled(cfg, c[nn]) && Text(owner) in OwnerKeys(cfg.prefix, nn.namespace, c[nn])
  }

  predicate AnnotatedFor(cfg: Config, c: Cluster, owner: NamespacedName, nn: NamespacedName) {
    nn in c && OwnerField(cfg, owner) in c[nn].fields
  }

  lemma TextInjective(a: NamespacedName, b: NamespacedName)
    requires '/' !in a.namespace && '/' !in b.namespace
    requires Text(a) == Text(b)
    ensures a == b
  {
    var s := Text(a);
    assert s[|a.namespace|] == '/' && s[|b.namespace|] == '/';
    assert s[..|a.namespace|] == a.namespace && s[..|b.namespace|] == b.namespace;
    assert s[|a.namespace| + 1..] == a.name && s[|b.namespace| + 1..] == b.name;
  }

  /** The index key of an owner selects exactly the objects in its namespace that carry its annotation. */
  lemma IndexKeyExact(cfg: Config, owner: NamespacedName, ns: string, o: Object)
    requires '/' !in owner.namespace && '/' !in ns
    ensures Text(owner) in OwnerKeys(cfg.prefix, ns, o) <==> ns == owner.namespace && OwnerField(cfg, owner) in o.fields
  {
    if Text(owner) in OwnerKeys(cfg.prefix, ns, o) {
      var f :| f in o.fields && f.Annotation? && cfg.prefix <= f.key
               && Text(NamespacedName(ns, f.key[|cfg.prefix|..])) == Text(owner);
      TextInjective(NamespacedName(ns, f.key[|cfg.prefix|..]), owner);
      assert f.key == cfg.prefix + f.key[|cfg.prefix|..];
    }
    if ns == owner.namespace && OwnerField(cfg, owner) in o.fields {
      var f := OwnerField(cfg, owner);
      assert f.key[|cfg.prefix|..] == owner.name;
      assert NamespacedName(ns, f.key[|cfg.prefix|..]) == owner;
    }
  }

  // ----- What one Handle reads, plans and does -----

  datatype CacheRead = Hit | Miss | CacheError
  datatype Entry = Entry(nn: NamespacedName, o: Object)

  /** Everything a Handle learns from its caches; it may be stale. */
  datatype View = View(cached: CacheRead, exists_: bool, index: Option<seq<Entry>>)

  predicate NeedsLabel(adoptee: NamespacedName, view: View) {
    adoptee.name != "" && view.cached.Miss?
  }

  predicate Found(adoptee: NamespacedName, entries: seq<Entry>) {
    exists i :: 0 <= i < |entries| && entries[i].nn == adoptee
  }

  /** An annotation of the snapshot that keeps the object labelled. */
  predicate HasOtherOwner(cfg: Config, owner: NamespacedName, o: Object) {
    exists f :: f in o.fields && IsOwnerField(cfg, f) && !(f == OwnerField(cfg, owner) && o.fields[f] == OWNED)
  }

  predicate CarriesOwner(cfg: Config, owner: NamespacedName, o: Object) {
    OwnerField(cfg, owner) in o.fields && o.fields[OwnerField(cfg, owner)] == OWNED
  }

  function LabelPlan(cfg: Config, adoptee: NamespacedName, view: View): seq<Call> {
    if NeedsLabel(adoptee, view) then [LabelCall(cfg, adoptee)] else []
  }

  function AnnotatePlan(cfg: Config, owner: NamespacedName, adoptee: NamespacedName, entries: seq<Entry>): seq<Call> {
    if adoptee.name != "" && !Found(adoptee, entries) then [AnnotateCall(cfg, owner, adoptee)] else []
  }

  function ReleasePlan(cfg: Config, owner: NamespacedName, e: Entry): seq<Call> {
    (if CarriesOwner(cfg, owner, e.o) then [UnannotateCall(cfg, owner, e.nn)] else [])
    + (if HasOtherOwner(cfg, owner, e.o) then [] else [UnlabelCall(cfg, e.nn)])
  }

  /** What is asked of the server for an object that is no longer referenced: this owner's annotation is taken back
      if its value is "owned"; the labels are, unless there is another annotation with the prefix, as which this
      owner's own counts if it has another value. */
  lemma ReleaseExactly(cfg: Config, owner: NamespacedName, e: Entry)
    ensures var own := Annotation(cfg.prefix + owner.name);
            var owned := own in e.o.fields && e.o.fields[own] == "owned";
            var other := exists f :: f in e.o.fields && f.Annotation? && cfg.prefix <= f.key && !(f == own && owned);
            ReleasePlan(cfg, owner, e)
            == (if owned then [Call(e.nn, cfg.ownerManager(owner), map[])] else [])
               + (if other then [] else [Call(e.nn, cfg.controller, map[])])
  {}

  /** The two requests that claim an object, and the key it is then indexed under. */
  lemma ClaimsExactly(cfg: Config, owner: NamespacedName, nn: NamespacedName)
    ensures LabelCall(cfg, nn).target == nn && LabelCall(cfg, nn).manager == cfg.controller
    ensures forall f :: f in LabelCall(cfg, nn).patch <==> f.Label? && f.key in cfg.labels
    ensures forall l :: l in cfg.labels ==> LabelCall(cfg, nn).patch[Label(l)] == cfg.labels[l]
    ensures AnnotateCall(cfg, owner, nn)
         == Call(nn, cfg.ownerManager(owner), map[Annotation(cfg.prefix + owner.name) := "owned"])
    ensures Text(owner) == owner.namespace + "/" + owner.name
  {}

  function Extras(adoptee: NamespacedName, entries: seq<Entry>): seq<Entry> {
    if entries == [] then []
    else if entries[0].nn == adoptee then Extras(adoptee, entries[1..])
    else [entries[0]] + Extras(adoptee, entries[1..])
  }

  function CleanupPlan(cfg: Config, owner: NamespacedName, extras: seq<Entry>): seq<Call> {
    if extras == [] then [] else ReleasePlan(cfg, owner, extras[0]) + CleanupPlan(cfg, owner, extras[1..])
  }

  /** The calls of a Handle that meets no failing call, decided by its reads alone. */
  function Plan(cfg: Config, owner: NamespacedName, adoptee: NamespacedName, view: View): seq<Call> {
    if view.cached.CacheError? || (NeedsLabel(adoptee, view) && !view.exists_) then []
    else if view.index.None? then LabelPlan(cfg, adoptee, view)
    else LabelPlan(cfg, adoptee, view) + AnnotatePlan(cfg, owner, adoptee, view.index.value)
         + CleanupPlan(cfg, owner, Extras(adoptee, view.index.value))
  }

  lemma {:induction false} CleanupNeverAnnotates(cfg: Config, owner: NamespacedName, extras: seq<Entry>, m: nat)
    requires m < |CleanupPlan(cfg, owner, extras)|
    ensures CleanupPlan(cfg, owner, extras)[m].patch == map[]
    decreases |extras|
  {
    var first := ReleasePlan(cfg, owner, extras[0]);
    if m >= |first| {
      CleanupNeverAnnotates(cfg, owner, extras[1..], m - |first|);
    }
  }

  lemma AnnotatingSets(cfg: Config, owner: NamespacedName, nn: NamespacedName)
    ensures AnnotateCall(cfg, owner, nn).patch != map[]
  {
    assert OwnerField(cfg, owner) in AnnotateCall(cfg, owner, nn).patch;
  }

  /** How one call ends. A failing call may still have been stored, as after a timeout. */
  datatype Outcome = Applied | Rejected | AppliedButFailed

  datatype Attempted = Attempted(cluster: Cluster, script: seq<Outcome>, ok: bool)

  function NextOutcome(script: seq<Outcome>): Outcome {
    if script == [] then Applied else script[0]
  }

  function Rest(script: seq<Outcome>): seq<Outcome> {
    if script == [] then [] else script[1..]
  }

  /** Run a plan call by call until one fails. */
  function Attempt(c: Cluster, plan: seq<Call>, script: seq<Outcome>): Attempted
    decreases |plan|
  {
    if plan == [] then Attempted(c, script, true)
    else
      match NextOutcome(script)
      case Applied => Attempt(Apply(c, plan[0]), plan[1..], Rest(script))
      case Rejected => Attempted(c, Rest(script), false)
      case AppliedButFailed => Attempted(Apply(c, plan[0]), Rest(script), false)
  }

  lemma {:induction false} AttemptConcat(c: Cluster, p: seq<Call>, q: seq<Call>, script: seq<Outcome>)
    ensures var a := Attempt(c, p, script);
            Attempt(c, p + q, script) == if a.ok then Attempt(a.cluster, q, a.script) else a
    decreases |p|
  {
    if p == [] {
      assert p + q == q;
    } else {
      assert (p + q)[0] == p[0] && (p + q)[1..] == p[1..] + q;
      AttemptConcat(Apply(c, p[0]), p[1..], q, Rest(script));
    }
  }

  /** A call that was made, and whether it was reported to have succeeded. */
  datatype Report = Report(call: Call, ok: bool)

  /** The calls of a plan that are made, up to the first one that reports a failure. */
  function Reports(plan: seq<Call>, script: seq<Outcome>): seq<Report>
    decreases |plan|
  {
    if plan == [] then []
    else
      var ok := NextOutcome(script) == Applied;
      [Report(plan[0], ok)] + if ok then Reports(plan[1..], Rest(script)) else []
  }

  predicate AllOk(reports: seq<Report>) {
    forall i :: 0 <= i < |reports| ==> reports[i].ok
  }

  /** An attempt succeeds exactly when every call made reports success. */
  lemma {:induction false} AttemptReports(c: Cluster, plan: seq<Call>, script: seq<Outcome>)
    ensures Attempt(c, plan, script).ok <==> AllOk(Reports(plan, script))
    decreases |plan|
  {
    if plan != [] {
      var r, all := Report(plan[0], NextOutcome(script) == Applied), Reports(plan, script);
      assert all[0] == r;
      if r.ok {
        var rest := Reports(plan[1..], Rest(script));
        AttemptReports(Apply(c, plan[0]), plan[1..], Rest(script));
        assert all == [r] + rest;
        assert AllOk(all) <==> AllOk(rest) by {
          assert forall i :: 0 <= i < |rest| ==> all[i + 1] == rest[i];
          assert forall i :: 1 <= i < |all| ==> all[i] == rest[i - 1];
        }
      }
    }
  }

  /** The calls made are the first ones of the plan, and only the last one made can have failed. */
  lemma {:induction false} ReportsArePlan(plan: seq<Call>, script: seq<Outcome>, i: nat)
    requires i < |Reports(plan, script)|
    ensures i < |plan| && Reports(plan, script)[i].call == plan[i]
    ensures i < |Reports(plan, script)| - 1 ==> Reports(plan, script)[i].ok
    decreases |plan|
  {
    if i > 0 {
      ReportsArePlan(plan[1..], Rest(script), i - 1);
    }
  }

  lemma {:induction false} ReportsConcat(c: Cluster, p: seq<Call>, q: seq<Call>, script: seq<Outcome>)
    ensures var a := Attempt(c, p, script);
            Reports(p + q, script) == Reports(p, script) + if a.ok then Reports(q, a.script) else []
    decreases |p|
  {
    if p == [] {
      assert p + q == q;
    } else {
      assert (p + q)[0] == p[0] && (p + q)[1..] == p[1..] + q;
      ReportsConcat(Apply(c, p[0]), p[1..], q, Rest(script));
    }
  }

  lemma NoReports()
    ensures forall script :: Reports([], script) == []
    ensures forall d, script :: Attempt(d, [], script) == Attempted(d, script, true)
  {}

  lemma Regroup<T>(a: seq<T>, b: seq<T>, c: seq<T>)
    ensures (a + b) + c == a + (b + c) && a + [] == a
  {}

  lemma OneReport(call: Call, script: seq<Outcome>)
    ensures Reports([call], script) == [Report(call, NextOutcome(script) == Applied)]
  {
    assert [call][1..] == [];
  }

  /** What the handler tells its surroundings. */
  datatype Event = RequeueErr | RequeueAPIErr | ObjectMissing | ObjectAdopted | Next(adopted: Option<NamespacedName>)

  /** The events of a Handle whose calls end as `script` says. */
  function Events(cfg: Config, owner: NamespacedName, adoptee: NamespacedName, view: View,
                  c: Cluster, script: seq<Outcome>): seq<Event>
  {
    var labelling := Attempt(c, LabelPlan(cfg, adoptee, view), script);
    if view.cached.CacheError? then [RequeueErr]
    else if NeedsLabel(adoptee, view) && !view.exists_ then [ObjectMissing]
    else if !labelling.ok then [RequeueAPIErr]
    else if view.index.None? then [RequeueErr]
    else
      var entries := view.index.value;
      var annotate := Attempt(labelling.cluster, AnnotatePlan(cfg, owner, adoptee, entries), labelling.script);
      if !annotate.ok then [RequeueAPIErr]
      else
        var cleanup := Attempt(annotate.cluster, CleanupPlan(cfg, owner, Extras(adoptee, entries)), annotate.script);
        (if AnnotatePlan(cfg, owner, adoptee, entries) != [] then [ObjectAdopted] else [])
        + [if !cleanup.ok then RequeueAPIErr
           else Next(if adoptee.name == "" && !Found(adoptee, entries) then None else Some(adoptee))]
  }

  /** The API server as the handler sees it: a cluster and the fate of the calls to come. */
  class ApiServer {
    var cluster: Cluster
    var script: seq<Outcome>
    var log: seq<Report>

    constructor (c: Cluster, s: seq<Outcome>)
      ensures cluster == c && script == s && log == []
    {
      cluster, script, log := c, s, [];
    }

    method Apply(call: Call) returns (ok: bool)
      modifies this
      ensures ok == (NextOutcome(old(script)) == Applied) && log == old(log) + [Report(call, ok)]
      ensures cluster == if NextOutcome(old(script)) == Rejected then old(cluster)
                         else ServerSideApply.Apply(old(cluster), call)
      ensures Attempt(old(cluster), [call], old(script)) == Attempted(cluster, script, ok)
    {
      var outcome := NextOutcome(script);
      script := Rest(script);
      log := log + [Report(call, outcome == Applied)];
      if outcome != Rejected {
        cluster := ServerSideApply.Apply(cluster, call);
      }
      ok := outcome == Applied;
    }
  }

  /** Release one object: visit its annotations in any order, then drop the labels if no other
      owner was seen. */
  method Release(cfg: Config, server: ApiServer, owner: NamespacedName, old_: Entry) returns (ok: bool)
    modifies server
    ensures Attempt(old(server.cluster), ReleasePlan(cfg, owner, old_), old(server.script))
            == Attempted(server.cluster, server.script, ok)
    ensures server.log == old(server.log) + Reports(ReleasePlan(cfg, owner, old_), old(server.script))
  {
    var o := old_.o;
    var hasOtherOwner := false;
    var rest := set f | f in o.fields && f.Annotation?;
    ghost var first := if CarriesOwner(cfg, owner, o) then [UnannotateCall(cfg, owner, old_.nn)] else [];
    ghost var second := if HasOtherOwner(cfg, owner, o) then [] else [UnlabelCall(cfg, old_.nn)];
    assert CarriesOwner(cfg, owner, o) ==> OwnerField(cfg, owner) in rest;
    while rest != {}
      invariant forall f :: f in rest ==> f in o.fields && f.Annotation?
      invariant hasOtherOwner ==> HasOtherOwner(cfg, owner, o)
      invariant forall f ::
          f in o.fields && IsOwnerField(cfg, f) && !(f == OwnerField(cfg, owner) && o.fields[f] == OWNED) ==>
            hasOtherOwner || f in rest
      invariant CarriesOwner(cfg, owner, o) && OwnerField(cfg, owner) in rest
                ==> server.cluster == old(server.cluster) && server.script == old(server.script)
                    && server.log == old(server.log)
      invariant !(CarriesOwner(cfg, owner, o) && OwnerField(cfg, owner) in rest)
                ==> Attempt(old(server.cluster), first, old(server.script))
                    == Attempted(server.cluster, server.script, true)
                    && server.log == old(server.log) + Reports(first, old(server.script))
    {
      var f :| f in rest;
      rest := rest - {f};
      if f.key == Key(cfg, owner) && o.fields[f] == OWNED {
        ok := server.Apply(UnannotateCall(cfg, owner, old_.nn));
        OneReport(UnannotateCall(cfg, owner, old_.nn), old(server.script));
        if !ok {
          AttemptConcat(old(server.cluster), first, second, old(server.script));
          ReportsConcat(old(server.cluster), first, second, old(server.script));
          return;
        }
        continue;
      }
      if cfg.prefix <= f.key {
        hasOtherOwner := true;
      }
    }
    AttemptConcat(old(server.cluster), first, second, old(server.script));
    ReportsConcat(old(server.cluster), first, second, old(server.script));
    OneReport(UnlabelCall(cfg, old_.nn), server.script);
    ok := true;
    if !hasOtherOwner {
      ok := server.Apply(UnlabelCall(cfg, old_.nn));
    }
  }

  /** Split the index result into the adoptee and the objects the owner no longer references. */
  method Partition(adoptee: NamespacedName, objects: seq<Entry>) returns (found: bool, extras: seq<Entry>)
    ensures found == Found(adoptee, objects)
    ensures extras == Extras(adoptee, objects)
  {
    found, extras := false, [];
    var i := 0;
    while i < |objects|
      invariant 0 <= i <= |objects|
      invariant found == Found(adoptee, objects[..i])
      invariant Extras(adoptee, objects) == extras + Extras(adoptee, objects[i..])
    {
      if objects[i].nn == adoptee {
        found := true;
      } else {
        extras := extras + [objects[i]];
      }
      assert objects[..i + 1] == objects[..i] + [objects[i]];
      assert objects[i..][1..] == objects[i + 1..];
      i := i + 1;
    }
    assert objects[..i] == objects;
  }

  /** Release every object the owner no longer references, stopping at the first failing call. */
  method Cleanup(cfg: Config, server: ApiServer, owner: NamespacedName, extras: seq<Entry>) returns (ok: bool)
    modifies server
    ensures Attempt(old(server.cluster), CleanupPlan(cfg, owner, extras), old(server.script))
            == Attempted(server.cluster, server.script, ok)
    ensures server.log == old(server.log) + Reports(CleanupPlan(cfg, owner, extras), old(server.script))
  {
    hide Attempt, Reports, ReleasePlan;
    NoReports();
    var i := 0;
    while i < |extras|
      invariant 0 <= i <= |extras|
      invariant Attempt(server.cluster, CleanupPlan(cfg, owner, extras[i..]), server.script)
             == Attempt(old(server.cluster), CleanupPlan(cfg, owner, extras), old(server.script))
      invariant server.log + Reports(CleanupPlan(cfg, owner, extras[i..]), server.script)
             == old(server.log) + Reports(CleanupPlan(cfg, owner, extras), old(server.script))
    {
      assert extras[i..][1..] == extras[i + 1..];
      AttemptConcat(server.cluster, ReleasePlan(cfg, owner, extras[i]),
                    CleanupPlan(cfg, owner, extras[i + 1..]), server.script);
      ReportsConcat(server.cluster, ReleasePlan(cfg, owner, extras[i]),
                    CleanupPlan(cfg, owner, extras[i + 1..]), server.script);
      Regroup(server.log, Reports(ReleasePlan(cfg, owner, extras[i]), server.script),
              Reports(CleanupPlan(cfg, owner, extras[i + 1..]),
                      Attempt(server.cluster, ReleasePlan(cfg, owner, extras[i]), server.script).script));
      ok := Release(cfg, server, owner, extras[i]);
      if !ok {
        return;
      }
      i := i + 1;
    }
    ok := true;
  }

  /** A Handle that gets past its reads runs its three phases until one fails. */
  lemma PlanPhases(cfg: Config, owner: NamespacedName, adoptee: NamespacedName, view: View,
                   c: Cluster, script: seq<Outcome>)
    requires !view.cached.CacheError? && (NeedsLabel(adoptee, view) ==> view.exists_) && view.index.Some?
    ensures var entries := view.index.value;
            var labelling := Attempt(c, LabelPlan(cfg, adoptee, view), script);
            var annotate := Attempt(labelling.cluster, AnnotatePlan(cfg, owner, adoptee, entries), labelling.script);
            Attempt(c, Plan(cfg, owner, adoptee, view), script)
            == if !labelling.ok then labelling
               else if !annotate.ok then annotate
               else Attempt(annotate.cluster, CleanupPlan(cfg, owner, Extras(adoptee, entries)), annotate.script)
  {
    var entries := view.index.value;
    var p := LabelPlan(cfg, adoptee, view);
    var q := AnnotatePlan(cfg, owner, adoptee, entries);
    var r := CleanupPlan(cfg, owner, Extras(adoptee, entries));
    AttemptConcat(c, p + q, r, script);
    AttemptConcat(c, p, q, script);
  }

  /** The calls the three phases make, in order. */
  lemma PlanReports(cfg: Config, owner: NamespacedName, adoptee: NamespacedName, view: View,
                    c: Cluster, script: seq<Outcome>)
    requires !view.cached.CacheError? && (NeedsLabel(adoptee, view) ==> view.exists_) && view.index.Some?
    ensures var entries := view.index.value;
            var l, a := LabelPlan(cfg, adoptee, view), AnnotatePlan(cfg, owner, adoptee, entries);
            var k := CleanupPlan(cfg, owner, Extras(adoptee, entries));
            var labelling := Attempt(c, l, script);
            var annotate := Attempt(labelling.cluster, a, labelling.script);
            var reports := Reports(Plan(cfg, owner, adoptee, view), script);
            && (!labelling.ok ==> reports == Reports(l, script))
            && (labelling.ok && !annotate.ok ==> reports == Reports(l, script) + Reports(a, labelling.script))
            && (labelling.ok && annotate.ok ==>
                  reports == Reports(l, script) + Reports(a, labelling.script) + Reports(k, annotate.script))
  {
    hide Reports, Attempt, LabelPlan, AnnotatePlan, CleanupPlan, Extras;
    var entries := view.index.value;
    var l, a := LabelPlan(cfg, adoptee, view), AnnotatePlan(cfg, owner, adoptee, entries);
    var k := CleanupPlan(cfg, owner, Extras(adoptee, entries));
    AttemptConcat(c, l, a, script);
    ReportsConcat(c, l + a, k, script);
    ReportsConcat(c, l, a, script);
  }

  /** AdoptionHandler.Handle: the calls made are the plan, cut off at the first failing call. */
  method Handle(cfg: Config, server: ApiServer, owner: NamespacedName, adoptee: NamespacedName, view: View)
    returns (events: seq<Event>)
    modifies server
    ensures server.cluster == Attempt(old(server.cluster), Plan(cfg, owner, adoptee, view), old(server.script)).cluster
    ensures server.log == old(server.log) + Reports(Plan(cfg, owner, adoptee, view), old(server.script))
    ensures events == Events(cfg, owner, adoptee, view, old(server.cluster), old(server.script))
  {
    hide Attempt, Reports, CleanupPlan, Extras, LabelCall, AnnotateCall;
    NoReports();
    if view.cached.CacheError? {
      return [RequeueErr];
    }
    if view.index.Some? && (NeedsLabel(adoptee, view) ==> view.exists_) {
      PlanPhases(cfg, owner, adoptee, view, server.cluster, server.script);
      PlanReports(cfg, owner, adoptee, view, server.cluster, server.script);
    }
    ghost var before := server.log;
    if adoptee.name != "" && view.cached.Miss? {
      if !view.exists_ {
        return [ObjectMissing];
      }
      OneReport(LabelCall(cfg, adoptee), server.script);
      var ok := server.Apply(LabelCall(cfg, adoptee));
      if !ok {
        return [RequeueAPIErr];
      }
    }
    if view.index.None? {
      return [RequeueErr];
    }
    var foundMatchingObject, extraObjects := Partition(adoptee, view.index.value);
    events := [];
    ghost var l, labelled := Reports(LabelPlan(cfg, adoptee, view), old(server.script)), server.script;
    if !foundMatchingObject && adoptee.name != "" {
      OneReport(AnnotateCall(cfg, owner, adoptee), server.script);
      var ok := server.Apply(AnnotateCall(cfg, owner, adoptee));
      Regroup(before, l, Reports(AnnotatePlan(cfg, owner, adoptee, view.index.value), labelled));
      if !ok {
        return [RequeueAPIErr];
      }
      events := [ObjectAdopted];
    }
    ghost var a := Reports(AnnotatePlan(cfg, owner, adoptee, view.index.value), labelled);
    Regroup(before, l, a);
    assert server.log == before + (l + a);
    Regroup(before, l + a, Reports(CleanupPlan(cfg, owner, extraObjects), server.script));
    var ok := Cleanup(cfg, server, owner, extraObjects);
    if !ok {
      return events + [RequeueAPIErr];
    }
    events := events + [Next(if adoptee.name == "" && !foundMatchingObject then None else Some(adoptee))];
  }
}
