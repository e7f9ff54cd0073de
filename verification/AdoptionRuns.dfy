/** What whole runs of the adoption handler guarantee: many owners, stale or fresh reads,
    interleaved or failing calls.
 */
module AdoptionRuns {
  import opened Options
  import opened ServerSideApply
  import opened Adoption

  // ----- Who may own what -----

  /** Owner annotations are written by their own owner's manager only, and the handler's managers
      own nothing else. */
  ghost predicate ObjectOk(cfg: Config, ns: string, o: Object) {
    && (forall f :: f in o.fields && IsOwnerField(cfg, f) ==>
          o.fields[f] == OWNED && (cfg.ownerManager(OwnerOf(cfg, ns, f)), f) in o.managed)
    && (forall p :: p in o.managed && IsOwnerField(cfg, p.1) ==>
          p.0 == cfg.ownerManager(OwnerOf(cfg, ns, p.1)) && p.1 in o.fields)
    && (forall owner: NamespacedName, f ::
          owner.namespace == ns && (cfg.ownerManager(owner), f) in o.managed ==> f == OwnerField(cfg, owner))
    && (forall f :: (cfg.controller, f) in o.managed ==> IsControllerLabel(cfg, f))
  }

  ghost predicate ClusterOk(cfg: Config, c: Cluster) {
    forall nn :: nn in c ==> '/' !in nn.namespace && nn.name != "" && ObjectOk(cfg, nn.namespace, c[nn])
  }

  /** Every object with an owner is visible to the controller. */
  ghost predicate OwnedIsLabelled(cfg: Config, c: Cluster) {
    forall nn :: nn in c && HasOwner(cfg, c[nn]) ==> Labelled(cfg, c[nn])
  }

  ghost predicate Inv(cfg: Config, c: Cluster) {
    ClusterOk(cfg, c) && OwnedIsLabelled(cfg, c)
  }

  /** A request that a Handle for `owner` may send. */
  predicate CallBy(cfg: Config, owner: NamespacedName, call: Call) {
    && call.target.namespace == owner.namespace && call.target.name != ""
    && (|| call == LabelCall(cfg, call.target)
        || call == UnlabelCall(cfg, call.target)
        || call == AnnotateCall(cfg, owner, call.target)
        || call == UnannotateCall(cfg, owner, call.target))
  }

  // ----- One call on one object -----

  /** A call by an owner's manager decides that owner's annotation and touches nothing else. */
  lemma OwnerApply(cfg: Config, owner: NamespacedName, o: Object, patch: Patch)
    requires ValidConfig(cfg) && ObjectOk(cfg, owner.namespace, o)
    requires patch == map[] || patch == map[OwnerField(cfg, owner) := OWNED]
    ensures var o' := ForceApply(o, cfg.ownerManager(owner), patch);
            && ObjectOk(cfg, owner.namespace, o')
            && (OwnerField(cfg, owner) in o'.fields <==> patch != map[])
            && (forall f :: f != OwnerField(cfg, owner) ==> (f in o'.fields <==> f in o.fields))
            && (forall f :: f != OwnerField(cfg, owner) && f in o.fields ==> o'.fields[f] == o.fields[f])
            && (forall f :: (cfg.controller, f) in o'.managed <==> (cfg.controller, f) in o.managed)
  {}

  /** A call by the controller's manager touches the controller's labels only. */
  lemma ControllerApply(cfg: Config, ns: string, o: Object, patch: Patch)
    requires ValidConfig(cfg) && ObjectOk(cfg, ns, o)
    requires forall f :: f in patch ==> IsControllerLabel(cfg, f) && patch[f] == cfg.labels[f.key]
    ensures var o' := ForceApply(o, cfg.controller, patch);
            && ObjectOk(cfg, ns, o')
            && (forall f :: !IsControllerLabel(cfg, f) ==> (f in o'.fields <==> f in o.fields))
            && (forall f :: !IsControllerLabel(cfg, f) && f in o'.fields ==> o'.fields[f] == o.fields[f])
            && (forall f :: (cfg.controller, f) in o'.managed <==> f in patch)
  {}

  lemma LabelApply(cfg: Config, ns: string, nn: NamespacedName, o: Object)
    requires ValidConfig(cfg) && ObjectOk(cfg, ns, o)
    ensures var o' := ForceApply(o, cfg.controller, LabelCall(cfg, nn).patch);
            Labelled(cfg, o') && ObjectOk(cfg, ns, o') && HasOwner(cfg, o') == HasOwner(cfg, o)
  {
    var patch := LabelCall(cfg, nn).patch;
    ControllerApply(cfg, ns, o, patch);
    forall l | l in cfg.labels ensures Label(l) in patch && patch[Label(l)] == cfg.labels[l] {}
  }

  lemma ControllerKeepsOwners(cfg: Config, ns: string, o: Object, patch: Patch)
    requires ValidConfig(cfg) && ObjectOk(cfg, ns, o)
    requires forall f :: f in patch ==> IsControllerLabel(cfg, f) && patch[f] == cfg.labels[f.key]
    ensures HasOwner(cfg, ForceApply(o, cfg.controller, patch)) == HasOwner(cfg, o)
    ensures forall owner :: OwnerField(cfg, owner) in ForceApply(o, cfg.controller, patch).fields <==>
                            OwnerField(cfg, owner) in o.fields
  {
    hide ForceApply;
    ControllerApply(cfg, ns, o, patch);
  }

  lemma OwnerKeepsLabels(cfg: Config, owner: NamespacedName, o: Object, patch: Patch)
    requires ValidConfig(cfg) && ObjectOk(cfg, owner.namespace, o)
    requires patch == map[] || patch == map[OwnerField(cfg, owner) := OWNED]
    ensures Labelled(cfg, ForceApply(o, cfg.ownerManager(owner), patch)) == Labelled(cfg, o)
  {
    hide ForceApply;
    OwnerApply(cfg, owner, o, patch);
  }

  // ----- Any interleaving of the calls of any Handles, stale reads included -----

  /** What one call by a Handle for `owner` does to its target, whatever state it meets. */
  lemma TargetEffect(cfg: Config, o: Object, owner: NamespacedName, call: Call)
    requires ValidConfig(cfg) && ObjectOk(cfg, owner.namespace, o) && CallBy(cfg, owner, call)
    ensures var o' := ForceApply(o, call.manager, call.patch);
            && ObjectOk(cfg, owner.namespace, o')
            && (OwnerField(cfg, owner) in o'.fields <==>
                if call.manager == cfg.controller then OwnerField(cfg, owner) in o.fields else call.patch != map[])
            && (forall f :: !IsControllerLabel(cfg, f) && f != OwnerField(cfg, owner) ==>
                  (f in o'.fields <==> f in o.fields))
            && (forall f :: !IsControllerLabel(cfg, f) && f != OwnerField(cfg, owner) && f in o.fields ==>
                  o'.fields[f] == o.fields[f])
  {
    hide ForceApply;
    if call.manager == cfg.controller {
      ControllerApply(cfg, owner.namespace, o, call.patch);
    } else {
      OwnerApply(cfg, owner, o, call.patch);
    }
  }

  lemma CallKeepsOk(cfg: Config, c: Cluster, owner: NamespacedName, call: Call)
    requires ValidConfig(cfg) && ClusterOk(cfg, c) && CallBy(cfg, owner, call) && '/' !in owner.namespace
    ensures ObjectOk(cfg, owner.namespace, Lookup(c, call.target))
    ensures ClusterOk(cfg, Apply(c, call))
  {
    hide ForceApply;
    assert ObjectOk(cfg, owner.namespace, EMPTY);
    TargetEffect(cfg, Lookup(c, call.target), owner, call);
  }

  /** Only the owner's own annotation calls decide its annotation. */
  lemma CallEffect(cfg: Config, c: Cluster, actor: NamespacedName, call: Call, owner: NamespacedName,
                   nn: NamespacedName)
    requires ValidConfig(cfg) && ClusterOk(cfg, c) && CallBy(cfg, actor, call) && '/' !in actor.namespace
    requires owner.namespace == nn.namespace
    ensures AnnotatedFor(cfg, Apply(c, call), owner, nn) ==
            if actor == owner && nn == call.target && call.manager != cfg.controller then call.patch != map[]
            else AnnotatedFor(cfg, c, owner, nn)
  {
    hide ForceApply;
    CallKeepsOk(cfg, c, actor, call);
    TargetEffect(cfg, Lookup(c, call.target), actor, call);
    if nn == call.target && actor != owner {
      assert OwnerField(cfg, owner).key[|cfg.prefix|..] == owner.name;
      assert OwnerField(cfg, actor).key[|cfg.prefix|..] == actor.name;
      assert OwnerField(cfg, owner) != OwnerField(cfg, actor);
    }
  }

  /** A Handle in progress: what it was asked to do and what its caches told it. */
  datatype Session = Session(owner: NamespacedName, adoptee: NamespacedName, view: View)

  /** The index may be stale, but what it returns once had this owner's index key. */
  ghost predicate ValidSession(cfg: Config, s: Session) {
    && s.adoptee.namespace == s.owner.namespace && '/' !in s.owner.namespace
    && (s.view.index.Some? ==> forall i :: 0 <= i < |s.view.index.value| ==>
          var e := s.view.index.value[i];
          '/' !in e.nn.namespace && e.nn.name != "" && Text(s.owner) in OwnerKeys(cfg.prefix, e.nn.namespace, e.o))
  }

  /** The calls one Handle sends if none of them fails. */
  datatype Program = Program(owner: NamespacedName, calls: seq<Call>)

  function ProgramOf(cfg: Config, s: Session): Program {
    Program(s.owner, Plan(cfg, s.owner, s.adoptee, s.view))
  }

  ghost predicate ValidProgram(cfg: Config, p: Program) {
    '/' !in p.owner.namespace && forall i :: 0 <= i < |p.calls| ==> CallBy(cfg, p.owner, p.calls[i])
  }

  /** Run the programs in the order `schedule` dictates, one call at a time; a program that is
      never scheduled again has failed or stopped. */
  function Interleave(c: Cluster, programs: seq<Program>, progress: seq<nat>, schedule: seq<nat>): Cluster
    requires |progress| == |programs|
    decreases |schedule|
  {
    if schedule == [] then c
    else
      var i := schedule[0];
      if i < |programs| && progress[i] < |programs[i].calls| then
        Interleave(Apply(c, programs[i].calls[progress[i]]), programs, progress[i := progress[i] + 1], schedule[1..])
      else Interleave(c, programs, progress, schedule[1..])
  }

  /** The part of a schedule that belongs to one owner's programs. */
  function OnlyOwner(programs: seq<Program>, schedule: seq<nat>, owner: NamespacedName): seq<nat> {
    if schedule == [] then []
    else if schedule[0] < |programs| && programs[schedule[0]].owner == owner then
      [schedule[0]] + OnlyOwner(programs, schedule[1..], owner)
    else OnlyOwner(programs, schedule[1..], owner)
  }

  lemma {:induction false} CleanupCallsBy(cfg: Config, owner: NamespacedName, extras: seq<Entry>)
    requires forall i :: 0 <= i < |extras| ==> extras[i].nn.namespace == owner.namespace && extras[i].nn.name != ""
    ensures forall i :: 0 <= i < |CleanupPlan(cfg, owner, extras)| ==>
            CallBy(cfg, owner, CleanupPlan(cfg, owner, extras)[i])
  {
    if extras != [] {
      CleanupCallsBy(cfg, owner, extras[1..]);
    }
  }

  lemma {:induction false} ExtrasAreEntries(adoptee: NamespacedName, entries: seq<Entry>)
    ensures forall i :: 0 <= i < |Extras(adoptee, entries)| ==>
              Extras(adoptee, entries)[i] in entries && Extras(adoptee, entries)[i].nn != adoptee
  {
    if entries != [] {
      ExtrasAreEntries(adoptee, entries[1..]);
    }
  }

  /** However stale the reads, a Handle only sends its own four kinds of request, in its own namespace. */
  lemma HandleIsValidProgram(cfg: Config, s: Session)
    requires ValidSession(cfg, s)
    ensures ValidProgram(cfg, ProgramOf(cfg, s))
  {
    if s.view.index.Some? {
      var entries := s.view.index.value;
      var extras := Extras(s.adoptee, entries);
      ExtrasAreEntries(s.adoptee, entries);
      forall i | 0 <= i < |extras| ensures extras[i].nn.namespace == s.owner.namespace && extras[i].nn.name != "" {
        var j :| 0 <= j < |entries| && entries[j] == extras[i];
        IndexKeyExact(cfg, s.owner, entries[j].nn.namespace, entries[j].o);
      }
      CleanupCallsBy(cfg, s.owner, extras);
    }
  }

  /** Non-interference: dropping every other owner's calls from a schedule changes nothing about
      this owner's annotations. */
  lemma NonInterference(cfg: Config, c: Cluster, sessions: seq<Session>, schedule: seq<nat>,
                        owner: NamespacedName, nn: NamespacedName)
    requires ValidConfig(cfg) && ClusterOk(cfg, c) && owner.namespace == nn.namespace
    requires forall i :: 0 <= i < |sessions| ==> ValidSession(cfg, sessions[i])
    ensures var programs := seq(|sessions|, i requires 0 <= i < |sessions| => ProgramOf(cfg, sessions[i]));
            var start := seq(|sessions|, _ => 0);
            AnnotatedFor(cfg, Interleave(c, programs, start, schedule), owner, nn)
            == AnnotatedFor(cfg, Interleave(c, programs, start, OnlyOwner(programs, schedule, owner)), owner, nn)
  {
    var programs := seq(|sessions|, i requires 0 <= i < |sessions| => ProgramOf(cfg, sessions[i]));
    var start := seq(|sessions|, _ => 0);
    forall i | 0 <= i < |programs| ensures ValidProgram(cfg, programs[i]) {
      HandleIsValidProgram(cfg, sessions[i]);
    }
    var bit := AnnotatedFor(cfg, c, owner, nn);
    AnnotationIsLedger(cfg, c, programs, start, schedule, owner, nn);
    AnnotationIsLedger(cfg, c, programs, start, OnlyOwner(programs, schedule, owner), owner, nn);
    LedgerIgnoresOthers(cfg, bit, programs, start, start, schedule, owner, nn);
  }

  /** The annotation of `owner` on `nn` as a ledger that only that owner's annotation calls write. */
  function Ledger(cfg: Config, bit: bool, programs: seq<Program>, progress: seq<nat>, schedule: seq<nat>,
                  owner: NamespacedName, nn: NamespacedName): bool
    requires |progress| == |programs|
    decreases |schedule|
  {
    if schedule == [] then bit
    else
      var i := schedule[0];
      if i < |programs| && progress[i] < |programs[i].calls| then
        var call := programs[i].calls[progress[i]];
        var bit' := if programs[i].owner == owner && nn == call.target && call.manager != cfg.controller
                    then call.patch != map[] else bit;
        Ledger(cfg, bit', programs, progress[i := progress[i] + 1], schedule[1..], owner, nn)
      else Ledger(cfg, bit, programs, progress, schedule[1..], owner, nn)
  }

  lemma {:induction false} AnnotationIsLedger(cfg: Config, c: Cluster, programs: seq<Program>, p: seq<nat>,
                                              schedule: seq<nat>, owner: NamespacedName, nn: NamespacedName)
    requires ValidConfig(cfg) && ClusterOk(cfg, c) && owner.namespace == nn.namespace
    requires forall i :: 0 <= i < |programs| ==> ValidProgram(cfg, programs[i])
    requires |p| == |programs|
    ensures AnnotatedFor(cfg, Interleave(c, programs, p, schedule), owner, nn)
         == Ledger(cfg, AnnotatedFor(cfg, c, owner, nn), programs, p, schedule, owner, nn)
    decreases |schedule|
  {
    hide ServerSideApply.Apply, ClusterOk, AnnotatedFor, ValidConfig;
    if schedule != [] {
      var i := schedule[0];
      if i < |programs| && p[i] < |programs[i].calls| {
        var call := programs[i].calls[p[i]];
        assert ValidProgram(cfg, programs[i]);
        StepEffect(cfg, c, programs[i].owner, call, owner, nn);
        AnnotationIsLedger(cfg, Apply(c, call), programs, p[i := p[i] + 1], schedule[1..], owner, nn);
      } else {
        AnnotationIsLedger(cfg, c, programs, p, schedule[1..], owner, nn);
      }
    }
  }

  lemma {:induction false} LedgerIgnoresOthers(cfg: Config, bit: bool, programs: seq<Program>,
                                               p: seq<nat>, q: seq<nat>, schedule: seq<nat>,
                                               owner: NamespacedName, nn: NamespacedName)
    requires |p| == |q| == |programs|
    requires forall i :: 0 <= i < |programs| && programs[i].owner == owner ==> p[i] == q[i]
    ensures Ledger(cfg, bit, programs, p, schedule, owner, nn)
         == Ledger(cfg, bit, programs, q, OnlyOwner(programs, schedule, owner), owner, nn)
    decreases |schedule|
  {
    if schedule != [] {
      var i := schedule[0];
      var rest := OnlyOwner(programs, schedule[1..], owner);
      assert ([i] + rest)[1..] == rest;
      var own := i < |programs| && programs[i].owner == owner;
      if i < |programs| && p[i] < |programs[i].calls| {
        var call := programs[i].calls[p[i]];
        if own {
          var bit' := if nn == call.target && call.manager != cfg.controller then call.patch != map[] else bit;
          LedgerIgnoresOthers(cfg, bit', programs, p[i := p[i] + 1], q[i := q[i] + 1], schedule[1..], owner, nn);
        } else {
          LedgerIgnoresOthers(cfg, bit, programs, p[i := p[i] + 1], q, schedule[1..], owner, nn);
        }
      } else {
        LedgerIgnoresOthers(cfg, bit, programs, p, q, schedule[1..], owner, nn);
      }
    }
  }

  lemma StepEffect(cfg: Config, c: Cluster, actor: NamespacedName, call: Call, owner: NamespacedName,
                   nn: NamespacedName)
    requires ValidConfig(cfg) && ClusterOk(cfg, c) && CallBy(cfg, actor, call) && '/' !in actor.namespace
    requires owner.namespace == nn.namespace
    ensures ClusterOk(cfg, Apply(c, call))
    ensures AnnotatedFor(cfg, Apply(c, call), owner, nn) ==
            if actor == owner && nn == call.target && call.manager != cfg.controller then call.patch != map[]
            else AnnotatedFor(cfg, c, owner, nn)
  {
    hide ForceApply;
    CallKeepsOk(cfg, c, actor, call);
    CallEffect(cfg, c, actor, call, owner, nn);
  }

  /** No interleaving alters a field outside the controller's labels and the owner annotations of
      the owners taking part, and the ownership rules survive it. */
  lemma {:induction false} InterleavingFrame(cfg: Config, c: Cluster, programs: seq<Program>, p: seq<nat>,
                                             schedule: seq<nat>, nn: NamespacedName, f: Field)
    requires ValidConfig(cfg) && ClusterOk(cfg, c) && |p| == |programs|
    requires forall i :: 0 <= i < |programs| ==> ValidProgram(cfg, programs[i])
    requires !IsControllerLabel(cfg, f)
    requires forall i :: 0 <= i < |programs| ==> f != OwnerField(cfg, programs[i].owner)
    ensures var d := Interleave(c, programs, p, schedule);
            ClusterOk(cfg, d) && SameField(c, d, nn, f)
    decreases |schedule|
  {
    if schedule != [] {
      var i := schedule[0];
      if i < |programs| && p[i] < |programs[i].calls| {
        var call := programs[i].calls[p[i]];
        assert ValidProgram(cfg, programs[i]);
        StepFrame(cfg, c, programs[i].owner, call, nn, f);
        InterleavingFrame(cfg, Apply(c, call), programs, p[i := p[i] + 1], schedule[1..], nn, f);
      } else {
        InterleavingFrame(cfg, c, programs, p, schedule[1..], nn, f);
      }
    }
  }

  predicate SameField(c: Cluster, d: Cluster, nn: NamespacedName, f: Field) {
    && (f in Lookup(d, nn).fields <==> f in Lookup(c, nn).fields)
    && (f in Lookup(c, nn).fields ==> Lookup(d, nn).fields[f] == Lookup(c, nn).fields[f])
  }

  lemma StepFrame(cfg: Config, c: Cluster, actor: NamespacedName, call: Call, nn: NamespacedName, f: Field)
    requires ValidConfig(cfg) && ClusterOk(cfg, c) && CallBy(cfg, actor, call) && '/' !in actor.namespace
    requires !IsControllerLabel(cfg, f) && f != OwnerField(cfg, actor)
    ensures ClusterOk(cfg, Apply(c, call)) && SameField(c, Apply(c, call), nn, f)
  {
    hide ForceApply;
    CallKeepsOk(cfg, c, actor, call);
    TargetEffect(cfg, Lookup(c, call.target), actor, call);
  }
}
