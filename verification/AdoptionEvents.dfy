/** What an adoption Handle tells its surroundings, from the calls it made and how they were reported. */
module AdoptionEvents {
  import opened Options
  import opened ServerSideApply
  import opened Adoption

  lemma {:induction false} NoSuchReport(plan: seq<Call>, script: seq<Outcome>, call: Call)
    requires forall i :: 0 <= i < |plan| ==> plan[i] != call
    ensures forall r :: r in Reports(plan, script) ==> r.call != call
    decreases |plan|
  {
    if plan != [] {
      NoSuchReport(plan[1..], Rest(script), call);
    }
  }

  /** The annotating call is made only in its own phase. */
  lemma AnnotateReports(cfg: Config, owner: NamespacedName, adoptee: NamespacedName, view: View, c: Cluster,
                        script: seq<Outcome>)
    requires !view.cached.CacheError? && (NeedsLabel(adoptee, view) ==> view.exists_) && view.index.Some?
    ensures var entries := view.index.value;
            var labelling := Attempt(c, LabelPlan(cfg, adoptee, view), script);
            var annotate := Attempt(labelling.cluster, AnnotatePlan(cfg, owner, adoptee, entries), labelling.script);
            Report(AnnotateCall(cfg, owner, adoptee), true) in Reports(Plan(cfg, owner, adoptee, view), script)
            <==> labelling.ok && annotate.ok && AnnotatePlan(cfg, owner, adoptee, entries) != []
  {
    hide Attempt, CleanupPlan, Extras, Plan, Reports, LabelCall, AnnotateCall;
    NoReports();
    var entries, call := view.index.value, AnnotateCall(cfg, owner, adoptee);
    var l, a := LabelPlan(cfg, adoptee, view), AnnotatePlan(cfg, owner, adoptee, entries);
    var k := CleanupPlan(cfg, owner, Extras(adoptee, entries));
    var labelling := Attempt(c, l, script);
    var annotate := Attempt(labelling.cluster, a, labelling.script);
    PlanReports(cfg, owner, adoptee, view, c, script);
    LabelIsNotAnnotate(cfg, owner, adoptee);
    NoSuchReport(l, script, call);
    AnnotatingSets(cfg, owner, adoptee);
    forall i | 0 <= i < |k| ensures k[i] != call {
      CleanupNeverAnnotates(cfg, owner, Extras(adoptee, entries), i);
    }
    NoSuchReport(k, annotate.script, call);
    AttemptReports(labelling.cluster, a, labelling.script);
    OneReport(call, labelling.script);
    var r := Report(call, NextOutcome(labelling.script) == Applied);
    assert [r][0] == r && (AllOk([r]) <==> r.ok);
    assert Report(call, true) in [r] <==> r.ok;
  }

  lemma LabelIsNotAnnotate(cfg: Config, owner: NamespacedName, nn: NamespacedName)
    ensures LabelCall(cfg, nn) != AnnotateCall(cfg, owner, nn)
  {
    assert OwnerField(cfg, owner) in AnnotateCall(cfg, owner, nn).patch;
    assert OwnerField(cfg, owner) !in LabelCall(cfg, nn).patch;
  }

  /** What ends a Handle: the first read that fails, the missing adoptee, a failing call, or the next handler. */
  function Ending(adoptee: NamespacedName, view: View, ok: bool): Event {
    if view.cached.CacheError? then RequeueErr
    else if adoptee.name != "" && view.cached.Miss? && !view.exists_ then ObjectMissing
    else if !ok then RequeueAPIErr
    else if view.index.None? then RequeueErr
    else Next(if adoptee.name == "" && !Found(adoptee, view.index.value) then None else Some(adoptee))
  }

  /** A Handle announces the adoption exactly when the annotating call was made and reported success, and then
      reports its ending, which depends on whether all calls it made reported success. */
  lemma HandleTells(cfg: Config, owner: NamespacedName, adoptee: NamespacedName, view: View, c: Cluster,
                    script: seq<Outcome>)
    ensures var reports := Reports(Plan(cfg, owner, adoptee, view), script);
            Events(cfg, owner, adoptee, view, c, script)
            == (if Report(AnnotateCall(cfg, owner, adoptee), true) in reports then [ObjectAdopted] else [])
               + [Ending(adoptee, view, AllOk(reports))]
  {
    hide Attempt, Reports, CleanupPlan, Extras, LabelCall, AnnotateCall;
    NoReports();
    var plan := Plan(cfg, owner, adoptee, view);
    AttemptReports(c, plan, script);
    if !view.cached.CacheError? && (NeedsLabel(adoptee, view) ==> view.exists_) {
      AttemptReports(c, LabelPlan(cfg, adoptee, view), script);
      if view.index.Some? {
        PlanPhases(cfg, owner, adoptee, view, c, script);
        AnnotateReports(cfg, owner, adoptee, view, c, script);
      } else {
        LabelIsNotAnnotate(cfg, owner, adoptee);
        NoSuchReport(plan, script, AnnotateCall(cfg, owner, adoptee));
      }
    }
  }

  /** Spelled out: which event is reported when. */
  lemma EventsExactly(cfg: Config, owner: NamespacedName, adoptee: NamespacedName, view: View, c: Cluster,
                      script: seq<Outcome>)
    ensures var reports := Reports(Plan(cfg, owner, adoptee, view), script);
            var es := Events(cfg, owner, adoptee, view, c, script);
            var missing := adoptee.name != "" && view.cached.Miss? && !view.exists_;
            && ((exists a :: Next(a) in es) <==>
                  && !view.cached.CacheError? && !missing && view.index.Some?
                  && Attempt(c, Plan(cfg, owner, adoptee, view), script).ok)
            && (RequeueAPIErr in es <==> exists r :: r in reports && !r.ok)
            && (RequeueErr in es <==>
                  view.cached.CacheError? || (!missing && view.index.None? && forall r :: r in reports ==> r.ok))
            && (ObjectMissing in es <==> !view.cached.CacheError? && missing)
            && (ObjectAdopted in es <==> Report(AnnotateCall(cfg, owner, adoptee), true) in reports)
            && (view.index.Some? ==> forall a :: Next(a) in es ==>
                  var found := exists i :: 0 <= i < |view.index.value| && view.index.value[i].nn == adoptee;
                  a == if adoptee.name == "" && !found then None else Some(adoptee))
            && 1 <= |es| <= 2 && es[|es| - 1] != ObjectAdopted && (|es| == 2 ==> es[0] == ObjectAdopted)
  {
    hide Attempt, Reports, Events, LabelCall, AnnotateCall, LabelPlan, AnnotatePlan, CleanupPlan, Extras;
    var plan := Plan(cfg, owner, adoptee, view);
    var reports := Reports(plan, script);
    NoReports();
    HandleTells(cfg, owner, adoptee, view, c, script);
    AttemptReports(c, plan, script);
    assert AllOk(reports) <==> forall r :: r in reports ==> r.ok;
    assert Ending(adoptee, view, AllOk(reports)) in Events(cfg, owner, adoptee, view, c, script);
  }
}
