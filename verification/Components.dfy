/** EnsureComponentByHash: create the component object if no listed object carries the computed hash,
    and delete the other listed objects once exactly one does.
 */
module Components {
  import opened Options
  import opened ServerSideApply

  /** A listed object. Absent label or annotation maps differ from empty ones. */
  datatype Object = Object(
    owners: set<string>,
    labels: Option<map<string, string>>,
    annotations: Option<map<string, string>>)
  datatype Entry = Entry(nn: NamespacedName, o: Object)
  type Cluster = map<NamespacedName, Object>

  /** Which objects belong together: an index value and a label selector. */
  datatype Component = Component(indexValue: string, selector: map<string, string> -> bool)

  predicate Selected(comp: Component, o: Object) {
    o.labels.Some? && comp.selector(o.labels.value)
  }

  predicate Belongs(comp: Component, o: Object) {
    comp.indexValue in o.owners && Selected(comp, o)
  }

  function Keep(comp: Component, entries: seq<Entry>): seq<Entry> {
    if entries == [] then []
    else (if Selected(comp, entries[0].o) then [entries[0]] else []) + Keep(comp, entries[1..])
  }

  /** What List returns for an index result, or for a failed index lookup. */
  function Listing(comp: Component, byIndex: Option<seq<Entry>>): seq<Entry> {
    if byIndex.None? then [] else Keep(comp, byIndex.value)
  }

  /** Listed are exactly the objects of the index result that have labels the selector accepts. */
  lemma {:induction false} ListingExactly(comp: Component, entries: seq<Entry>, e: Entry)
    ensures e in Listing(comp, Some(entries)) <==>
            e in entries && e.o.labels.Some? && comp.selector(e.o.labels.value)
  {
    if entries != [] {
      ListingExactly(comp, entries[1..], e);
      assert e in entries <==> e == entries[0] || e in entries[1..];
    }
  }

  /** Component.List: the objects of the index that the selector accepts; nothing if the index fails. */
  method List(comp: Component, byIndex: Option<seq<Entry>>) returns (out: seq<Entry>)
    ensures out == Listing(comp, byIndex)
  {
    out := [];
    if byIndex.None? {
      return;
    }
    var owned := byIndex.value;
    for i := 0 to |owned|
      invariant Keep(comp, owned) == out + Keep(comp, owned[i..])
    {
      ghost var rest := Keep(comp, owned[i + 1..]);
      assert owned[i..][1..] == owned[i + 1..];
      var ls := owned[i].o.labels;
      if ls.None? {
        assert Keep(comp, owned[i..]) == rest;
        continue;
      }
      if comp.selector(ls.value) {
        assert Keep(comp, owned[i..]) == [owned[i]] + rest;
        assert out + ([owned[i]] + rest) == (out + [owned[i]]) + rest;
        out := out + [owned[i]];
      }
    }
  }

  // ----- Coherent reads -----

  function Names(comp: Component, c: Cluster): set<NamespacedName> {
    set nn | nn in c && Belongs(comp, c[nn])
  }

  ghost predicate Distinct(entries: seq<Entry>) {
    forall i, j :: 0 <= i < j < |entries| ==> entries[i].nn != entries[j].nn
  }

  predicate Listed(nn: NamespacedName, entries: seq<Entry>) {
    exists i :: 0 <= i < |entries| && entries[i].nn == nn
  }

  /** The index returns, once each and in any order, exactly the live objects with its value. */
  ghost predicate ListsIndex(comp: Component, c: Cluster, byIndex: seq<Entry>) {
    && Distinct(byIndex)
    && (forall i :: 0 <= i < |byIndex| ==>
          byIndex[i].nn in c && c[byIndex[i].nn] == byIndex[i].o && comp.indexValue in byIndex[i].o.owners)
    && (forall nn :: nn in c && comp.indexValue in c[nn].owners ==> Listed(nn, byIndex))
  }

  /** The listing is the component, once each. */
  ghost predicate Lists(comp: Component, c: Cluster, entries: seq<Entry>) {
    && Distinct(entries)
    && (forall i :: 0 <= i < |entries| ==>
          entries[i].nn in c && c[entries[i].nn] == entries[i].o && Belongs(comp, entries[i].o))
    && (forall nn :: nn in Names(comp, c) ==> Listed(nn, entries))
  }

  lemma ListedTail(entries: seq<Entry>)
    requires entries != []
    ensures forall nn :: Listed(nn, entries) <==> nn == entries[0].nn || Listed(nn, entries[1..])
  {
    forall nn ensures Listed(nn, entries) <==> nn == entries[0].nn || Listed(nn, entries[1..]) {
      if Listed(nn, entries) {
        var i :| 0 <= i < |entries| && entries[i].nn == nn;
        assert i > 0 ==> entries[1..][i - 1].nn == nn;
      }
      if Listed(nn, entries[1..]) {
        var i :| 0 <= i < |entries[1..]| && entries[1..][i].nn == nn;
        assert entries[i + 1].nn == nn;
      }
    }
  }

  lemma {:induction false} KeepExact(comp: Component, entries: seq<Entry>)
    requires Distinct(entries)
    ensures Distinct(Keep(comp, entries))
    ensures forall i :: 0 <= i < |Keep(comp, entries)| ==>
              Keep(comp, entries)[i] in entries && Selected(comp, Keep(comp, entries)[i].o)
    ensures forall i :: 0 <= i < |entries| && Selected(comp, entries[i].o) ==>
            Listed(entries[i].nn, Keep(comp, entries))
  {
    if entries != [] {
      var rest := Keep(comp, entries[1..]);
      KeepExact(comp, entries[1..]);
      if Selected(comp, entries[0].o) {
        var all := [entries[0]] + rest;
        assert all[1..] == rest;
        ListedTail(all);
        assert all[0].nn == entries[0].nn;
        forall i, j | 0 <= i < j < |all| ensures all[i].nn != all[j].nn {
          assert all[j] == rest[j - 1] && rest[j - 1] in entries[1..];
        }
      } else {
        assert Keep(comp, entries) == rest;
      }
      forall i | 0 <= i < |entries| && Selected(comp, entries[i].o)
        ensures Listed(entries[i].nn, Keep(comp, entries))
      {
        if i > 0 { assert entries[1..][i - 1] == entries[i]; }
      }
    }
  }

  /** Filtering a coherent index result yields a coherent listing. */
  lemma ListIsCoherent(comp: Component, c: Cluster, byIndex: seq<Entry>)
    requires ListsIndex(comp, c, byIndex)
    ensures Lists(comp, c, Keep(comp, byIndex))
  {
    KeepExact(comp, byIndex);
    forall nn | nn in Names(comp, c) ensures Listed(nn, Keep(comp, byIndex)) {
      var i :| 0 <= i < |byIndex| && byIndex[i].nn == nn;
    }
  }

  // ----- One Handle -----

  /** What the handler computes before it acts: the hash of the new object, where it is stored, and
      what applying the new object leaves in the cluster. */
  datatype Spec = Spec(key: string, hash: string, nn: NamespacedName, applied: Object)

  /** The annotation as Go reads it: "" when absent. */
  function HashOf(key: string, o: Object): string {
    if o.annotations.Some? && key in o.annotations.value then o.annotations.value[key] else ""
  }

  predicate Matches(spec: Spec, o: Object) {
    HashOf(spec.key, o) == spec.hash
  }

  /** The new object belongs to the component and carries the computed, non-empty hash. */
  ghost predicate ValidSpec(comp: Component, spec: Spec) {
    spec.hash != "" && Belongs(comp, spec.applied) && Matches(spec, spec.applied)
  }

  function MatchOf(spec: Spec, e: Entry): seq<Entry> {
    if Matches(spec, e.o) then [e] else []
  }

  function Matching(spec: Spec, entries: seq<Entry>): seq<Entry> {
    if entries == [] then [] else MatchOf(spec, entries[0]) + Matching(spec, entries[1..])
  }

  /** An object without annotations is marked once for that and once more for not matching. */
  function ExtraOf(spec: Spec, e: Entry): seq<Entry> {
    (if e.o.annotations.None? then [e] else []) + (if Matches(spec, e.o) then [] else [e])
  }

  /** The objects to delete, with repetitions. */
  function Extra(spec: Spec, entries: seq<Entry>): seq<Entry> {
    if entries == [] then [] else ExtraOf(spec, entries[0]) + Extra(spec, entries[1..])
  }

  datatype Outcome = Done | Rejected | DoneButFailed
  datatype Call = ApplyCall | DeleteCall(nn: NamespacedName)
  datatype Effect = Effect(cluster: Cluster, calls: seq<Call>, ok: bool)

  function NextOutcome(script: seq<Outcome>): Outcome {
    if script == [] then Done else script[0]
  }

  function Rest(script: seq<Outcome>): seq<Outcome> {
    if script == [] then [] else script[1..]
  }

  /** Delete objects one by one until a call fails; deleting a missing object fails. */
  function DeleteAll(c: Cluster, doomed: seq<Entry>, script: seq<Outcome>): Effect
    decreases |doomed|
  {
    if doomed == [] then Effect(c, [], true)
    else
      var call := DeleteCall(doomed[0].nn);
      if doomed[0].nn !in c || NextOutcome(script).Rejected? then Effect(c, [call], false)
      else
        var c' := c - {doomed[0].nn};
        if NextOutcome(script).DoneButFailed? then Effect(c', [call], false)
        else
          var rest := DeleteAll(c', doomed[1..], Rest(script));
          rest.(calls := [call] + rest.calls)
  }

  /** The effect of a Handle that read `entries`. */
  function Ensure(spec: Spec, c: Cluster, entries: seq<Entry>, script: seq<Outcome>): Effect {
    var n := |Matching(spec, entries)|;
    if n == 0 then
      var o := NextOutcome(script);
      Effect(if o.Rejected? then c else c[spec.nn := spec.applied], [ApplyCall], o.Done?)
    else if n == 1 then DeleteAll(c, Extra(spec, entries), script)
    else Effect(c, [], true)
  }

  // ----- What the server answers -----

  /** The state of the server after one call, and whether the call was reported done: deleting a missing object
      is not, and neither is a call that is rejected or fails after it was done. */
  datatype Answer = Answer(cluster: Cluster, script: seq<Outcome>, done: bool)

  function Serve(spec: Spec, c: Cluster, call: Call, script: seq<Outcome>): Answer {
    match call
    case ApplyCall =>
      Answer(if NextOutcome(script).Rejected? then c
          else c[spec.nn := spec.applied], Rest(script), NextOutcome(script).Done?)
    case DeleteCall(nn) =>
      if nn !in c then Answer(c, script, false)
      else Answer(if NextOutcome(script).Rejected? then c else c - {nn}, Rest(script), NextOutcome(script).Done?)
  }

  /** The answers to a sequence of calls. */
  function Answers(spec: Spec, c: Cluster, calls: seq<Call>, script: seq<Outcome>): (r: seq<bool>)
    ensures |r| == |calls|
    decreases |calls|
  {
    if calls == [] then []
    else
      var a := Serve(spec, c, calls[0], script);
      [a.done] + Answers(spec, a.cluster, calls[1..], a.script)
  }

  /** What a sequence of calls leaves. */
  function Serves(spec: Spec, c: Cluster, calls: seq<Call>, script: seq<Outcome>): Cluster
    decreases |calls|
  {
    if calls == [] then c
    else var a := Serve(spec, c, calls[0], script); Serves(spec, a.cluster, calls[1..], a.script)
  }

  /** All answers but the last are good, and the last is good exactly if `ok`. */
  ghost predicate StopsAt(answers: seq<bool>, ok: bool) {
    && (forall i :: 0 <= i < |answers| - 1 ==> answers[i])
    && (ok <==> answers == [] || answers[|answers| - 1])
  }

  lemma {:induction false} DeletesAnswered(spec: Spec, c: Cluster, doomed: seq<Entry>, script: seq<Outcome>)
    ensures var e := DeleteAll(c, doomed, script);
            StopsAt(Answers(spec, c, e.calls, script), e.ok) && Serves(spec, c, e.calls, script) == e.cluster
    ensures var e := DeleteAll(c, doomed, script);
            |e.calls| <= |doomed| && (forall i :: 0 <= i < |e.calls| ==> e.calls[i] == DeleteCall(doomed[i].nn))
            && (e.ok ==> |e.calls| == |doomed|)
    decreases |doomed|
  {
    if doomed != [] {
      var call, e := DeleteCall(doomed[0].nn), DeleteAll(c, doomed, script);
      var a := Serve(spec, c, call, script);
      if a.done {
        var rest := DeleteAll(a.cluster, doomed[1..], a.script);
        DeletesAnswered(spec, a.cluster, doomed[1..], a.script);
        assert e.calls == [call] + rest.calls && e.calls[1..] == rest.calls;
        var answers := Answers(spec, a.cluster, rest.calls, a.script);
        assert Answers(spec, c, e.calls, script) == [true] + answers;
      } else {
        assert e.calls == [call] && [call][1..] == [];
        assert Answers(spec, c, [call], script) == [false];
      }
    }
  }

  /** A Handle goes on exactly as long as its calls are reported done, and asks for a requeue exactly when its last
      call was not: an apply or a delete that was rejected or failed after it was done, or a delete of an object
      that is not there. */
  lemma RequeuesExactly(spec: Spec, c: Cluster, entries: seq<Entry>, script: seq<Outcome>)
    ensures var e := Ensure(spec, c, entries, script);
            && StopsAt(Answers(spec, c, e.calls, script), e.ok) && Serves(spec, c, e.calls, script) == e.cluster
            && (!e.ok <==> exists i :: 0 <= i < |e.calls| && !Answers(spec, c, e.calls, script)[i])
            && (|Matching(spec, entries)| == 0 ==> e.calls == [ApplyCall])
            && (|Matching(spec, entries)| >= 2 ==> e.calls == [])
  {
    hide Serve;
    DeletesAnswered(spec, c, Extra(spec, entries), script);
    ApplyAnswered(spec, c, script);
  }

  lemma ApplyAnswered(spec: Spec, c: Cluster, script: seq<Outcome>)
    ensures Answers(spec, c, [ApplyCall], script) == [NextOutcome(script).Done?]
    ensures Serves(spec, c, [ApplyCall], script) == if NextOutcome(script).Rejected? then c
            else c[spec.nn := spec.applied]
  {
    assert [ApplyCall][1..] == [];
  }

  lemma DeleteAnswered(spec: Spec, c: Cluster, nn: NamespacedName, script: seq<Outcome>)
    ensures Answers(spec, c, [DeleteCall(nn)], script) == [nn in c && NextOutcome(script).Done?]
    ensures Serves(spec, c, [DeleteCall(nn)], script) == if NextOutcome(script).Rejected? then c else c - {nn}
  {
    assert [DeleteCall(nn)][1..] == [];
    assert nn !in c ==> c - {nn} == c;
  }

  class Server {
    var cluster: Cluster
    var script: seq<Outcome>
    var calls: seq<Call>

    constructor (c: Cluster, s: seq<Outcome>)
      ensures cluster == c && script == s && calls == []
    {
      cluster, script, calls := c, s, [];
    }

    method Apply(spec: Spec) returns (ok: bool)
      modifies this
      ensures ok == NextOutcome(old(script)).Done? && script == Rest(old(script))
      ensures cluster == if NextOutcome(old(script)).Rejected? then old(cluster)
                         else old(cluster)[spec.nn := spec.applied]
      ensures calls == old(calls) + [ApplyCall]
    {
      var o := NextOutcome(script);
      script, calls := Rest(script), calls + [ApplyCall];
      if !o.Rejected? {
        cluster := cluster[spec.nn := spec.applied];
      }
      ok := o.Done?;
    }

    method Delete(nn: NamespacedName) returns (ok: bool)
      modifies this
      ensures calls == old(calls) + [DeleteCall(nn)]
      ensures ok == (nn in old(cluster) && NextOutcome(old(script)).Done?)
      ensures script == if nn in old(cluster) then Rest(old(script)) else old(script)
      ensures cluster == if nn !in old(cluster) || NextOutcome(old(script)).Rejected? then old(cluster)
                         else old(cluster) - {nn}
    {
      calls := calls + [DeleteCall(nn)];
      if nn !in cluster {
        return false;
      }
      var o := NextOutcome(script);
      script := Rest(script);
      if !o.Rejected? {
        cluster := cluster - {nn};
      }
      ok := o.Done?;
    }
  }

  /** Sort the listing into matching and extra objects. */
  method Partition(spec: Spec, owned: seq<Entry>) returns (matching: seq<Entry>, extra: seq<Entry>)
    ensures matching == Matching(spec, owned) && extra == Extra(spec, owned)
  {
    matching, extra := [], [];
    for i := 0 to |owned|
      invariant Matching(spec, owned) == matching + Matching(spec, owned[i..])
      invariant Extra(spec, owned) == extra + Extra(spec, owned[i..])
    {
      var o := owned[i];
      assert owned[i..][1..] == owned[i + 1..];
      Regroup(matching, MatchOf(spec, o), Matching(spec, owned[i + 1..]));
      Regroup(extra, ExtraOf(spec, o), Extra(spec, owned[i + 1..]));
      ghost var matching0, extra0 := matching, extra;
      if o.o.annotations.None? {
        extra := extra + [o];
      }
      if HashOf(spec.key, o.o) == spec.hash {
        matching := matching + [o];
      } else {
        extra := extra + [o];
      }
      assert matching == matching0 + MatchOf(spec, o) && extra == extra0 + ExtraOf(spec, o);
    }
  }

  lemma Regroup<T>(a: seq<T>, b: seq<T>, c: seq<T>)
    ensures a + (b + c) == (a + b) + c
  {}

  method DeleteExtras(server: Server, extra: seq<Entry>) returns (ok: bool)
    modifies server
    ensures var e := DeleteAll(old(server.cluster), extra, old(server.script));
            server.cluster == e.cluster && server.calls == old(server.calls) + e.calls && ok == e.ok
  {
    ghost var target := DeleteAll(server.cluster, extra, server.script);
    var i := 0;
    while i < |extra|
      invariant 0 <= i <= |extra|
      invariant var rest := DeleteAll(server.cluster, extra[i..], server.script);
                target.cluster == rest.cluster && target.ok == rest.ok
                && old(server.calls) + target.calls == server.calls + rest.calls
    {
      assert extra[i..][1..] == extra[i + 1..];
      ok := server.Delete(extra[i].nn);
      if !ok {
        return;
      }
      i := i + 1;
    }
    ok := true;
  }

  /** EnsureComponentByHash.Handle; `requeued` reports whether RequeueErr was called. */
  method Handle(comp: Component, spec: Spec, server: Server, byIndex: Option<seq<Entry>>) returns (requeued: bool)
    modifies server
    ensures var e := Ensure(spec, old(server.cluster), Listing(comp, byIndex), old(server.script));
            server.cluster == e.cluster && server.calls == old(server.calls) + e.calls && requeued == !e.ok
    ensures var made := server.calls[|old(server.calls)|..];
            requeued <==>
              exists i :: 0 <= i < |made| && !Answers(spec, old(server.cluster), made, old(server.script))[i]
  {
    RequeuesExactly(spec, server.cluster, Listing(comp, byIndex), server.script);
    ghost var e := Ensure(spec, server.cluster, Listing(comp, byIndex), server.script);
    assert (server.calls + e.calls)[|server.calls|..] == e.calls;
    var ownedObjs := List(comp, byIndex);
    var matchingObjs, extraObjs := Partition(spec, ownedObjs);
    if |matchingObjs| == 0 {
      var ok := server.Apply(spec);
      if !ok {
        return true;
      }
    }
    if |matchingObjs| == 1 {
      var ok := DeleteExtras(server, extraObjs);
      if !ok {
        return true;
      }
    }
    requeued := false;
  }

  // ----- What a coherent listing says about matches and extras -----

  ghost function MatchNames(comp: Component, spec: Spec, c: Cluster): set<NamespacedName> {
    set nn | nn in c && Belongs(comp, c[nn]) && Matches(spec, c[nn])
  }

  ghost function ExtraNames(comp: Component, spec: Spec, c: Cluster): set<NamespacedName> {
    Names(comp, c) - MatchNames(comp, spec, c)
  }

  /** The extras that the handler lists twice. */
  ghost function BareNames(comp: Component, spec: Spec, c: Cluster): set<NamespacedName> {
    set nn | nn in c && nn in ExtraNames(comp, spec, c) && c[nn].annotations.None?
  }

  lemma {:induction false} MatchingExact(spec: Spec, entries: seq<Entry>)
    requires Distinct(entries)
    ensures forall nn :: Listed(nn, Matching(spec, entries)) <==>
              exists i :: 0 <= i < |entries| && entries[i].nn == nn && Matches(spec, entries[i].o)
    ensures Distinct(Matching(spec, entries))
  {
    hide Matches;
    if entries != [] {
      var rest := Matching(spec, entries[1..]);
      MatchingExact(spec, entries[1..]);
      var all := Matching(spec, entries);
      if Matches(spec, entries[0].o) {
        assert all[1..] == rest && all[0] == entries[0];
        ListedTail(all);
        forall i, j | 0 <= i < j < |all| ensures all[i].nn != all[j].nn {
          assert all[j] == rest[j - 1] && Listed(rest[j - 1].nn, rest);
        }
      } else {
        assert all == rest;
      }
      forall nn ensures Listed(nn, all) <==>
          exists i :: 0 <= i < |entries| && entries[i].nn == nn && Matches(spec, entries[i].o) {
        if i :| 0 <= i < |entries[1..]| && entries[1..][i].nn == nn && Matches(spec, entries[1..][i].o) {
          assert entries[i + 1].nn == nn;
        }
        if i :| 0 <= i < |entries| && entries[i].nn == nn && Matches(spec, entries[i].o) {
          assert i > 0 ==> entries[1..][i - 1].nn == nn;
        }
      }
    }
  }

  /** An object matches exactly if its hash annotation, or the empty string for want of one, is the hash. */
  lemma MatchesExactly(spec: Spec, o: Object)
    ensures o.annotations.Some? && spec.key in o.annotations.value ==>
              (Matches(spec, o) <==> o.annotations.value[spec.key] == spec.hash)
    ensures o.annotations.None? || spec.key !in o.annotations.value ==> (Matches(spec, o) <==> spec.hash == "")
  {}

  /** An object is put up for deletion once for having no annotations and once for not matching. */
  lemma {:induction false} ExtraCount(spec: Spec, entries: seq<Entry>, e: Entry)
    ensures multiset(Extra(spec, entries))[e]
         == (if e.o.annotations.None? then multiset(entries)[e] else 0)
            + (if Matches(spec, e.o) then 0 else multiset(entries)[e])
  {
    hide Matches;
    if entries != [] {
      ExtraCount(spec, entries[1..], e);
      assert entries == [entries[0]] + entries[1..];
      assert multiset(Extra(spec, entries))
             == multiset(ExtraOf(spec, entries[0])) + multiset(Extra(spec, entries[1..]));
    }
  }

  /** With a coherent listing, the number of matches found is the number of live matches. */
  lemma MatchCount(comp: Component, spec: Spec, c: Cluster, entries: seq<Entry>)
    requires Lists(comp, c, entries)
    ensures |Matching(spec, entries)| == |MatchNames(comp, spec, c)|
  {
    MatchingExact(spec, entries);
    var m := Matching(spec, entries);
    var names := set i | 0 <= i < |m| :: m[i].nn;
    forall nn ensures nn in names <==> nn in MatchNames(comp, spec, c) {
      if nn in names {
        assert Listed(nn, m);
      }
      if nn in MatchNames(comp, spec, c) {
        assert nn in Names(comp, c);
        var i :| 0 <= i < |entries| && entries[i].nn == nn;
        assert Listed(nn, m);
      }
    }
    assert names == MatchNames(comp, spec, c);
    DistinctSize(m);
  }

  lemma {:induction false} DistinctSize(m: seq<Entry>)
    requires Distinct(m)
    ensures |set i | 0 <= i < |m| :: m[i].nn| == |m|
  {
    var names := set i | 0 <= i < |m| :: m[i].nn;
    if m == [] {
      assert names == {};
    } else {
      var k := |m| - 1;
      var init := set i | 0 <= i < k :: m[..k][i].nn;
      DistinctSize(m[..k]);
      assert init == set i | 0 <= i < |m[..k]| :: m[..k][i].nn;
      assert names == init + {m[k].nn};
      assert m[k].nn !in init;
    }
  }

  /** Which objects the handler is going to delete: every one that does not match, and also a match
      that has no annotations at all, which only an empty hash allows. */
  lemma {:induction false} ExtraExact(spec: Spec, entries: seq<Entry>)
    ensures forall e :: e in Extra(spec, entries) <==> e in entries && (!Matches(spec, e.o) || e.o.annotations.None?)
    ensures forall e: Entry :: Matches(spec, e.o) && e.o.annotations.None? ==> spec.hash == ""
  {
    if entries != [] {
      ExtraExact(spec, entries[1..]);
      assert forall e :: e in entries <==> e == entries[0] || e in entries[1..];
    }
  }

  lemma {:induction false} DeleteAllEffect(c: Cluster, doomed: seq<Entry>, script: seq<Outcome>)
    ensures var e := DeleteAll(c, doomed, script);
            && (forall nn :: nn in e.cluster ==> nn in c && e.cluster[nn] == c[nn])
            && (forall nn :: nn in c && !Listed(nn, doomed) ==> nn in e.cluster)
            && (forall i :: 0 <= i < |e.calls| ==> e.calls[i].DeleteCall? && Listed(e.calls[i].nn, doomed))
    decreases |doomed|
  {
    if doomed != [] {
      ListedTail(doomed);
      DeleteAllEffect(c - {doomed[0].nn}, doomed[1..], Rest(script));
    }
  }

  /** Safety of one Handle on a coherent listing, whatever fails: a delete is issued only while exactly
      one match exists, never names it, and the matches stay. */
  lemma HandleIsSafe(comp: Component, spec: Spec, c: Cluster, entries: seq<Entry>, script: seq<Outcome>)
    requires Lists(comp, c, entries) && ValidSpec(comp, spec)
    ensures var e := Ensure(spec, c, entries, script);
            && (forall i :: 0 <= i < |e.calls| && e.calls[i].DeleteCall? ==>
                  |MatchNames(comp, spec, c)| == 1 && e.calls[i].nn in ExtraNames(comp, spec, c))
            && MatchNames(comp, spec, c) <= MatchNames(comp, spec, e.cluster)
            && (forall nn :: nn in c && nn !in Names(comp, c) && nn != spec.nn ==>
                  nn in e.cluster && e.cluster[nn] == c[nn])
            && (Names(comp, c) != {} ==> Names(comp, e.cluster) != {})
  {
    MatchCount(comp, spec, c, entries);
    var e := Ensure(spec, c, entries, script);
    var n := |Matching(spec, entries)|;
    if n == 1 {
      var doomed := Extra(spec, entries);
      ExtraExact(spec, entries);
      forall nn | Listed(nn, doomed) ensures nn in ExtraNames(comp, spec, c) {
        var i :| 0 <= i < |doomed| && doomed[i].nn == nn;
        assert doomed[i] in entries;
      }
      DeleteAllEffect(c, doomed, script);
      var m :| m in MatchNames(comp, spec, c);
      assert m in MatchNames(comp, spec, e.cluster);
      assert m in Names(comp, e.cluster);
    } else if n == 0 {
      assert MatchNames(comp, spec, c) == {};
      if Names(comp, c) != {} {
        var m :| m in Names(comp, c);
        assert m in Names(comp, e.cluster);
      }
    }
  }

  /** The index lookup fails, or returns what is there. */
  ghost predicate Reads(comp: Component, c: Cluster, byIndex: Option<seq<Entry>>) {
    byIndex.Some? ==> ListsIndex(comp, c, byIndex.value)
  }

  /** Safety of one Handle from its index lookup on, which may fail too. */
  lemma IndexedHandleIsSafe(comp: Component, spec: Spec, c: Cluster, byIndex: Option<seq<Entry>>, script: seq<Outcome>)
    requires Reads(comp, c, byIndex) && ValidSpec(comp, spec)
    ensures var e := Ensure(spec, c, Listing(comp, byIndex), script);
            && (forall i :: 0 <= i < |e.calls| && e.calls[i].DeleteCall? ==>
                  |MatchNames(comp, spec, c)| == 1 && e.calls[i].nn in ExtraNames(comp, spec, c))
            && MatchNames(comp, spec, c) <= MatchNames(comp, spec, e.cluster)
            && (forall nn :: nn in c && nn !in Names(comp, c) && nn != spec.nn ==>
                  nn in e.cluster && e.cluster[nn] == c[nn])
            && (Names(comp, c) != {} ==> Names(comp, e.cluster) != {})
  {
    if byIndex.Some? {
      hide Ensure, Names, MatchNames, ListsIndex, Lists, ValidSpec;
      ListIsCoherent(comp, c, byIndex.value);
      HandleIsSafe(comp, spec, c, Keep(comp, byIndex.value), script);
    } else if Names(comp, c) != {} {
      var m :| m in Names(comp, c);
      assert m in Names(comp, Ensure(spec, c, [], script).cluster);
    }
  }

  /** A Handle never turns at most one match into more, unless its index lookup fails: then it applies blindly,
      and a second match appears if and only if there is one under another name and the apply is not rejected. */
  lemma AtMostOneMatchKept(comp: Component, spec: Spec, c: Cluster, byIndex: Option<seq<Entry>>, script: seq<Outcome>)
    requires Reads(comp, c, byIndex) && ValidSpec(comp, spec) && |MatchNames(comp, spec, c)| <= 1
    ensures |MatchNames(comp, spec, Ensure(spec, c, Listing(comp, byIndex), script).cluster)| <= 1
       <==> byIndex.Some? || MatchNames(comp, spec, c) <= {spec.nn} || NextOutcome(script).Rejected?
  {
    hide Ensure, MatchNames, ListsIndex, ValidSpec;
    if byIndex.None? {
      BlindApply(comp, spec, c, script);
    } else {
      ListedHandleKeepsOne(comp, spec, c, byIndex.value, script);
    }
  }

  lemma BlindApply(comp: Component, spec: Spec, c: Cluster, script: seq<Outcome>)
    requires ValidSpec(comp, spec) && |MatchNames(comp, spec, c)| <= 1
    ensures |MatchNames(comp, spec, Ensure(spec, c, [], script).cluster)| <= 1
       <==> MatchNames(comp, spec, c) <= {spec.nn} || NextOutcome(script).Rejected?
  {
    var e := Ensure(spec, c, [], script);
    if !NextOutcome(script).Rejected? {
      assert MatchNames(comp, spec, e.cluster) == MatchNames(comp, spec, c) + {spec.nn};
      OneOrTwo(MatchNames(comp, spec, c), spec.nn);
    }
  }

  lemma ListedHandleKeepsOne(comp: Component, spec: Spec, c: Cluster, byIndex: seq<Entry>, script: seq<Outcome>)
    requires ListsIndex(comp, c, byIndex) && |MatchNames(comp, spec, c)| <= 1
    ensures |MatchNames(comp, spec, Ensure(spec, c, Keep(comp, byIndex), script).cluster)| <= 1
  {
    hide Extra, ListsIndex, Lists, Matching, Keep;
    var entries := Keep(comp, byIndex);
    var e := Ensure(spec, c, entries, script);
    ListIsCoherent(comp, c, byIndex);
    MatchCount(comp, spec, c, entries);
    if |MatchNames(comp, spec, c)| == 0 {
      assert MatchNames(comp, spec, e.cluster) <= {spec.nn};
      SmallerSet(MatchNames(comp, spec, e.cluster), {spec.nn});
    } else {
      DeleteAllEffect(c, Extra(spec, entries), script);
      assert MatchNames(comp, spec, e.cluster) <= MatchNames(comp, spec, c);
      SmallerSet(MatchNames(comp, spec, e.cluster), MatchNames(comp, spec, c));
    }
  }

  lemma OneOrTwo<T>(s: set<T>, x: T)
    requires |s| <= 1
    ensures |s + {x}| <= 1 <==> s <= {x}
  {
    if s <= {x} {
      assert s + {x} == {x};
    } else {
      var y :| y in s && y != x;
      assert {x, y} <= s + {x};
      assert |s + {x}| >= |{x, y}| by { SmallerSet({x, y}, s + {x}); }
    }
  }

  // ----- Safety over whole runs with changing specs -----

  datatype Step = HandleStep(spec: Spec, byIndex: Option<seq<Entry>>, script: seq<Outcome>) | External(next: Cluster)

  function After(comp: Component, c: Cluster, step: Step): Cluster {
    match step
    case HandleStep(spec, byIndex, script) => Ensure(spec, c, Listing(comp, byIndex), script).cluster
    case External(next) => next
  }

  function Final(comp: Component, c: Cluster, steps: seq<Step>): Cluster
    decreases |steps|
  {
    if steps == [] then c else Final(comp, After(comp, c, steps[0]), steps[1..])
  }

  /** Index lookups fail or are coherent; anyone else may do anything short of emptying the component. */
  ghost predicate ValidRun(comp: Component, c: Cluster, steps: seq<Step>)
    decreases |steps|
  {
    steps == [] ||
    (&& (match steps[0]
         case HandleStep(spec, byIndex, _) => ValidSpec(comp, spec) && Reads(comp, c, byIndex)
         case External(next) => Names(comp, next) != {})
     && ValidRun(comp, After(comp, c, steps[0]), steps[1..]))
  }

  /** A non-empty component never becomes empty through the handler. */
  lemma {:induction false} NeverEmptied(comp: Component, c: Cluster, steps: seq<Step>)
    requires Names(comp, c) != {} && ValidRun(comp, c, steps)
    ensures Names(comp, Final(comp, c, steps)) != {}
    decreases |steps|
  {
    hide Names, Reads, ValidSpec, Ensure;
    if steps != [] {
      if steps[0].HandleStep? {
        IndexedHandleIsSafe(comp, steps[0].spec, c, steps[0].byIndex, steps[0].script);
      }
      NeverEmptied(comp, After(comp, c, steps[0]), steps[1..]);
    }
  }

  // ----- Convergence -----

  /** Deleting the extras fault-free either clears them all or, stopped by a repeated delete, has
      removed at least one of the objects that are listed twice. */
  lemma {:induction false} DeleteProgress(spec: Spec, c: Cluster, entries: seq<Entry>)
    requires Distinct(entries) && spec.hash != ""
    requires forall i :: 0 <= i < |entries| ==> entries[i].nn in c
    ensures var e := DeleteAll(c, Extra(spec, entries), []);
            && (e.ok ==> forall i :: 0 <= i < |entries| && !Matches(spec, entries[i].o) ==> entries[i].nn !in e.cluster)
            && (!e.ok ==> exists i :: 0 <= i < |entries| && !Matches(spec, entries[i].o)
                                      && entries[i].o.annotations.None? && entries[i].nn !in e.cluster)
    decreases |entries|
  {
    if entries != [] {
      var doomed := Extra(spec, entries);
      var rest := Extra(spec, entries[1..]);
      var c' := c - {entries[0].nn};
      if Matches(spec, entries[0].o) {
        assert doomed == rest;
        DeleteProgress(spec, c, entries[1..]);
        Shift(spec, entries, DeleteAll(c, rest, []).cluster);
      } else if entries[0].o.annotations.Some? {
        assert doomed[1..] == rest;
        DeleteProgress(spec, c', entries[1..]);
        DeleteAllEffect(c', rest, []);
        Shift(spec, entries, DeleteAll(c', rest, []).cluster);
      } else {
        assert doomed[0] == entries[0] && doomed[1] == entries[0] && doomed[1..][0] == entries[0];
        assert DeleteAll(c', doomed[1..], []).cluster == c';
      }
    }
  }

  lemma Shift(spec: Spec, entries: seq<Entry>, d: Cluster)
    requires entries != []
    ensures (exists i :: 0 <= i < |entries[1..]| && !Matches(spec, entries[1..][i].o)
                         && entries[1..][i].o.annotations.None? && entries[1..][i].nn !in d)
            ==> exists i :: 0 <= i < |entries| && !Matches(spec, entries[i].o)
                            && entries[i].o.annotations.None? && entries[i].nn !in d
  {
    if i :| 0 <= i < |entries[1..]| && !Matches(spec, entries[1..][i].o)
            && entries[1..][i].o.annotations.None? && entries[1..][i].nn !in d {
      assert entries[i + 1] == entries[1..][i];
    }
  }

  ghost predicate Converged(comp: Component, spec: Spec, c: Cluster) {
    |MatchNames(comp, spec, c)| == 1 && ExtraNames(comp, spec, c) == {}
  }

  /** How many fault-free Handles are enough: one to create, one to delete, and one more for every
      object that is listed twice. */
  ghost function Rounds(comp: Component, spec: Spec, c: Cluster): nat {
    (if MatchNames(comp, spec, c) == {} then 1 else 0)
    + (if ExtraNames(comp, spec, c) == {} then 0 else 1 + |BareNames(comp, spec, c)|)
  }

  /** A Handle that finds no match creates one and adds no extras. */
  lemma CreateProgress(comp: Component, spec: Spec, c: Cluster)
    requires ValidSpec(comp, spec) && MatchNames(comp, spec, c) == {}
    ensures var d := c[spec.nn := spec.applied];
            && MatchNames(comp, spec, d) == {spec.nn}
            && ExtraNames(comp, spec, d) <= ExtraNames(comp, spec, c)
            && BareNames(comp, spec, d) <= BareNames(comp, spec, c)
  {
    var d := c[spec.nn := spec.applied];
    forall nn | nn in MatchNames(comp, spec, d) ensures nn == spec.nn {
      assert nn != spec.nn ==> nn in MatchNames(comp, spec, c);
    }
  }

  /** A Handle that finds one match deletes only extras, and at least one of them: all of them, or
      one that is listed twice. */
  lemma PruneProgress(comp: Component, spec: Spec, c: Cluster, entries: seq<Entry>)
    requires Lists(comp, c, entries) && ValidSpec(comp, spec) && |MatchNames(comp, spec, c)| == 1
    requires ExtraNames(comp, spec, c) != {}
    ensures var d := Ensure(spec, c, entries, []).cluster;
            && MatchNames(comp, spec, d) == MatchNames(comp, spec, c)
            && ExtraNames(comp, spec, d) < ExtraNames(comp, spec, c)
            && BareNames(comp, spec, d) <= BareNames(comp, spec, c)
            && (ExtraNames(comp, spec, d) == {} || BareNames(comp, spec, d) < BareNames(comp, spec, c))
  {
    MatchCount(comp, spec, c, entries);
    HandleIsSafe(comp, spec, c, entries, []);
    var doomed := Extra(spec, entries);
    var e := DeleteAll(c, doomed, []);
    DeleteAllEffect(c, doomed, []);
    DeleteProgress(spec, c, entries);
    var d := e.cluster;
    assert MatchNames(comp, spec, d) == MatchNames(comp, spec, c);
    if e.ok {
      forall nn | nn in c && Belongs(comp, c[nn]) && !Matches(spec, c[nn]) ensures nn !in d {
        assert nn in Names(comp, c);
        var i :| 0 <= i < |entries| && entries[i].nn == nn;
      }
      assert ExtraNames(comp, spec, d) == {};
    } else {
      var i :| 0 <= i < |entries| && !Matches(spec, entries[i].o) && entries[i].o.annotations.None?
          && entries[i].nn !in d;
      assert entries[i].nn in BareNames(comp, spec, c);
      assert entries[i].nn !in BareNames(comp, spec, d);
      assert entries[i].nn in ExtraNames(comp, spec, c) && entries[i].nn !in ExtraNames(comp, spec, d);
    }
  }

  lemma SmallerSet<T>(a: set<T>, b: set<T>)
    requires a <= b
    ensures |a| <= |b| && (a != b ==> |a| < |b|)
  {
    assert b == a + (b - a);
    if a != b {
      assert b - a != {};
    }
  }

  lemma NothingExtra(comp: Component, spec: Spec, c: Cluster, entries: seq<Entry>)
    requires Lists(comp, c, entries) && spec.hash != ""
    ensures Extra(spec, entries) != [] ==> ExtraNames(comp, spec, c) != {}
  {
    ExtraExact(spec, entries);
    if Extra(spec, entries) != [] {
      var e := Extra(spec, entries)[0];
      assert e in Extra(spec, entries);
      assert e.nn in ExtraNames(comp, spec, c);
    }
  }

  /** Every fault-free Handle from a coherent listing with at most one match gets closer to exactly
      one object with the computed hash, and at that point stops making calls. */
  lemma HandleProgress(comp: Component, spec: Spec, c: Cluster, entries: seq<Entry>)
    requires Lists(comp, c, entries) && ValidSpec(comp, spec) && |MatchNames(comp, spec, c)| <= 1
    ensures var e := Ensure(spec, c, entries, []);
            && |MatchNames(comp, spec, e.cluster)| == 1
            && (Converged(comp, spec, c) ==> e == Effect(c, [], true))
            && (!Converged(comp, spec, c) ==> Rounds(comp, spec, e.cluster) < Rounds(comp, spec, c))
  {
    MatchCount(comp, spec, c, entries);
    var e := Ensure(spec, c, entries, []);
    if MatchNames(comp, spec, c) == {} {
      CreateProgress(comp, spec, c);
      SmallerSet(BareNames(comp, spec, e.cluster), BareNames(comp, spec, c));
    } else if ExtraNames(comp, spec, c) != {} {
      PruneProgress(comp, spec, c, entries);
      SmallerSet(BareNames(comp, spec, e.cluster), BareNames(comp, spec, c));
    } else {
      NothingExtra(comp, spec, c, entries);
    }
  }

  lemma RoundsShrink(comp: Component, spec: Spec, c: Cluster, d: Cluster)
    requires MatchNames(comp, spec, c) != {} ==> MatchNames(comp, spec, d) != {}
    requires ExtraNames(comp, spec, d) <= ExtraNames(comp, spec, c)
             && BareNames(comp, spec, d) <= BareNames(comp, spec, c)
    ensures Rounds(comp, spec, d) <= Rounds(comp, spec, c)
  {
    SmallerSet(BareNames(comp, spec, d), BareNames(comp, spec, c));
  }

  /** Whatever fails, a Handle with a coherent listing and at most one match does not set the component back. */
  lemma FaultyHandle(comp: Component, spec: Spec, c: Cluster, byIndex: seq<Entry>, script: seq<Outcome>)
    requires ListsIndex(comp, c, byIndex) && ValidSpec(comp, spec) && |MatchNames(comp, spec, c)| <= 1
    ensures var d := Ensure(spec, c, Keep(comp, byIndex), script).cluster;
            |MatchNames(comp, spec, d)| <= 1 && Rounds(comp, spec, d) <= Rounds(comp, spec, c)
  {
    hide ListsIndex, Lists, ValidSpec, Keep, Matching, Extra, Rounds;
    var entries := Keep(comp, byIndex);
    var d := Ensure(spec, c, entries, script).cluster;
    ListedHandleKeepsOne(comp, spec, c, byIndex, script);
    ListIsCoherent(comp, c, byIndex);
    MatchCount(comp, spec, c, entries);
    if MatchNames(comp, spec, c) == {} {
      CreateProgress(comp, spec, c);
    } else {
      HandleIsSafe(comp, spec, c, entries, script);
      DeleteAllEffect(c, Extra(spec, entries), script);
    }
    RoundsShrink(comp, spec, c, d);
  }

  ghost predicate FaultFree(script: seq<Outcome>) {
    forall i :: 0 <= i < |script| ==> script[i].Done?
  }

  lemma {:induction false} FaultFreeDeletes(c: Cluster, doomed: seq<Entry>, script: seq<Outcome>)
    requires FaultFree(script)
    ensures DeleteAll(c, doomed, script) == DeleteAll(c, doomed, [])
    decreases |doomed|
  {
    if doomed != [] && doomed[0].nn in c {
      FaultFreeDeletes(c - {doomed[0].nn}, doomed[1..], Rest(script));
    }
  }

  lemma FaultFreeHandle(spec: Spec, c: Cluster, entries: seq<Entry>, script: seq<Outcome>)
    requires FaultFree(script)
    ensures Ensure(spec, c, entries, script) == Ensure(spec, c, entries, [])
  {
    FaultFreeDeletes(c, Extra(spec, entries), script);
  }

  /** One Handle of a series: its index result and the fate of its calls. */
  datatype Round = Round(byIndex: seq<Entry>, script: seq<Outcome>)

  function Rerun(comp: Component, spec: Spec, c: Cluster, rounds: seq<Round>): Cluster
    decreases |rounds|
  {
    if rounds == [] then c
    else Rerun(comp, spec, Ensure(spec, c, Keep(comp, rounds[0].byIndex), rounds[0].script).cluster, rounds[1..])
  }

  ghost predicate Coherent(comp: Component, spec: Spec, c: Cluster, rounds: seq<Round>)
    decreases |rounds|
  {
    rounds == [] ||
    (&& ListsIndex(comp, c, rounds[0].byIndex)
     && Coherent(comp, spec, Ensure(spec, c, Keep(comp, rounds[0].byIndex), rounds[0].script).cluster, rounds[1..]))
  }

  ghost function FaultFreeRounds(rounds: seq<Round>): nat {
    if rounds == [] then 0 else (if FaultFree(rounds[0].script) then 1 else 0) + FaultFreeRounds(rounds[1..])
  }

  /** Convergence: from at most one match and with coherent index results, a series of Handles that contains
      `Rounds` fault-free ones, among any number in which calls fail, ends with exactly one object that has the
      computed hash, although some objects are deleted twice. */
  lemma {:induction false} Convergence(comp: Component, spec: Spec, c: Cluster, rounds: seq<Round>)
    requires ValidSpec(comp, spec) && |MatchNames(comp, spec, c)| <= 1
    requires Coherent(comp, spec, c, rounds) && FaultFreeRounds(rounds) >= Rounds(comp, spec, c)
    ensures Converged(comp, spec, Rerun(comp, spec, c, rounds))
    decreases |rounds|
  {
    if rounds == [] {
      SmallerSet(MatchNames(comp, spec, c), MatchNames(comp, spec, c));
    } else {
      hide Ensure, MatchNames, ExtraNames, ListsIndex, ValidSpec, FaultFree;
      var r := rounds[0];
      FaultyHandle(comp, spec, c, r.byIndex, r.script);
      if FaultFree(r.script) {
        FaultFreeHandle(spec, c, Keep(comp, r.byIndex), r.script);
        ListIsCoherent(comp, c, r.byIndex);
        HandleProgress(comp, spec, c, Keep(comp, r.byIndex));
      }
      Convergence(comp, spec, Ensure(spec, c, Keep(comp, r.byIndex), r.script).cluster, rounds[1..]);
    }
  }

  /** With two or more matches the handler does nothing, now or later. */
  lemma DuplicatesAreKept(comp: Component, spec: Spec, c: Cluster, byIndex: seq<Entry>, script: seq<Outcome>)
    requires ListsIndex(comp, c, byIndex) && |MatchNames(comp, spec, c)| >= 2
    ensures Ensure(spec, c, Keep(comp, byIndex), script) == Effect(c, [], true)
  {
    ListIsCoherent(comp, c, byIndex);
    MatchCount(comp, spec, c, Keep(comp, byIndex));
  }

  const EVERYTHING := Component("owner", labels => true)
  const HASHED := Object.Object({"owner"}, Some(map[]), Some(map["hash" := "1"]))
  const OLD_NAME := NamespacedName("ns", "old")
  const NEW_NAME := NamespacedName("ns", "new")

  /** A concrete second match: the index lookup fails while the only match has another name. */
  lemma BlindApplyDuplicates()
    ensures var spec, c := Spec("hash", "1", NEW_NAME, HASHED), map[OLD_NAME := HASHED];
            && ValidSpec(EVERYTHING, spec) && MatchNames(EVERYTHING, spec, c) == {OLD_NAME}
            && MatchNames(EVERYTHING, spec, Ensure(spec, c, Listing(EVERYTHING, None), []).cluster)
               == {OLD_NAME, NEW_NAME}
  {
    var spec, c := Spec("hash", "1", NEW_NAME, HASHED), map[OLD_NAME := HASHED];
    assert Matching(spec, []) == [];
    assert Ensure(spec, c, [], []).cluster == map[OLD_NAME := HASHED, NEW_NAME := HASHED];
  }
}
