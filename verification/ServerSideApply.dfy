/** Server-side apply as the API server performs it: every field of an object has a set of
    field managers, and an apply by one manager states the whole set of fields it wants to own.
 */
module ServerSideApply {

  datatype NamespacedName = NamespacedName(namespace: string, name: string)

  /** The fields of an object that matter here; `Payload` stands for everything else. */
  datatype Field = Label(key: string) | Annotation(key: string) | Payload(path: string)

  type Manager = string
  type Patch = map<Field, string>

  /** An object: its live fields and, in `managed`, which manager owns which field. */
  datatype Object = Object(fields: map<Field, string>, managed: set<(Manager, Field)>)

  const EMPTY: Object := Object(map[], {})

  type Cluster = map<NamespacedName, Object>

  /** A forced apply request. */
  datatype Call = Call(target: NamespacedName, manager: Manager, patch: Patch)

  predicate OwnedByOther(o: Object, m: Manager, f: Field) {
    exists p :: p in o.managed && p.0 != m && p.1 == f
  }

  /** `m` owned `f` alone, and its new patch no longer mentions it: the field is deleted. */
  predicate Relinquished(o: Object, m: Manager, patch: Patch, f: Field) {
    f !in patch && (m, f) in o.managed && !OwnedByOther(o, m, f)
  }

  /** The patch sets `f` to something other than the live value: previous owners lose it. */
  predicate Overruled(o: Object, patch: Patch, f: Field) {
    f in patch && (f !in o.fields || o.fields[f] != patch[f])
  }

  function ForceApply(o: Object, m: Manager, patch: Patch): Object {
    Object(
      map f | f in o.fields.Keys + patch.Keys && !Relinquished(o, m, patch, f)
        :: if f in patch then patch[f] else o.fields[f],
      (set p | p in o.managed && p.0 != m && !Overruled(o, patch, p.1))
      + (set f | f in patch :: (m, f)))
  }

  /** Field management, spelled out. The patch's fields are live and owned by the manager, who owns nothing else. A
      field it no longer mentions goes if nobody else owns it; every other field stays. Another manager keeps what it
      owns unless the patch gives it another value. */
  lemma ForceApplyExactly(o: Object, m: Manager, patch: Patch, f: Field, n: Manager)
    ensures var r := ForceApply(o, m, patch);
            var shared := exists p :: p in o.managed && p.0 != m && p.1 == f;
            && (f in patch ==> f in r.fields && r.fields[f] == patch[f])
            && (f !in patch ==> (f in r.fields <==> f in o.fields && ((m, f) in o.managed ==> shared)))
            && (f !in patch && f in r.fields ==> r.fields[f] == o.fields[f])
            && ((m, f) in r.managed <==> f in patch)
            && (n != m ==> ((n, f) in r.managed <==>
                  (n, f) in o.managed && (f in patch ==> f in o.fields && o.fields[f] == patch[f])))
  {}

  function Lookup(c: Cluster, nn: NamespacedName): Object {
    if nn in c then c[nn] else EMPTY
  }

  /** Apply is an upsert: a missing target is created. */
  function Apply(c: Cluster, call: Call): Cluster {
    c[call.target := ForceApply(Lookup(c, call.target), call.manager, call.patch)]
  }

  function ApplyAll(c: Cluster, calls: seq<Call>): Cluster
    decreases |calls|
  {
    if calls == [] then c else ApplyAll(Apply(c, calls[0]), calls[1..])
  }

  /** Everything a call can touch on its target: what it sets and what its manager gives up. */
  function Footprint(c: Cluster, call: Call): set<Field> {
    call.patch.Keys + set p | p in Lookup(c, call.target).managed && p.0 == call.manager :: p.1
  }

  /** Applies by different managers whose footprints are disjoint commute, including the
      ownership records and the creation of missing objects. */
  lemma ApplyCommutes(c: Cluster, a: Call, b: Call)
    requires a.target == b.target ==> a.manager != b.manager && Footprint(c, a) !! Footprint(c, b)
    ensures Apply(Apply(c, a), b) == Apply(Apply(c, b), a)
  {
    if a.target == b.target {
      FootprintsApart(c, a, b);
      ForceApplyCommutes(Lookup(c, a.target), a.manager, a.patch, b.manager, b.patch);
      ApplyTwice(c, a, b);
      ApplyTwice(c, b, a);
    }
  }

  lemma ApplyTwice(c: Cluster, a: Call, b: Call)
    requires a.target == b.target
    ensures Apply(Apply(c, a), b)
         == c[a.target := ForceApply(ForceApply(Lookup(c, a.target), a.manager, a.patch), b.manager, b.patch)]
  {}

  lemma FootprintsApart(c: Cluster, a: Call, b: Call)
    requires a.target == b.target && Footprint(c, a) !! Footprint(c, b)
    ensures a.patch.Keys !! b.patch.Keys
    ensures forall x :: x in Lookup(c, a.target).managed && x.0 == a.manager ==> x.1 !in b.patch
    ensures forall x :: x in Lookup(c, a.target).managed && x.0 == b.manager ==> x.1 !in a.patch
    ensures forall f :: (a.manager, f) in Lookup(c, a.target).managed ==> (b.manager, f) !in Lookup(c, a.target).managed
  {
    var o := Lookup(c, a.target);
    forall x | x in o.managed && x.0 == a.manager ensures x.1 in Footprint(c, a) {}
    forall x | x in o.managed && x.0 == b.manager ensures x.1 in Footprint(c, b) {}
    forall f | (a.manager, f) in o.managed ensures (b.manager, f) !in o.managed {
      assert f in Footprint(c, a);
      assert (b.manager, f) in o.managed ==> f in Footprint(c, b);
    }
  }

  lemma ForceApplyCommutes(o: Object, m: Manager, p: Patch, n: Manager, q: Patch)
    requires m != n && p.Keys !! q.Keys
    requires forall x :: x in o.managed && x.0 == m ==> x.1 !in q
    requires forall x :: x in o.managed && x.0 == n ==> x.1 !in p
    requires forall f :: (m, f) in o.managed ==> (n, f) !in o.managed
    ensures ForceApply(ForceApply(o, m, p), n, q) == ForceApply(ForceApply(o, n, q), m, p)
  {
    assert ForceApply(ForceApply(o, m, p), n, q).managed == ForceApply(ForceApply(o, n, q), m, p).managed by {
      ManagedAfterTwo(o, m, p, n, q);
      ManagedAfterTwo(o, n, q, m, p);
    }
    assert ForceApply(ForceApply(o, m, p), n, q).fields == ForceApply(ForceApply(o, n, q), m, p).fields by {
      FieldsAfterTwo(o, m, p, n, q);
      FieldsAfterTwo(o, n, q, m, p);
    }
  }

  /** Ownership after two disjoint applies, written symmetrically. */
  lemma ManagedAfterTwo(o: Object, m: Manager, p: Patch, n: Manager, q: Patch)
    requires m != n && p.Keys !! q.Keys
    requires forall x :: x in o.managed && x.0 == m ==> x.1 !in q
    requires forall x :: x in o.managed && x.0 == n ==> x.1 !in p
    ensures forall x :: x in ForceApply(ForceApply(o, m, p), n, q).managed <==>
                        || (x.0 == m && x.1 in p)
                        || (x.0 == n && x.1 in q)
                        || (x in o.managed && x.0 != m && x.0 != n && !Overruled(o, p, x.1) && !Overruled(o, q, x.1))
  {}

  /** Live fields after two disjoint applies, written symmetrically. */
  lemma FieldsAfterTwo(o: Object, m: Manager, p: Patch, n: Manager, q: Patch)
    requires m != n && p.Keys !! q.Keys
    requires forall x :: x in o.managed && x.0 == m ==> x.1 !in q
    requires forall x :: x in o.managed && x.0 == n ==> x.1 !in p
    requires forall f :: (m, f) in o.managed ==> (n, f) !in o.managed
    ensures var r := ForceApply(ForceApply(o, m, p), n, q).fields;
            && (forall f :: f in r <==>
                            || f in p || f in q
                            || (f in o.fields && !Relinquished(o, m, p, f) && !Relinquished(o, n, q, f)))
            && (forall f :: f in r ==>
                            r[f] == if f in p then p[f] else if f in q then q[f] else o.fields[f])
  {}
}
