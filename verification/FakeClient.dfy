/** The fake dynamic client keeps two object trackers: the upstream one that serves reads, and a
    field-managed one that performs server-side apply. Apply has to make them act as one store.
 */
module FakeClient {
  import opened ServerSideApply

  type Name = string
  datatype Result<T> = Ok(value: T) | Err

  /** An apply configuration: it names its own object, besides the name given to the call. */
  datatype Config = Config(name: Name, patch: Patch)

  datatype Trackers = Trackers(upstream: map<Name, Object>, managed: map<Name, Object>)

  // ----- The contract of the field-managed tracker -----

  /** Creating an object outside apply gives all its fields to the unnamed manager. */
  function Seed(o: Object): Object {
    Object(o.fields, set f | f in o.fields :: ("", f))
  }

  /** Another manager owns a field that the patch would change. */
  predicate Conflict(o: Object, m: Manager, patch: Patch) {
    exists p :: p in o.managed && p.0 != m && Overruled(o, patch, p.1)
  }

  function Find(store: map<Name, Object>, n: Name): Object {
    if n in store then store[n] else EMPTY
  }

  // ----- A single-store server, the reference -----

  /** Server-side apply on one store: an unforced conflict is refused and changes nothing. */
  function ServerApply(store: map<Name, Object>, n: Name, m: Manager, patch: Patch, force: bool)
    : (map<Name, Object>, Result<Object>)
  {
    if !force && Conflict(Find(store, n), m, patch) then (store, Err)
    else
      var o := ForceApply(Find(store, n), m, patch);
      (store[n := o], Ok(o))
  }

  /** The update gives `f` another value, adds it or drops it. */
  predicate Changed(old_: Object, o: Object, f: Field) {
    (f in old_.fields <==> f in o.fields) ==> f in o.fields && old_.fields[f] != o.fields[f]
  }

  /** Updating an object outside apply: what changes goes to the unnamed manager, what does not stays with
      its owners. */
  function Updated(old_: Object, o: Object): Object {
    Object(
      o.fields,
      (set p | p in old_.managed && !Changed(old_, o, p.1))
      + (set f | f in o.fields && Changed(old_, o, f) :: ("", f)))
  }

  // ----- The client -----

  class Client {
    var upstream: map<Name, Object>
    var managed: map<Name, Object>

    constructor (objects: map<Name, Object>)
      ensures upstream == objects && managed == map[]
    {
      upstream, managed := objects, map[];
    }

    method UpstreamUpdate(n: Name, o: Object) returns (ok: bool)
      modifies this`upstream
      ensures ok == (n in old(upstream))
      ensures upstream == if ok then old(upstream)[n := o] else old(upstream)
    {
      ok := n in upstream;
      if ok {
        upstream := upstream[n := o];
      }
    }

    method UpstreamCreate(n: Name, o: Object) returns (ok: bool)
      modifies this`upstream
      ensures ok == (n !in old(upstream))
      ensures upstream == if ok then old(upstream)[n := o] else old(upstream)
    {
      ok := n !in upstream;
      if ok {
        upstream := upstream[n := o];
      }
    }

    method ManagedCreate(n: Name, o: Object) returns (ok: bool)
      modifies this`managed
      ensures ok == (n !in old(managed))
      ensures managed == if ok then old(managed)[n := Seed(o)] else old(managed)
    {
      ok := n !in managed;
      if ok {
        managed := managed[n := Seed(o)];
      }
    }

    method ManagedApply(cfg: Config, m: Manager, force: bool) returns (ok: bool)
      modifies this`managed
      ensures var (store, r) := ServerApply(old(managed), cfg.name, m, cfg.patch, force);
              managed == store && ok == r.Ok?
    {
      var (store, r) := ServerApply(managed, cfg.name, m, cfg.patch, force);
      managed := store;
      ok := r.Ok?;
    }

    /** Apply through the resource client. */
    method Apply(name: Name, cfg: Config, m: Manager, force: bool) returns (r: Result<Object>)
      modifies this
      ensures (Trackers(upstream, managed), r)
              == TwoStoreApply(Trackers(old(upstream), old(managed)), name, cfg, m, force)
    {
      if name in upstream {
        if name !in managed {
          var created := ManagedCreate(name, upstream[name]);
          if !created {
            return Err;
          }
        }
      }
      var applied := ManagedApply(cfg, m, force);
      if !applied {
        return Err;
      }
      if name !in managed {
        return Err;
      }
      var result := managed[name];
      var updated := UpstreamUpdate(name, result);
      if !updated {
        var created := UpstreamCreate(name, result);
        if !created {
          return Err;
        }
      }
      r := Ok(result);
    }

    /** A raw apply patch through the resource client; undecodable data is refused. */
    method PatchApply(name: Name, data: Result<Config>, m: Manager, force: Result<bool>) returns (r: Result<Object>)
      modifies this
      ensures (Trackers(upstream, managed), r) == RawPatch(Trackers(old(upstream), old(managed)), name, data, m, force)
      ensures data.Err? ==> r.Err? && upstream == old(upstream)
      ensures data.Ok? && data.value.name == name ==>
                var o, patch := Met(Trackers(old(upstream), old(managed)), name), data.value.patch;
                && (r.Err? <==> force != Ok(true) && exists p: (Manager, Field) ::
                      p in o.managed && p.0 != m && p.1 in patch && (p.1 !in o.fields || o.fields[p.1] != patch[p.1]))
                && (r.Err? ==> upstream == old(upstream))
    {
      hide ForceApply, Conflict;
      if data.Err? {
        return Err;
      }
      ghost var before := Trackers(upstream, managed);
      PatchExactly(before, data.value.name, data.value.patch, m, force);
      var applyForce := false;
      if force.Ok? {
        applyForce := force.value;
      }
      r := Apply(name, data.value, m, applyForce);
    }

    /** The reactor that serves apply patches which bypass the resource client. */
    method React(name: Name, data: Result<Config>, m: Manager, force: Result<bool>) returns (r: Result<Object>)
      modifies this
      ensures (Trackers(upstream, managed), r) == RawPatch(Trackers(old(upstream), old(managed)), name, data, m, force)
      ensures data.Err? ==> r.Err? && upstream == old(upstream)
      ensures data.Ok? && data.value.name == name ==>
                var o, patch := Met(Trackers(old(upstream), old(managed)), name), data.value.patch;
                && (r.Err? <==> force != Ok(true) && exists p: (Manager, Field) ::
                      p in o.managed && p.0 != m && p.1 in patch && (p.1 !in o.fields || o.fields[p.1] != patch[p.1]))
                && (r.Err? ==> upstream == old(upstream))
    {
      hide ForceApply, Conflict;
      if data.Err? {
        return Err;
      }
      ghost var before := Trackers(upstream, managed);
      PatchExactly(before, data.value.name, data.value.patch, m, force);
      if name in upstream && name !in managed {
        var created := ManagedCreate(name, upstream[name]);
        if !created {
          return Err;
        }
      }
      var applied := ManagedApply(data.value, m, force.Ok? && force.value);
      if !applied || name !in managed {
        return Err;
      }
      var result := managed[name];
      var updated := UpstreamUpdate(name, result);
      if !updated {
        var created := UpstreamCreate(name, result);
        if !created {
          return Err;
        }
      }
      r := Ok(result);
    }
  }

  /** What Apply does to the two trackers. */
  function TwoStoreApply(s: Trackers, name: Name, cfg: Config, m: Manager, force: bool): (Trackers, Result<Object>) {
    var seeded :=
      if name in s.upstream && name !in s.managed then s.managed[name := Seed(s.upstream[name])] else s.managed;
    var (store, r) := ServerApply(seeded, cfg.name, m, cfg.patch, force);
    if r.Err? || name !in store then (Trackers(s.upstream, store), Err)
    else (Trackers(s.upstream[name := store[name]], store), Ok(store[name]))
  }

  /** A raw apply patch: an absent force option means no force. */
  function RawPatch(s: Trackers, name: Name, data: Result<Config>, m: Manager, force: Result<bool>)
    : (Trackers, Result<Object>)
  {
    if data.Err? then (s, Err) else TwoStoreApply(s, name, data.value, m, force.Ok? && force.value)
  }

  /** The object an apply meets: the managed one, or else the upstream one with all its fields owned by the
      unnamed manager, or else an empty one. */
  function Met(s: Trackers, n: Name): Object {
    if n in s.managed then s.managed[n]
    else if n in s.upstream then Object(s.upstream[n].fields, set f | f in s.upstream[n].fields :: ("", f))
    else EMPTY
  }

  /** What an apply patch does, from fields and owners. Without the force option set to true, it is refused, and no
      read sees a difference, exactly if another manager owns a field that the patch gives another value. In every
      other case it succeeds: what is read back has the patch's fields, owned by `m`, who owns nothing else, and
      keeps all fields that `m` did not own alone. */
  lemma PatchExactly(s: Trackers, n: Name, patch: Patch, m: Manager, force: Result<bool>)
    ensures var (s', r) := RawPatch(s, n, Ok(Config(n, patch)), m, force);
            var o := Met(s, n);
            var conflict := exists p: (Manager, Field) ::
              p in o.managed && p.0 != m && p.1 in patch && (p.1 !in o.fields || o.fields[p.1] != patch[p.1]);
            && (r.Err? <==> force != Ok(true) && conflict)
            && (r.Err? ==> s'.upstream == s.upstream)
            && (r.Ok? ==>
                  && n in s'.upstream && s'.upstream[n] == r.value
                  && (forall f :: f in patch ==> f in r.value.fields && r.value.fields[f] == patch[f])
                  && (forall f :: (m, f) in r.value.managed <==> f in patch)
                  && (forall f :: f in o.fields && f !in patch
                                  && ((m, f) !in o.managed || exists p :: p in o.managed && p.0 != m && p.1 == f) ==>
                        f in r.value.fields && r.value.fields[f] == o.fields[f]))
    ensures RawPatch(s, n, Err, m, force) == (s, Err)
  {
    var (s', r) := RawPatch(s, n, Ok(Config(n, patch)), m, force);
    var o := Met(s, n);
    assert Conflict(o, m, patch) <==> exists p: (Manager, Field) ::
        p in o.managed && p.0 != m && p.1 in patch && (p.1 !in o.fields || o.fields[p.1] != patch[p.1]);
  }

  // ----- Refinement -----

  /** The single store the two trackers stand for. */
  function Abs(s: Trackers): map<Name, Object> {
    map n | n in s.upstream.Keys + s.managed.Keys :: if n in s.managed then s.managed[n] else Seed(s.upstream[n])
  }

  /** An object in the field-managed tracker is in the other one too, with the same fields. */
  predicate Coherent(s: Trackers) {
    forall n :: n in s.managed ==> n in s.upstream && s.upstream[n].fields == s.managed[n].fields
  }

  /** Operations: applies, and the operations that reach the upstream tracker only. */
  datatype Op =
    | ApplyOp(name: Name, m: Manager, patch: Patch, force: bool)
    | CreateOp(name: Name, o: Object)
    | UpdateOp(name: Name, o: Object)
    | DeleteOp(name: Name)

  function Run1(s: Trackers, op: Op): (Trackers, Result<Object>) {
    match op
    case ApplyOp(n, m, patch, force) => TwoStoreApply(s, n, Config(n, patch), m, force)
    case CreateOp(n, o) => if n in s.upstream then (s, Err) else (s.(upstream := s.upstream[n := o]), Ok(o))
    case UpdateOp(n, o) => if n !in s.upstream then (s, Err) else (s.(upstream := s.upstream[n := o]), Ok(o))
    case DeleteOp(n) => if n !in s.upstream then (s, Err) else (s.(upstream := s.upstream - {n}), Ok(EMPTY))
  }

  /** The same operations on one store; what is written outside apply goes to the unnamed manager. */
  function Server1(store: map<Name, Object>, op: Op): (map<Name, Object>, Result<Object>) {
    match op
    case ApplyOp(n, m, patch, force) => ServerApply(store, n, m, patch, force)
    case CreateOp(n, o) => if n in store then (store, Err) else (store[n := Seed(o)], Ok(o))
    case UpdateOp(n, o) => if n !in store then (store, Err) else (store[n := Updated(store[n], o)], Ok(o))
    case DeleteOp(n) => if n !in store then (store, Err) else (store - {n}, Ok(EMPTY))
  }

  /** An apply acts on the two trackers as on one store, success or conflict, and a success leaves
      both trackers holding the object it returns. */
  lemma ApplyRefines(s: Trackers, n: Name, m: Manager, patch: Patch, force: bool)
    requires Coherent(s)
    ensures var (s', r) := TwoStoreApply(s, n, Config(n, patch), m, force);
            && (Abs(s'), r) == ServerApply(Abs(s), n, m, patch, force)
            && Coherent(s')
            && (r.Ok? ==> n in s'.upstream && n in s'.managed && s'.upstream[n] == s'.managed[n] == r.value)
            && s'.managed.Keys <= s.managed.Keys + {n}
  {
    hide ForceApply, Conflict, Seed, Abs, Coherent;
    SeedingIsInvisible(s, n);
    var (s', r) := TwoStoreApply(s, n, Config(n, patch), m, force);
    if r.Ok? {
      SettingBoth(s, n, r.value);
      assert s' == Trackers(s.upstream[n := r.value], s.managed[n := r.value]);
    }
  }

  lemma SeedingIsInvisible(s: Trackers, n: Name)
    requires Coherent(s)
    ensures var seeded := if n in s.upstream && n !in s.managed then s.managed[n := Seed(s.upstream[n])] else s.managed;
            && Abs(Trackers(s.upstream, seeded)) == Abs(s) && Coherent(Trackers(s.upstream, seeded))
            && Find(seeded, n) == Find(Abs(s), n)
  {
    var seeded := if n in s.upstream && n !in s.managed then s.managed[n := Seed(s.upstream[n])] else s.managed;
    assert Abs(Trackers(s.upstream, seeded)) == Abs(s);
  }

  lemma SettingBoth(s: Trackers, n: Name, o: Object)
    requires Coherent(s)
    ensures var d := Trackers(s.upstream[n := o], s.managed[n := o]);
            Abs(d) == Abs(s)[n := o] && Coherent(d)
  {
    hide Seed;
    var d := Trackers(s.upstream[n := o], s.managed[n := o]);
    assert Abs(d) == Abs(s)[n := o];
  }

  /** The operations the two trackers take as one store does: applies, whatever else concerns an object that was
      never applied, creating what exists, and writing back the fields a read returns. */
  predicate Agrees(s: Trackers, op: Op) {
    op.ApplyOp? || op.CreateOp? || op.name !in s.managed
        || (op.UpdateOp? && op.o.fields == Find(s.upstream, op.name).fields)
  }

  lemma UpdatedSeed(x: Object, o: Object)
    ensures Updated(Seed(x), o) == Seed(o)
  {
    assert Updated(Seed(x), o).managed == Seed(o).managed;
  }

  lemma UpdatedSame(x: Object, o: Object)
    requires x.fields == o.fields
    ensures Updated(x, o) == x
  {
    assert Updated(x, o).managed == x.managed;
  }

  /** The upstream-only operations agree with one store if and only if they are of that kind: after an apply an
      update has to leave all fields as they are, and a delete never agrees. */
  lemma UpstreamRefines(s: Trackers, op: Op)
    requires Coherent(s) && !op.ApplyOp?
    ensures var (s', r) := Run1(s, op);
            && ((Abs(s'), r) == Server1(Abs(s), op) <==> Agrees(s, op))
            && (Agrees(s, op) ==> Coherent(s') && s'.managed == s.managed)
  {
    hide Seed, Updated;
    var s' := Run1(s, op).0;
    match op
    case CreateOp(n, o) => assert n !in s.upstream ==> Abs(s') == Abs(s)[n := Seed(o)];
    case UpdateOp(n, o) => UpdateRefines(s, n, o);
    case DeleteOp(n) =>
      assert n in Abs(s') <==> n in s.managed;
      assert n in s.upstream && n !in s.managed ==> Abs(s') == Abs(s) - {n};
  }

  lemma UpdateRefines(s: Trackers, n: Name, o: Object)
    requires Coherent(s)
    ensures Abs(Run1(s, UpdateOp(n, o)).0) == Server1(Abs(s), UpdateOp(n, o)).0 <==> Agrees(s, UpdateOp(n, o))
  {
    hide Seed, Updated;
    if n in s.upstream {
      var s' := Run1(s, UpdateOp(n, o)).0;
      UpdatedSeed(s.upstream[n], o);
      UpdatedFields(Abs(s)[n], o);
      assert Abs(s')[n] == if n in s.managed then s.managed[n] else Seed(o);
      if n in s.managed && o.fields == s.managed[n].fields { UpdatedSame(s.managed[n], o); }
      if Agrees(s, UpdateOp(n, o)) {
        assert Abs(s') == Abs(s)[n := Updated(Abs(s)[n], o)];
      }
    }
  }

  lemma UpdatedFields(x: Object, o: Object)
    ensures Updated(x, o).fields == o.fields
  {}

  /** Each object sees only applies after its first attempted apply. */
  ghost predicate AppliesLast(ops: seq<Op>, attempted: set<Name>)
    decreases |ops|
  {
    ops == [] ||
    if ops[0].ApplyOp? then AppliesLast(ops[1..], attempted + {ops[0].name})
    else ops[0].name !in attempted && AppliesLast(ops[1..], attempted)
  }

  function Run(s: Trackers, ops: seq<Op>): (Trackers, seq<Result<Object>>)
    decreases |ops|
  {
    if ops == [] then (s, [])
    else
      var (s', r) := Run1(s, ops[0]);
      var (e, rs) := Run(s', ops[1..]);
      (e, [r] + rs)
  }

  function Server(store: map<Name, Object>, ops: seq<Op>): (map<Name, Object>, seq<Result<Object>>)
    decreases |ops|
  {
    if ops == [] then (store, [])
    else
      var (store', r) := Server1(store, ops[0]);
      var (e, rs) := Server(store', ops[1..]);
      (e, [r] + rs)
  }

  /** Every operation of the run is of the kind that agrees, in the state it meets. */
  predicate AllAgree(s: Trackers, ops: seq<Op>)
    decreases |ops|
  {
    ops == [] || (Agrees(s, ops[0]) && AllAgree(Run1(s, ops[0]).0, ops[1..]))
  }

  /** After each operation the trackers stand for what one store holds, and the result is the same. */
  ghost predicate Refines(s: Trackers, ops: seq<Op>)
    decreases |ops|
  {
    ops == [] ||
    var (s', r) := Run1(s, ops[0]);
    (Abs(s'), r) == Server1(Abs(s), ops[0]) && Refines(s', ops[1..])
  }

  lemma OpRefines(s: Trackers, op: Op)
    requires Coherent(s)
    ensures var (s', r) := Run1(s, op);
            && ((Abs(s'), r) == Server1(Abs(s), op) <==> Agrees(s, op))
            && (Agrees(s, op) ==> Coherent(s'))
  {
    hide TwoStoreApply, ServerApply, Abs, Coherent;
    if op.ApplyOp? {
      ApplyRefines(s, op.name, op.m, op.patch, op.force);
    } else {
      UpstreamRefines(s, op);
    }
  }

  /** Refinement over whole runs: the two trackers act as one store at every operation if and only if each
      operation is of the kind that agrees; and then all results and the final store are those of one store. */
  lemma {:induction false} RunRefines(s: Trackers, ops: seq<Op>)
    requires Coherent(s)
    ensures Refines(s, ops) <==> AllAgree(s, ops)
    ensures AllAgree(s, ops) ==>
              var (e, rs) := Run(s, ops);
              (Abs(e), rs) == Server(Abs(s), ops) && Coherent(e)
    decreases |ops|
  {
    hide Run1, Server1, Abs, Coherent, Agrees;
    if ops != [] {
      OpRefines(s, ops[0]);
      if Agrees(s, ops[0]) {
        RunRefines(Run1(s, ops[0]).0, ops[1..]);
      }
    }
  }

  /** In particular runs in which each object sees only applies after its first attempted apply. */
  lemma {:induction false} AppliesLastAgree(s: Trackers, ops: seq<Op>, attempted: set<Name>)
    requires s.managed.Keys <= attempted && AppliesLast(ops, attempted)
    ensures AllAgree(s, ops)
    decreases |ops|
  {
    if ops != [] {
      var s' := Run1(s, ops[0]).0;
      assert s'.managed.Keys <= s.managed.Keys + {ops[0].name};
      AppliesLastAgree(s', ops[1..], if ops[0].ApplyOp? then attempted + {ops[0].name} else attempted);
    }
  }

  /** What a read returns always has the live fields of the single store. */
  lemma ReadsAgree(s: Trackers, n: Name)
    requires Coherent(s)
    ensures n in s.upstream <==> n in Abs(s)
    ensures n in s.upstream ==> s.upstream[n].fields == Abs(s)[n].fields
  {}

  // ----- Where the two trackers come apart -----

  /** After an apply, an update agrees with one store exactly if it writes the fields a read returns, and a delete
      never agrees. */
  lemma UpdateAfterApply(s: Trackers, n: Name, o: Object)
    requires Coherent(s) && n in s.upstream
    ensures Abs(Run1(s, UpdateOp(n, o)).0) == Server1(Abs(s), UpdateOp(n, o)).0 <==>
            n !in s.managed || o.fields == s.upstream[n].fields
    ensures Abs(Run1(s, DeleteOp(n)).0) == Server1(Abs(s), DeleteOp(n)).0 <==> n !in s.managed
  {
    hide Abs, Updated;
    UpdateRefines(s, n, o);
    UpstreamRefines(s, DeleteOp(n));
    ReadsAgree(s, n);
  }

  const ONE: Patch := map[Payload("a") := "1"]
  const TWO: Patch := map[Payload("b") := "2"]
  const NINE := Object(map[Payload("a") := "9"], {})
  const LOSING := [ApplyOp("x", "m", ONE, true), UpdateOp("x", NINE), ApplyOp("x", "n", TWO, true)]

  /** A concrete lost update: apply, update, apply. The second apply restores the first one's value
      of a field that the update changed; one store keeps the update. */
  lemma LostUpdate()
    ensures var e := Run(Trackers(map[], map[]), LOSING).0;
            "x" in e.upstream && Payload("a") in e.upstream["x"].fields && e.upstream["x"].fields[Payload("a")] == "1"
    ensures var f := Server(map[], LOSING).0;
            "x" in f && Payload("a") in f["x"].fields && f["x"].fields[Payload("a")] == "9"
  {
    hide Run1, Server1;
    LosingRun();
    LosingServer();
    var s0, f0 := Trackers(map[], map[]), map[];
    var s1, f1 := Run1(s0, LOSING[0]).0, Server1(f0, LOSING[0]).0;
    var s2, f2 := Run1(s1, LOSING[1]).0, Server1(f1, LOSING[1]).0;
    assert LOSING[1..] == [LOSING[1], LOSING[2]] && LOSING[1..][1..] == [LOSING[2]] && [LOSING[2]][1..] == [];
    assert Run(s2, [LOSING[2]]).0 == Run1(s2, LOSING[2]).0 && Server(f2, [LOSING[2]]).0 == Server1(f2, LOSING[2]).0;
    assert Run(s1, LOSING[1..]).0 == Run1(s2, LOSING[2]).0 && Server(f1, LOSING[1..]).0 == Server1(f2, LOSING[2]).0;
  }

  lemma LosingRun()
    ensures var e := Run1(Run1(Run1(Trackers(map[], map[]), LOSING[0]).0, LOSING[1]).0, LOSING[2]).0;
            "x" in e.upstream && Payload("a") in e.upstream["x"].fields && e.upstream["x"].fields[Payload("a")] == "1"
  {
    var s1 := Run1(Trackers(map[], map[]), LOSING[0]).0;
    assert s1.managed["x"] == ForceApply(EMPTY, "m", ONE) && Payload("a") in s1.managed["x"].fields;
    var s2 := Run1(s1, LOSING[1]).0;
    assert s2.managed == s1.managed;
    assert Run1(s2, LOSING[2]).0.upstream["x"] == ForceApply(s1.managed["x"], "n", TWO);
  }

  lemma LosingServer()
    ensures var f := Server1(Server1(Server1(map[], LOSING[0]).0, LOSING[1]).0, LOSING[2]).0;
            "x" in f && Payload("a") in f["x"].fields && f["x"].fields[Payload("a")] == "9"
  {
    var f1 := Server1(map[], LOSING[0]).0;
    var f2 := Server1(f1, LOSING[1]).0;
    assert f2["x"] == Updated(f1["x"], NINE);
    assert Server1(f2, LOSING[2]).0["x"] == ForceApply(f2["x"], "n", TWO);
  }

  /** An apply whose configuration names another object changes that object behind the upstream
      tracker's back and reports the unchanged object that was asked for. */
  lemma MisnamedApply(s: Trackers, name: Name, cfg: Config, m: Manager, force: bool)
    requires Coherent(s) && cfg.name != name
    ensures var (s', r) := TwoStoreApply(s, name, cfg, m, force);
            && (cfg.name in s'.upstream <==> cfg.name in s.upstream)
            && (cfg.name in s.upstream ==> s'.upstream[cfg.name] == s.upstream[cfg.name])
            && (r.Ok? ==> name in Abs(s) && r.value == Abs(s)[name]
                          && s'.managed[cfg.name] == ForceApply(Find(s.managed, cfg.name), m, cfg.patch))
  {}
}
