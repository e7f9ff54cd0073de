/** Adding and removing finalizers by get-modify-write, under optimistic concurrency: any number of
    adders and removers of any finalizers race with users who edit, delete and re-create the object.
 */
module Finalizers {

  import opened Options

  /** One incarnation of an object: a fresh `uid` per creation, a fresh `version` per write. */
  datatype Object = Object(uid: nat, version: nat, finalizers: seq<string>, deleting: bool, payload: int)

  datatype Kind = Add | Remove
  datatype Client = Client(kind: Kind, finalizer: string)

  /** Between its Get and its Update a client holds the object it is going to write. */
  datatype Local = Idle | Ready(write: Object)

  datatype State = State(live: Option<Object>, clock: nat, locals: seq<Local>)

  datatype Action =
    | Get(client: nat)
    | Update(client: nat)
    | GiveUp(client: nat)
    | UserEdit(payload: int)
    | UserDelete
    | UserCreate(finalizers: seq<string>, payload: int)

  // ----- The two modifications -----

  function IndexOf(s: seq<string>, f: string): (i: int)
    ensures -1 <= i < |s|
    ensures i == -1 <==> f !in s
    ensures i >= 0 ==> s[i] == f && f !in s[..i]
  {
    if s == [] then -1
    else if s[0] == f then 0
    else var i := IndexOf(s[1..], f); if i == -1 then -1 else i + 1
  }

  /** The object a client writes back, or None if it returns without writing. */
  function Modify(c: Client, o: Object): Option<Object> {
    match c.kind
    case Add =>
      if c.finalizer in o.finalizers || o.deleting then None
      else Some(o.(finalizers := o.finalizers + [c.finalizer]))
    case Remove =>
      var i := IndexOf(o.finalizers, c.finalizer);
      if i == -1 || !o.deleting then None
      else Some(o.(finalizers := o.finalizers[..i] + o.finalizers[i + 1..]))
  }

  /** When a write is due and what it writes: an adder appends its finalizer to an object that is not being
      deleted and lacks it; a remover takes the first occurrence of its finalizer out of an object that is being
      deleted and has it. */
  lemma ModifyExactly(f: string, o: Object)
    ensures Modify(Client(Add, f), o)
         == if o.deleting || f in o.finalizers then None else Some(o.(finalizers := o.finalizers + [f]))
    ensures Modify(Client(Remove, f), o).Some? <==> o.deleting && f in o.finalizers
    ensures forall i :: 0 <= i < |o.finalizers| && o.deleting && o.finalizers[i] == f && f !in o.finalizers[..i] ==>
              Modify(Client(Remove, f), o) == Some(o.(finalizers := o.finalizers[..i] + o.finalizers[i + 1..]))
  {
    forall i | 0 <= i < |o.finalizers| && o.finalizers[i] == f && f !in o.finalizers[..i]
      ensures i == IndexOf(o.finalizers, f)
    {
      FirstIsUnique(o.finalizers, f, i, IndexOf(o.finalizers, f));
    }
  }

  lemma FirstIsUnique(s: seq<string>, f: string, i: nat, j: nat)
    requires i < |s| && s[i] == f && f !in s[..i] && j < |s| && s[j] == f && f !in s[..j]
    ensures i == j
  {
  }

  // ----- The API server -----

  /** Store a new version; an object that is being deleted goes when its last finalizer goes. */
  function Store(s: State, o: Object): State {
    if o.deleting && o.finalizers == [] then s.(live := None, clock := s.clock + 1)
    else s.(live := Some(o.(version := s.clock)), clock := s.clock + 1)
  }

  /** An update is refused unless it carries the live version; it cannot create. */
  function Put(s: State, w: Object): State {
    if s.live.None? || s.live.value.version != w.version then s
    else Store(s, s.live.value.(finalizers := w.finalizers, payload := w.payload))
  }

  function SetLocal(s: State, i: nat, l: Local): State
    requires i < |s.locals|
  {
    s.(locals := s.locals[i := l])
  }

  function Step(clients: seq<Client>, s: State, a: Action): (s': State)
    requires |s.locals| == |clients|
    ensures |s'.locals| == |clients|
  {
    match a
    case Get(i) =>
      if i >= |clients| then s
      else if s.live.None? then SetLocal(s, i, Idle)
      else
        var m := Modify(clients[i], s.live.value);
        SetLocal(s, i, if m.None? then Idle else Ready(m.value))
    case Update(i) =>
      if i >= |clients| || s.locals[i].Idle? then s
      else SetLocal(Put(s, s.locals[i].write), i, Idle)
    case GiveUp(i) => if i >= |clients| then s else SetLocal(s, i, Idle)
    case UserEdit(p) => if s.live.None? then s else Store(s, s.live.value.(payload := p))
    case UserDelete =>
      if s.live.None? || s.live.value.deleting then s else Store(s, s.live.value.(deleting := true))
    case UserCreate(fs, p) =>
      if s.live.Some? then s else Store(s, Object(s.clock, s.clock, fs, false, p))
  }

  function Run(clients: seq<Client>, s: State, actions: seq<Action>): (s': State)
    requires |s.locals| == |clients|
    ensures |s'.locals| == |clients|
    decreases |actions|
  {
    if actions == [] then s else Run(clients, Step(clients, s, actions[0]), actions[1..])
  }

  // ----- The invariant -----

  predicate NoDup(s: seq<string>) {
    forall i, j :: 0 <= i < j < |s| ==> s[i] != s[j]
  }

  /** Users never create an object with a repeated finalizer. */
  predicate Sane(a: Action) {
    a.UserCreate? ==> NoDup(a.finalizers)
  }

  /** A pending write whose version is live is exactly the intended change of the live object. */
  ghost predicate Inv(clients: seq<Client>, s: State) {
    && |s.locals| == |clients|
    && (s.live.Some? ==>
          && NoDup(s.live.value.finalizers) && s.live.value.version < s.clock && s.live.value.uid < s.clock
          && (s.live.value.deleting ==> s.live.value.finalizers != []))
    && (forall i :: 0 <= i < |clients| && s.locals[i].Ready? ==>
          && s.locals[i].write.version < s.clock
          && (s.live.Some? && s.live.value.version == s.locals[i].write.version ==>
                Modify(clients[i], s.live.value) == Some(s.locals[i].write)))
  }

  lemma ModifyKeepsNoDup(c: Client, o: Object)
    requires NoDup(o.finalizers) && Modify(c, o).Some?
    ensures NoDup(Modify(c, o).value.finalizers)
  {}

  lemma StepKeepsInv(clients: seq<Client>, s: State, a: Action)
    requires Inv(clients, s) && Sane(a)
    ensures Inv(clients, Step(clients, s, a))
  {
    if a.Update? && a.client < |clients| && s.locals[a.client].Ready? && s.live.Some?
       && s.live.value.version == s.locals[a.client].write.version {
      ModifyKeepsNoDup(clients[a.client], s.live.value);
    }
  }

  lemma {:induction false} RunKeepsInv(clients: seq<Client>, s: State, actions: seq<Action>)
    requires Inv(clients, s) && forall i :: 0 <= i < |actions| ==> Sane(actions[i])
    ensures Inv(clients, Run(clients, s, actions))
    decreases |actions|
  {
    if actions != [] {
      StepKeepsInv(clients, s, actions[0]);
      RunKeepsInv(clients, Step(clients, s, actions[0]), actions[1..]);
    }
  }

  // ----- What one step may change -----

  /** The finalizers other than `f`, in order. */
  function Without(s: seq<string>, f: string): seq<string> {
    if s == [] then [] else (if s[0] == f then [] else [s[0]]) + Without(s[1..], f)
  }

  lemma {:induction false} WithoutConcat(s: seq<string>, t: seq<string>, f: string)
    ensures Without(s + t, f) == Without(s, f) + Without(t, f)
  {
    if s == [] {
      assert s + t == t;
    } else {
      assert (s + t)[1..] == s[1..] + t;
      WithoutConcat(s[1..], t, f);
    }
  }

  lemma DropIsLocal(l: seq<string>, f: string, r: seq<string>)
    ensures Without(l + r, f) == Without(l + [f] + r, f)
  {
    hide Without;
    WithoutConcat(l, r, f);
    WithoutConcat(l + [f], r, f);
    AppendIsLocal(l, f);
  }

  lemma AppendIsLocal(s: seq<string>, f: string)
    ensures Without(s + [f], f) == Without(s, f)
  {
    WithoutConcat(s, [f], f);
    assert [f][1..] == [];
  }

  /** Neither modification touches any finalizer but its own, nor their order. */
  lemma ModifyIsLocal(c: Client, o: Object)
    requires Modify(c, o).Some?
    ensures Without(Modify(c, o).value.finalizers, c.finalizer) == Without(o.finalizers, c.finalizer)
    ensures Modify(c, o).value == o.(finalizers := Modify(c, o).value.finalizers)
  {
    hide Without;
    if c.kind.Add? {
      AppendIsLocal(o.finalizers, c.finalizer);
    } else {
      var i := IndexOf(o.finalizers, c.finalizer);
      DropIsLocal(o.finalizers[..i], c.finalizer, o.finalizers[i + 1..]);
      assert o.finalizers == o.finalizers[..i] + [c.finalizer] + o.finalizers[i + 1..];
    }
  }

  /** The client whose update takes effect in this step, if any. */
  predicate Writes(clients: seq<Client>, s: State, a: Action)
    requires |s.locals| == |clients|
  {
    && a.Update? && a.client < |clients| && s.locals[a.client].Ready?
    && s.live.Some? && s.live.value.version == s.locals[a.client].write.version
  }

  /** Whatever a client writes, it changes only its own finalizer: no lost update. */
  lemma ClientStepIsLocal(clients: seq<Client>, s: State, a: Action)
    requires Inv(clients, s) && Sane(a)
    requires a.Get? || a.Update? || a.GiveUp?
    ensures var s' := Step(clients, s, a);
            && (s.live.None? ==> s'.live.None?)
            && (!Writes(clients, s, a) ==> s'.live == s.live)
            && (Writes(clients, s, a) ==>
                  var (o, f) := (s.live.value, clients[a.client].finalizer);
                  && (s'.live.Some? ==>
                        && s'.live.value == o.(finalizers := s'.live.value.finalizers, version := s.clock)
                        && Without(s'.live.value.finalizers, f) == Without(o.finalizers, f)
                        && (clients[a.client].kind.Add? <==> f in s'.live.value.finalizers)
                        && (clients[a.client].kind.Add? <==> f !in o.finalizers)
                        && (clients[a.client].kind.Add? <==> !o.deleting))
                  && (s'.live.None? ==> o.deleting && o.finalizers == [f] && clients[a.client].kind.Remove?))
  {
    if Writes(clients, s, a) {
      ModifyIsLocal(clients[a.client], s.live.value);
      ModifyKeepsNoDup(clients[a.client], s.live.value);
      var o := s.live.value;
      if clients[a.client].kind.Remove? {
        var i := IndexOf(o.finalizers, clients[a.client].finalizer);
        assert o.finalizers == o.finalizers[..i] + [o.finalizers[i]] + o.finalizers[i + 1..];
      }
    }
  }

  // ----- Whole runs -----

  /** A removed object stays removed unless a user creates a new one. */
  lemma {:induction false} NeverRecreated(clients: seq<Client>, s: State, actions: seq<Action>)
    requires |s.locals| == |clients| && s.live.None?
    requires forall i :: 0 <= i < |actions| ==> !actions[i].UserCreate?
    ensures Run(clients, s, actions).live.None?
    decreases |actions|
  {
    if actions != [] {
      NeverRecreated(clients, Step(clients, s, actions[0]), actions[1..]);
    }
  }

  predicate Lives(s: State, uid: nat) {
    s.live.Some? && s.live.value.uid == uid
  }

  /** An incarnation that is gone never comes back, even when users re-create the name and
      clients still hold writes they prepared for it. */
  lemma {:induction false} GoneForGood(clients: seq<Client>, s: State, actions: seq<Action>, uid: nat)
    requires |s.locals| == |clients| && uid < s.clock && !Lives(s, uid)
    ensures !Lives(Run(clients, s, actions), uid)
    decreases |actions|
  {
    if actions != [] {
      GoneForGood(clients, Step(clients, s, actions[0]), actions[1..], uid);
    }
  }

  predicate Holds(s: State, uid: nat, f: string) {
    Lives(s, uid) && f in s.live.value.finalizers
  }

  lemma {:induction false} InWithout(s: seq<string>, f: string, g: string)
    requires f != g
    ensures g in Without(s, f) <==> g in s
  {
    if s != [] {
      InWithout(s[1..], f, g);
    }
  }

  /** A remover of `f` succeeds in this step: its update carries the live version. */
  predicate Removes(clients: seq<Client>, s: State, a: Action, f: string)
    requires |s.locals| == |clients|
  {
    Writes(clients, s, a) && clients[a.client] == Client(Remove, f)
  }

  /** No remover of `f` succeeds in the run; refused and pointless updates are allowed. */
  predicate NeverRemoves(clients: seq<Client>, s: State, actions: seq<Action>, f: string)
    requires |s.locals| == |clients|
    decreases |actions|
  {
    actions == [] ||
    (!Removes(clients, s, actions[0], f) && NeverRemoves(clients, Step(clients, s, actions[0]), actions[1..], f))
  }

  lemma StepHolds(clients: seq<Client>, s: State, a: Action, uid: nat, f: string)
    requires Inv(clients, s) && Sane(a) && Holds(s, uid, f) && !Removes(clients, s, a, f)
    ensures Holds(Step(clients, s, a), uid, f)
  {
    if a.Get? || a.Update? || a.GiveUp? {
      ClientStepIsLocal(clients, s, a);
      if Writes(clients, s, a) && clients[a.client].finalizer != f {
        var s' := Step(clients, s, a);
        InWithout(s.live.value.finalizers, clients[a.client].finalizer, f);
        if s'.live.Some? {
          InWithout(s'.live.value.finalizers, clients[a.client].finalizer, f);
        }
      }
    }
  }

  /** This incarnation is gone, or is being deleted without `f`. */
  predicate Released(s: State, uid: nat, f: string) {
    uid < s.clock && (Lives(s, uid) ==> s.live.value.deleting && f !in s.live.value.finalizers)
  }

  lemma RemovalReleases(clients: seq<Client>, s: State, a: Action, uid: nat, f: string)
    requires Inv(clients, s) && Sane(a) && Holds(s, uid, f) && Removes(clients, s, a, f)
    ensures Released(Step(clients, s, a), uid, f)
  {
    ClientStepIsLocal(clients, s, a);
  }

  /** A finalizer that was removed never comes back on the same incarnation. */
  lemma {:induction false} ReleasedForGood(clients: seq<Client>, s: State, actions: seq<Action>, uid: nat, f: string)
    requires Inv(clients, s) && Released(s, uid, f) && forall i :: 0 <= i < |actions| ==> Sane(actions[i])
    ensures !Holds(Run(clients, s, actions), uid, f)
    decreases |actions|
  {
    if actions != [] {
      var a := actions[0];
      StepReleased(clients, s, a, uid, f);
      StepKeepsInv(clients, s, a);
      ReleasedForGood(clients, Step(clients, s, a), actions[1..], uid, f);
    }
  }

  lemma StepReleased(clients: seq<Client>, s: State, a: Action, uid: nat, f: string)
    requires Inv(clients, s) && Released(s, uid, f) && Sane(a)
    ensures Released(Step(clients, s, a), uid, f)
  {
    if a.Get? || a.Update? || a.GiveUp? {
      ClientStepIsLocal(clients, s, a);
      var s' := Step(clients, s, a);
      if Writes(clients, s, a) && s'.live.Some? && Lives(s, uid) && clients[a.client].finalizer != f {
        InWithout(s.live.value.finalizers, clients[a.client].finalizer, f);
        InWithout(s'.live.value.finalizers, clients[a.client].finalizer, f);
      }
    }
  }

  /** An object that holds a finalizer survives with it until a remover of that finalizer succeeds, and no
      longer: removers whose update is refused, or who have nothing to write, make no difference. */
  lemma {:induction false} SurvivesUntilRemoved(clients: seq<Client>, s: State, actions: seq<Action>, uid: nat,
                                                f: string)
    requires Inv(clients, s) && Holds(s, uid, f) && forall i :: 0 <= i < |actions| ==> Sane(actions[i])
    ensures Holds(Run(clients, s, actions), uid, f) <==> NeverRemoves(clients, s, actions, f)
    decreases |actions|
  {
    hide Holds, Released, Removes;
    if actions != [] {
      var a := actions[0];
      StepKeepsInv(clients, s, a);
      if Removes(clients, s, a, f) {
        RemovalReleases(clients, s, a, uid, f);
        ReleasedForGood(clients, Step(clients, s, a), actions[1..], uid, f);
      } else {
        StepHolds(clients, s, a, uid, f);
        SurvivesUntilRemoved(clients, Step(clients, s, a), actions[1..], uid, f);
      }
    }
  }

  /** `t` is `s` with some elements left out. */
  predicate Thinned(s: seq<string>, t: seq<string>) {
    if t == [] then true
    else if s == [] then false
    else if s[0] == t[0] then Thinned(s[1..], t[1..])
    else Thinned(s[1..], t)
  }

  lemma {:induction false} ThinnedRefl(s: seq<string>)
    ensures Thinned(s, s)
  {
    if s != [] { ThinnedRefl(s[1..]); }
  }

  lemma {:induction false} ThinnedDrop(s: seq<string>, i: nat)
    requires i < |s| && s[i] !in s[..i] && NoDup(s)
    ensures Thinned(s, s[..i] + s[i + 1..])
  {
    var t := s[..i] + s[i + 1..];
    if i == 0 {
      assert t == s[1..];
      ThinnedRefl(s[1..]);
    } else {
      assert t[1..] == s[1..][..i - 1] + s[1..][i..];
      assert s[1..][i - 1] == s[i];
      ThinnedDrop(s[1..], i - 1);
    }
  }

  lemma {:induction false} ThinnedTrans(s: seq<string>, t: seq<string>, u: seq<string>)
    requires Thinned(s, t) && Thinned(t, u)
    ensures Thinned(s, u)
  {
    if s != [] && t != [] && u != [] {
      if s[0] == t[0] {
        if t[0] == u[0] {
          ThinnedTrans(s[1..], t[1..], u[1..]);
        } else {
          ThinnedTrans(s[1..], t[1..], u);
        }
      } else {
        ThinnedTrans(s[1..], t, u);
        if s[0] == u[0] {
          ThinnedTail(s[1..], u);
        }
      }
    }
  }

  lemma {:induction false} ThinnedTail(s: seq<string>, t: seq<string>)
    requires Thinned(s, t) && t != []
    ensures Thinned(s, t[1..])
  {
    if s[0] == t[0] {
      if |t| > 1 {
        ThinnedTail(s[1..], t[1..]);
      }
    } else {
      ThinnedTail(s[1..], t);
      if |t| > 1 && s[0] == t[1] {
        ThinnedTail(s[1..], t[1..]);
      }
    }
  }

  lemma StepThins(clients: seq<Client>, s: State, a: Action)
    requires Inv(clients, s) && Sane(a) && s.live.Some? && s.live.value.deleting
    ensures var s' := Step(clients, s, a);
            s'.live.Some? ==> s'.live.value.uid == s.live.value.uid && s'.live.value.deleting
                              && Thinned(s.live.value.finalizers, s'.live.value.finalizers)
  {
    var o := s.live.value;
    ThinnedRefl(o.finalizers);
    if Writes(clients, s, a) {
      var i := IndexOf(o.finalizers, clients[a.client].finalizer);
      assert Modify(clients[a.client], o) == Some(s.locals[a.client].write);
      ThinnedDrop(o.finalizers, i);
    }
  }

  /** Once the deletion timestamp is set it stays set and nothing is added or reordered: as long as
      this incarnation lives, its finalizers are a thinned-out version of what they were. */
  lemma {:induction false} OnlyThinsWhileDeleting(clients: seq<Client>, s: State, actions: seq<Action>)
    requires Inv(clients, s) && s.live.Some? && s.live.value.deleting
    requires forall i :: 0 <= i < |actions| ==> Sane(actions[i])
    ensures var e := Run(clients, s, actions);
            Lives(e, s.live.value.uid) ==>
              e.live.value.deleting && Thinned(s.live.value.finalizers, e.live.value.finalizers)
    decreases |actions|
  {
    var o := s.live.value;
    if actions == [] {
      ThinnedRefl(o.finalizers);
    } else {
      var s' := Step(clients, s, actions[0]);
      StepThins(clients, s, actions[0]);
      StepKeepsInv(clients, s, actions[0]);
      if s'.live.None? {
        GoneForGood(clients, s', actions[1..], o.uid);
      } else {
        OnlyThinsWhileDeleting(clients, s', actions[1..]);
        var e := Run(clients, s', actions[1..]);
        if Lives(e, o.uid) {
          ThinnedTrans(o.finalizers, s'.live.value.finalizers, e.live.value.finalizers);
        }
      }
    }
  }

  lemma StepGrows(clients: seq<Client>, s: State, a: Action)
    requires Inv(clients, s) && Sane(a) && s.live.Some? && !s.live.value.deleting
    ensures var s' := Step(clients, s, a);
            s'.live.Some? ==>
              s'.live.value.uid == s.live.value.uid && s.live.value.finalizers <= s'.live.value.finalizers
  {
    if Writes(clients, s, a) {
      assert Modify(clients[a.client], s.live.value) == Some(s.locals[a.client].write);
    }
  }

  /** `t` is what is left, in order, of `s` and of what was appended to it. */
  ghost predicate GrownAndThinned(s: seq<string>, t: seq<string>) {
    exists added: seq<string> :: Thinned(s + added, t)
  }

  /** Over every run: until the object is being deleted its finalizers stay where they are and new ones are
      appended; at any later time they are what is left, in order, of the old ones and some appended ones. */
  lemma {:induction false} OrderKept(clients: seq<Client>, s: State, actions: seq<Action>)
    requires Inv(clients, s) && s.live.Some? && forall i :: 0 <= i < |actions| ==> Sane(actions[i])
    ensures var e := Run(clients, s, actions);
            Lives(e, s.live.value.uid) ==>
              && (!e.live.value.deleting ==> s.live.value.finalizers <= e.live.value.finalizers)
              && GrownAndThinned(s.live.value.finalizers, e.live.value.finalizers)
    decreases |actions|
  {
    hide Thinned;
    var o, e := s.live.value, Run(clients, s, actions);
    assert o.finalizers + [] == o.finalizers;
    if o.deleting {
      OnlyThinsWhileDeleting(clients, s, actions);
    } else if actions == [] {
      ThinnedRefl(o.finalizers);
    } else {
      var s' := Step(clients, s, actions[0]);
      StepGrows(clients, s, actions[0]);
      StepKeepsInv(clients, s, actions[0]);
      ClockGrows(clients, s, actions[0]);
      if s'.live.None? {
        GoneForGood(clients, s', actions[1..], o.uid);
      } else {
        OrderKept(clients, s', actions[1..]);
        if Lives(e, o.uid) {
          GrowthAdds(o.finalizers, s'.live.value.finalizers, e.live.value.finalizers);
        }
      }
    }
  }

  lemma GrowthAdds(s: seq<string>, t: seq<string>, u: seq<string>)
    requires s <= t && GrownAndThinned(t, u)
    ensures GrownAndThinned(s, u)
  {
    var more :| Thinned(t + more, u);
    assert t + more == s + (t[|s|..] + more);
  }

  lemma ClockGrows(clients: seq<Client>, s: State, a: Action)
    requires Inv(clients, s) && s.live.Some?
    ensures s.live.value.uid < s.clock <= Step(clients, s, a).clock
  {
  }

  // ----- Deletion comes to an end -----

  /** The incarnation is gone, or is being deleted. */
  predicate Ending(s: State, uid: nat) {
    uid < s.clock && (Lives(s, uid) ==> s.live.value.deleting)
  }

  lemma {:induction false} ThinnedIn(s: seq<string>, t: seq<string>, f: string)
    requires Thinned(s, t) && f in t
    ensures f in s
  {
    if s[0] == t[0] {
      if f != t[0] { ThinnedIn(s[1..], t[1..], f); }
    } else {
      ThinnedIn(s[1..], t, f);
    }
  }

  /** Over any run a dying incarnation stays dying and gets no finalizer it did not have. */
  lemma EndingRun(clients: seq<Client>, s: State, actions: seq<Action>, uid: nat)
    requires Inv(clients, s) && Ending(s, uid) && forall i :: 0 <= i < |actions| ==> Sane(actions[i])
    ensures var e := Run(clients, s, actions);
            && Inv(clients, e) && Ending(e, uid)
            && (Lives(e, uid) ==> Lives(s, uid) && forall f :: f in e.live.value.finalizers ==>
                  f in s.live.value.finalizers)
  {
    hide Run, Step, Thinned;
    var e := Run(clients, s, actions);
    RunKeepsInv(clients, s, actions);
    ClockRuns(clients, s, actions);
    if !Lives(s, uid) {
      GoneForGood(clients, s, actions, uid);
    } else {
      OnlyThinsWhileDeleting(clients, s, actions);
      if Lives(e, uid) {
        forall f | f in e.live.value.finalizers ensures f in s.live.value.finalizers {
          ThinnedIn(s.live.value.finalizers, e.live.value.finalizers, f);
        }
      }
    }
  }

  lemma {:induction false} ClockRuns(clients: seq<Client>, s: State, actions: seq<Action>)
    requires |s.locals| == |clients|
    ensures s.clock <= Run(clients, s, actions).clock
    decreases |actions|
  {
    if actions != [] {
      ClockRuns(clients, Step(clients, s, actions[0]), actions[1..]);
    }
  }

  /** A remover that is not disturbed between its read and its write leaves the object without its finalizer. */
  lemma UndisturbedRemover(clients: seq<Client>, s: State, i: nat, uid: nat, f: string)
    requires Inv(clients, s) && Ending(s, uid) && i < |clients| && clients[i] == Client(Remove, f)
    ensures Released(Run(clients, s, [Get(i), Update(i)]), uid, f)
  {
    var s1 := Step(clients, s, Get(i));
    var s2 := Step(clients, s1, Update(i));
    assert [Get(i), Update(i)][1..] == [Update(i)];
    RunOne(clients, s1, Update(i));
    StepKeepsInv(clients, s, Get(i));
    if Holds(s, uid, f) {
      ModifyExactly(f, s.live.value);
      RemovalReleases(clients, s1, Update(i), uid, f);
    } else {
      StepReleased(clients, s, Get(i), uid, f);
      StepReleased(clients, s1, Update(i), uid, f);
    }
  }

  /** Clients that each get through undisturbed, one after the other, with anything happening in between. */
  function Undisturbed(ids: seq<nat>, others: seq<seq<Action>>): seq<Action>
    requires |others| == |ids|
  {
    if ids == [] then [] else (others[0] + [Get(ids[0]), Update(ids[0])]) + Undisturbed(ids[1..], others[1..])
  }

  /** Every finalizer the object still has is somebody's to remove. */
  ghost predicate Covered(clients: seq<Client>, s: State, uid: nat, ids: seq<nat>) {
    Lives(s, uid) ==> forall f :: f in s.live.value.finalizers ==>
      exists k :: 0 <= k < |ids| && ids[k] < |clients| && clients[ids[k]] == Client(Remove, f)
  }

  /** Deletion finishes: once a remover of each of its finalizers has got through undisturbed, in any order and
      whatever happens in between, an object that is being deleted is gone. */
  lemma {:induction false} DeletionFinishes(clients: seq<Client>, s: State, ids: seq<nat>, others: seq<seq<Action>>,
                                            uid: nat)
    requires Inv(clients, s) && Ending(s, uid) && |others| == |ids| && Covered(clients, s, uid, ids)
    requires forall k :: 0 <= k < |ids| ==> ids[k] < |clients|
    requires forall k, j :: 0 <= k < |others| && 0 <= j < |others[k]| ==> Sane(others[k][j])
    ensures !Lives(Run(clients, s, Undisturbed(ids, others)), uid)
    decreases |ids|
  {
    hide Step, Run, Inv;
    LocalsMatch(clients, s);
    if ids == [] {
      EmptyRun(clients, s);
      DyingHasFinalizer(clients, s);
      CoveredByNobody(clients, s, uid);
    } else {
      var pair := [Get(ids[0]), Update(ids[0])];
      var first := others[0] + pair;
      assert forall j :: 0 <= j < |others[0]| ==> Sane(others[0][j]);
      EndingRun(clients, s, others[0], uid);
      var s1 := Run(clients, s, others[0]);
      EndingRun(clients, s1, pair, uid);
      LocalsMatch(clients, s1);
      var s2 := Run(clients, s1, pair);
      LocalsMatch(clients, s2);
      RunConcat(clients, s, others[0], pair);
      RunConcat(clients, s, first, Undisturbed(ids[1..], others[1..]));
      CoveredAfter(clients, s, s1, s2, ids, uid);
      DeletionFinishes(clients, s2, ids[1..], others[1..], uid);
    }
  }

  lemma CoveredAfter(clients: seq<Client>, s: State, s1: State, s2: State, ids: seq<nat>, uid: nat)
    requires Inv(clients, s1) && Ending(s1, uid) && ids != [] && ids[0] < |clients| && Covered(clients, s, uid, ids)
    requires s2 == Run(clients, s1, [Get(ids[0]), Update(ids[0])])
    requires Lives(s2, uid) ==> Lives(s, uid) && forall f :: f in s2.live.value.finalizers ==>
             f in s.live.value.finalizers
    ensures Covered(clients, s2, uid, ids[1..])
  {
    hide Run, Inv;
    if Lives(s2, uid) {
      forall f | f in s2.live.value.finalizers
        ensures exists k :: 0 <= k < |ids[1..]| && ids[1..][k] < |clients| && clients[ids[1..][k]] == Client(Remove, f)
      {
        if clients[ids[0]] == Client(Remove, f) {
          UndisturbedRemover(clients, s1, ids[0], uid, f);
        } else {
          var k :| 0 <= k < |ids| && ids[k] < |clients| && clients[ids[k]] == Client(Remove, f);
          assert ids[1..][k - 1] == ids[k];
        }
      }
    }
  }

  lemma CoveredByNobody(clients: seq<Client>, s: State, uid: nat)
    requires Covered(clients, s, uid, [])
    ensures Lives(s, uid) ==> s.live.value.finalizers == []
  {
    if Lives(s, uid) {
      SomeElement(s.live.value.finalizers);
    }
  }

  lemma SomeElement(s: seq<string>)
    ensures s == [] || exists f :: f in s
  {
    assert s != [] ==> s[0] in s;
  }

  lemma EmptyRun(clients: seq<Client>, s: State)
    requires |s.locals| == |clients|
    ensures Run(clients, s, []) == s
  {}

  lemma DyingHasFinalizer(clients: seq<Client>, s: State)
    requires Inv(clients, s)
    ensures s.live.Some? && s.live.value.deleting ==> s.live.value.finalizers != []
  {}

  lemma LocalsMatch(clients: seq<Client>, s: State)
    requires Inv(clients, s)
    ensures |s.locals| == |clients|
  {}

  // ----- The functions GetAddFunc and GetRemoveFunc return -----

  datatype Result = NotFound | Unchanged(found: Object) | Refused | Written(stored: Option<Object>)

  predicate ByClient(a: Action, i: nat) {
    (a.Get? || a.Update? || a.GiveUp?) && a.client == i
  }

  /** Is there something for this client to write? */
  predicate IsDue(c: Client, o: Object) {
    if c.kind.Add? then !o.deleting && c.finalizer !in o.finalizers else o.deleting && c.finalizer in o.finalizers
  }

  /** The object without the first `f`, or nothing if that was all that held it. */
  function TakeOut(o: Object, f: string, version: nat): (r: Option<Object>)
    requires f in o.finalizers
    ensures r.None? <==> o.finalizers == [f]
    ensures r.Some? ==> r.value == o.(finalizers := r.value.finalizers, version := version)
    ensures r.Some? ==> exists i :: 0 <= i < |o.finalizers| && o.finalizers[i] == f && f !in o.finalizers[..i]
                                    && r.value.finalizers == o.finalizers[..i] + o.finalizers[i + 1..]
  {
    var i := IndexOf(o.finalizers, f);
    var rest := o.finalizers[..i] + o.finalizers[i + 1..];
    assert rest == [] <==> |o.finalizers| == 1;
    if rest == [] then None else Some(o.(finalizers := rest, version := version))
  }

  class ApiServer {
    const clients: seq<Client>
    var state: State

    constructor (clients: seq<Client>, s: State)
      requires |s.locals| == |clients|
      ensures this.clients == clients && state == s
    {
      this.clients := clients;
      state := s;
    }

    /** What everyone else does between a client's Get and its Update. */
    method Interfere(actions: seq<Action>)
      requires |state.locals| == |clients|
      modifies this
      ensures |state.locals| == |clients|
      ensures state == Run(clients, old(state), actions)
    {
      var i := 0;
      while i < |actions|
        invariant 0 <= i <= |actions| && |state.locals| == |clients|
        invariant Run(clients, state, actions[i..]) == Run(clients, old(state), actions)
      {
        state := Step(clients, state, actions[i]);
        assert actions[i..][1..] == actions[i + 1..];
        i := i + 1;
      }
    }

    /** Read the object, decide on the change, and write it back unless nothing is to be done. */
    method GetModifyWrite(i: nat, between: seq<Action>) returns (r: Result)
      requires |state.locals| == |clients| && i < |clients| && state.locals[i].Idle?
      requires forall j :: 0 <= j < |between| ==> !ByClient(between[j], i)
      modifies this
      ensures |state.locals| == |clients|
      ensures r.NotFound? <==> old(state).live.None?
      ensures r.Unchanged? <==> old(state).live.Some? && !IsDue(clients[i], old(state).live.value)
      ensures r.Unchanged? ==> r.found == old(state).live.value
      ensures r.NotFound? || r.Unchanged? ==> state == old(state)
      ensures r.Refused? || r.Written? ==> state == Run(clients, old(state), [Get(i)] + between + [Update(i)])
      ensures r.Refused? || r.Written? ==>
                (r.Written? <==> Writes(clients, Run(clients, old(state), [Get(i)] + between), Update(i)))
      ensures r.Refused? ==> state.live == Run(clients, old(state), [Get(i)] + between).live
      ensures r.Written? ==> r.stored == state.live
      ensures between == [] && old(state).live.Some? ==>
                var o, c := old(state).live.value, clients[i];
                && (c.kind.Add? && !o.deleting && c.finalizer !in o.finalizers ==>
                      && r.Written?
                      && state.live == Some(o.(finalizers := o.finalizers + [c.finalizer],
                         version := old(state).clock)))
                && (c.kind.Remove? && o.deleting && c.finalizer in o.finalizers ==>
                      && r.Written?
                      && state.live == TakeOut(o, c.finalizer, old(state).clock))
                && (r.Written? || r == Unchanged(o))
    {
      var got := state.live;
      if got.None? {
        return NotFound;
      }
      var change := Modify(clients[i], got.value);
      ModifyExactly(clients[i].finalizer, got.value);
      if change.None? {
        return Unchanged(got.value);
      }
      RunConcat(clients, state, [Get(i)] + between, [Update(i)]);
      RunConcat(clients, state, [Get(i)], between);
      RunOne(clients, state, Get(i));
      state := SetLocal(state, i, Ready(change.value));
      ghost var ready := state;
      Interfere(between);
      LocalKept(clients, ready, between, i);
      RunOne(clients, state, Update(i));
      if state.live.Some? && state.live.value.version == change.value.version {
        state := SetLocal(Put(state, change.value), i, Idle);
        r := Written(state.live);
      } else {
        state := SetLocal(state, i, Idle);
        r := Refused;
      }
    }
  }

  lemma RunOne(clients: seq<Client>, s: State, a: Action)
    requires |s.locals| == |clients|
    ensures Run(clients, s, [a]) == Step(clients, s, a)
  {}

  lemma {:induction false} RunConcat(clients: seq<Client>, s: State, p: seq<Action>, q: seq<Action>)
    requires |s.locals| == |clients|
    ensures Run(clients, s, p + q) == Run(clients, Run(clients, s, p), q)
    decreases |p|
  {
    if p == [] {
      assert p + q == q;
    } else {
      assert (p + q)[1..] == p[1..] + q;
      RunConcat(clients, Step(clients, s, p[0]), p[1..], q);
    }
  }

  lemma {:induction false} LocalKept(clients: seq<Client>, s: State, actions: seq<Action>, i: nat)
    requires |s.locals| == |clients| && i < |clients|
    requires forall j :: 0 <= j < |actions| ==> !ByClient(actions[j], i)
    ensures Run(clients, s, actions).locals[i] == s.locals[i]
    decreases |actions|
  {
    if actions != [] {
      LocalKept(clients, Step(clients, s, actions[0]), actions[1..], i);
    }
  }
}
