/** Parallel: fork the children on one context, wait for all of them, then call next. Each child runs an
    arbitrary deterministic program over contexts and boxes; the steps of the children interleave freely. */
module Parallel {

  import opened Options
  import opened TypedContext

  // ----- Children -----

  /** What a child does next, on one of the contexts it has so far. */
  datatype Action =
    | Read(ctx: nat, key: Key)
    | Write(ctx: nat, key: Key, value: Value)
    | NewBox(ctx: nat, key: Key)
    | Halt

  /** A deterministic program: the next action depends on the values read so far and the number of steps. */
  type Program = (seq<Value>, nat) -> Action

  datatype Child = Child(contexts: seq<Context>, read: seq<Value>, steps: nat, halted: bool)

  function Pick(cs: seq<Context>, n: nat): Context {
    if n < |cs| then cs[n] else Background
  }

  /** The box the next action reads or fills, if any. */
  function Touched(t: Child, p: Program): Option<BoxId> {
    var a := p(t.read, t.steps);
    if t.halted || a.Halt? || a.NewBox? then None else BoxOf(Pick(t.contexts, a.ctx), a.key)
  }

  /** Does the next action fill the box it touches, rather than read it? */
  predicate Fills(t: Child, p: Program) {
    p(t.read, t.steps).Write?
  }

  datatype Local = Local(child: Child, heap: Heap)

  /** The boxes that child `i` allocates are its own: no other child can have their addresses. */
  function FreshBox(i: nat, t: Child): BoxId {
    BoxId(i + 1, t.steps)
  }

  function ChildStep(i: nat, p: Program, s: Local): Local {
    var t := s.child;
    if t.halted then s
    else
      match p(t.read, t.steps)
      case Halt => s.(child := t.(steps := t.steps + 1, halted := true))
      case Read(n, k) =>
        s.(child := t.(steps := t.steps + 1, read := t.read + [Lookup(s.heap, Pick(t.contexts, n), k)]))
      case Write(n, k, v) =>
        var u := SetValue(s.heap, Pick(t.contexts, n), k, v, FreshBox(i, t));
        Local(t.(steps := t.steps + 1, contexts := t.contexts + [u.context]), u.heap)
      case NewBox(n, k) =>
        var u := AddBox(s.heap, Pick(t.contexts, n), k, FreshBox(i, t));
        Local(t.(steps := t.steps + 1, contexts := t.contexts + [u.context]), u.heap)
  }

  /** A child that sets a value and then reads the key in the resulting context reads what it set. */
  lemma ChildReadsBack(i: nat, p: Program, s: Local, k: Key, v: Value)
    requires !s.child.halted
    requires p(s.child.read, s.child.steps).Write? && p(s.child.read, s.child.steps).key == k
    requires p(s.child.read, s.child.steps).value == v
    requires p(s.child.read, s.child.steps + 1) == Read(|s.child.contexts|, k)
    ensures ChildStep(i, p, ChildStep(i, p, s)).child.read == s.child.read + [v]
  {}

  /** A child that makes a box and then reads the key in the resulting context reads the default. */
  lemma ChildReadsDefault(i: nat, p: Program, s: Local, k: Key)
    requires !s.child.halted && k.boxed
    requires p(s.child.read, s.child.steps).NewBox? && p(s.child.read, s.child.steps).key == k
    requires p(s.child.read, s.child.steps + 1) == Read(|s.child.contexts|, k)
    ensures ChildStep(i, p, ChildStep(i, p, s)).child.read == s.child.read + [k.default]
  {}

  function NewChild(c: Context): Child {
    Child([c], [], 0, false)
  }

  /** The child running on its own. */
  function Solo(i: nat, p: Program, c: Context, h: Heap, n: nat): Local {
    if n == 0 then Local(NewChild(c), h) else ChildStep(i, p, Solo(i, p, c, h, n - 1))
  }

  // ----- Parallel -----

  /** `group` is the WaitGroup's counter. */
  datatype State = State(children: seq<Child>, heap: Heap, group: nat, next: bool)

  datatype Event = Spawn | Step(i: nat) | Next

  datatype Setup = Setup(programs: seq<Program>, context: Context, heap: Heap)

  function Initial(u: Setup): State {
    State([], u.heap, 0, false)
  }

  predicate Enabled(u: Setup, s: State, e: Event) {
    !s.next &&
    match e
    case Spawn => |s.children| < |u.programs|
    case Step(i) => i < |s.children| <= |u.programs| && !s.children[i].halted
    case Next => |s.children| == |u.programs| && s.group == 0
  }

  /** One step of the forking loop, of a child, or of the wait; a step that is not enabled does nothing. */
  function Do(u: Setup, s: State, e: Event): State {
    if !Enabled(u, s, e) then s
    else
      match e
      case Spawn => s.(children := s.children + [NewChild(u.context)], group := s.group + 1)
      case Step(i) =>
        var l := ChildStep(i, u.programs[i], Local(s.children[i], s.heap));
        State(s.children[i := l.child], l.heap, if l.child.halted && s.group > 0 then s.group - 1 else s.group, s.next)
      case Next => s.(next := true)
  }

  function Run(u: Setup, es: seq<Event>): State {
    if es == [] then Initial(u) else Do(u, Run(u, es[..|es| - 1]), es[|es| - 1])
  }

  // ----- The barrier -----

  function Live(cs: seq<Child>): nat {
    if cs == [] then 0 else Live(cs[..|cs| - 1]) + if cs[|cs| - 1].halted then 0 else 1
  }

  lemma {:induction false} LiveUpdate(cs: seq<Child>, i: nat, t: Child)
    requires i < |cs| && !cs[i].halted
    ensures Live(cs[i := t]) == Live(cs) - (if t.halted then 1 else 0) && Live(cs) > 0
  {
    var n := |cs| - 1;
    if i < n {
      LiveUpdate(cs[..n], i, t);
      assert cs[i := t][..n] == cs[..n][i := t];
    } else {
      assert cs[i := t][..n] == cs[..n];
    }
  }

  lemma {:induction false} NoneLive(cs: seq<Child>, i: nat)
    requires Live(cs) == 0 && i < |cs|
    ensures cs[i].halted
  {
    if i < |cs| - 1 {
      NoneLive(cs[..|cs| - 1], i);
    }
  }

  ghost predicate BarrierInv(u: Setup, s: State) {
    && |s.children| <= |u.programs| && s.group == Live(s.children)
    && (s.next ==> |s.children| == |u.programs| && s.group == 0)
  }

  lemma StepBarrier(u: Setup, s: State, e: Event)
    requires BarrierInv(u, s)
    ensures BarrierInv(u, Do(u, s, e))
  {
    hide ChildStep;
    if Enabled(u, s, e) {
      var s' := Do(u, s, e);
      match e
      case Spawn => assert s'.children[..|s.children|] == s.children;
      case Step(i) => LiveUpdate(s.children, i, s'.children[i]);
      case Next =>
    }
  }

  /** The counter is the number of children still at work, so next starts only after every child of the
      list has been forked and has finished, under every schedule. */
  lemma {:induction false} Barrier(u: Setup, es: seq<Event>)
    ensures BarrierInv(u, Run(u, es))
    ensures Run(u, es).next ==>
              |Run(u, es).children| == |u.programs| && forall i :: 0 <= i < |u.programs| ==>
                  Run(u, es).children[i].halted
  {
    hide Do;
    if es != [] {
      Barrier(u, es[..|es| - 1]);
      StepBarrier(u, Run(u, es[..|es| - 1]), es[|es| - 1]);
    }
    var s := Run(u, es);
    if s.next {
      forall i | 0 <= i < |u.programs| ensures s.children[i].halted { NoneLive(s.children, i); }
    }
  }

  // ----- One step of one child -----

  /** Every box in the context was there before the fork or was allocated by child `i`. */
  ghost predicate ContextOk(c: Context, i: nat) {
    match c
    case Background => true
    case With(parent, _, binding) =>
      ContextOk(parent, i) && (binding.Boxed? ==> binding.box.owner == 0 || binding.box.owner == i + 1)
  }

  ghost predicate ChildOk(t: Child, i: nat) {
    forall n :: 0 <= n < |t.contexts| ==> ContextOk(t.contexts[n], i)
  }

  lemma {:induction false} BoxIsKnown(c: Context, k: Key, i: nat)
    requires ContextOk(c, i) && BoxOf(c, k).Some?
    ensures BoxOf(c, k).value.owner == 0 || BoxOf(c, k).value.owner == i + 1
  {
    if c.key != k {
      BoxIsKnown(c.parent, k, i);
    }
  }

  lemma StepKeepsOk(i: nat, p: Program, s: Local)
    requires ChildOk(s.child, i)
    ensures ChildOk(ChildStep(i, p, s).child, i)
  {
    var a := p(s.child.read, s.child.steps);
    assert !a.Halt? ==> ContextOk(Pick(s.child.contexts, a.ctx), i);
  }

  lemma TouchedIsKnown(i: nat, p: Program, t: Child)
    requires ChildOk(t, i) && Touched(t, p).Some?
    ensures Touched(t, p).value.owner == 0 || Touched(t, p).value.owner == i + 1
  {
    var a := p(t.read, t.steps);
    assert ContextOk(Pick(t.contexts, a.ctx), i);
    BoxIsKnown(Pick(t.contexts, a.ctx), a.key, i);
  }

  /** A step changes at most the box it fills and boxes of its own. */
  lemma StepFrame(i: nat, p: Program, s: Local, b: BoxId)
    requires (Fills(s.child, p) ==> Touched(s.child, p) != Some(b)) && b.owner != i + 1
    ensures Get(ChildStep(i, p, s).heap, b) == Get(s.heap, b)
  {
  }

  /** What a step does depends on no box but the one it touches. */
  lemma StepAgree(i: nat, p: Program, t: Child, h: Heap, h': Heap, b: BoxId)
    requires Touched(t, p).Some? ==> Get(h, Touched(t, p).value) == Get(h', Touched(t, p).value)
    ensures ChildStep(i, p, Local(t, h)).child == ChildStep(i, p, Local(t, h')).child
    ensures Get(h, b) == Get(h', b) ==>
            Get(ChildStep(i, p, Local(t, h)).heap, b) == Get(ChildStep(i, p, Local(t, h')).heap, b)
  {
  }

  // ----- Separation -----

  /** `assign` gives some of the boxes made before the fork to one child each. */
  type Assignment = map<BoxId, nat>

  predicate Owns(assign: Assignment, i: nat, b: BoxId) {
    b.owner == i + 1 || (b.owner == 0 && b in assign && assign[b] == i)
  }

  /** A box given to no child. */
  ghost predicate Unowned(u: Setup, assign: Assignment, b: BoxId) {
    forall i :: 0 <= i < |u.programs| ==> !Owns(assign, i, b)
  }

  /** A child may use the boxes given to it, and may read the boxes given to nobody. */
  ghost predicate MayTouch(u: Setup, assign: Assignment, i: nat, b: BoxId, fills: bool) {
    Owns(assign, i, b) || (Unowned(u, assign, b) && !fills)
  }

  function SoloAt(u: Setup, i: nat, n: nat): Local
    requires i < |u.programs|
  {
    Solo(i, u.programs[i], u.context, u.heap, n)
  }

  /** In this state the child's next action touches an older box only if it may. */
  ghost predicate StepsAside(u: Setup, assign: Assignment, i: nat, t: Child)
    requires i < |u.programs|
  {
    var b := Touched(t, u.programs[i]);
    b.Some? && b.value.owner == 0 ==> MayTouch(u, assign, i, b.value, Fills(t, u.programs[i]))
  }

  /** Running alone, every child fills only boxes given to it and reads only those and boxes nobody fills;
      and the boxes of the context Parallel is called with are older than the children. */
  ghost predicate Separated(u: Setup, assign: Assignment) {
    && (forall i :: ContextOk(u.context, i))
    && (forall i: nat, n: nat :: i < |u.programs| ==> StepsAside(u, assign, i, SoloAt(u, i, n).child))
  }

  lemma {:induction false} SoloOk(u: Setup, assign: Assignment, i: nat, n: nat)
    requires Separated(u, assign) && i < |u.programs|
    ensures ChildOk(SoloAt(u, i, n).child, i)
  {
    hide ChildStep, StepsAside;
    if n > 0 {
      SoloOk(u, assign, i, n - 1);
      StepKeepsOk(i, u.programs[i], SoloAt(u, i, n - 1));
    }
  }

  lemma SoloTouches(u: Setup, assign: Assignment, i: nat, n: nat)
    requires Separated(u, assign) && i < |u.programs|
    ensures var t, p := SoloAt(u, i, n).child, u.programs[i];
            Touched(t, p).Some? ==> MayTouch(u, assign, i, Touched(t, p).value, Fills(t, p))
  {
    hide ChildStep, ContextOk, Touched, Solo, Fills, Unowned;
    SoloOk(u, assign, i, n);
    var t := SoloAt(u, i, n).child;
    assert StepsAside(u, assign, i, t);
    if Touched(t, u.programs[i]).Some? {
      TouchedIsKnown(i, u.programs[i], t);
    }
  }

  /** Alone, a child leaves every box alone that is not its own. */
  lemma {:induction false} SoloKeepsOthers(u: Setup, assign: Assignment, i: nat, n: nat, b: BoxId)
    requires Separated(u, assign) && i < |u.programs| && !Owns(assign, i, b)
    ensures Get(SoloAt(u, i, n).heap, b) == Get(u.heap, b)
  {
    hide ChildStep, ContextOk, Touched, Separated, Fills, Unowned;
    if n > 0 {
      SoloKeepsOthers(u, assign, i, n - 1, b);
      SoloTouches(u, assign, i, n - 1);
      StepFrame(i, u.programs[i], SoloAt(u, i, n - 1), b);
    }
  }

  // ----- Keys of one child only -----

  /** What a caller can see to: a key with a box in the common context is used by the child the box is given
      to and by no other, or it is only read. */
  ghost predicate KeysApart(u: Setup, assign: Assignment) {
    && (forall i :: ContextOk(u.context, i))
    && (forall i: nat, read: seq<Value>, n: nat :: i < |u.programs| ==>
          UsesOwnKeys(u, assign, i, u.programs[i](read, n)))
  }

  ghost predicate UsesOwnKeys(u: Setup, assign: Assignment, i: nat, a: Action) {
    (a.Read? || a.Write?) && BoxOf(u.context, a.key).Some? ==>
      MayTouch(u, assign, i, BoxOf(u.context, a.key).value, a.Write?)
  }

  /** An old box is found under the same key as in the common context. */
  ghost predicate Derived(u: Setup, c: Context) {
    forall k :: BoxOf(c, k).Some? && BoxOf(c, k).value.owner == 0 ==> BoxOf(c, k) == BoxOf(u.context, k)
  }

  ghost predicate ChildDerived(u: Setup, t: Child) {
    forall n :: 0 <= n < |t.contexts| ==> Derived(u, t.contexts[n])
  }

  lemma DerivedBinding(u: Setup, c: Context, k: Key, b: Binding)
    requires Derived(u, c) && (b.Boxed? ==> b.box.owner != 0)
    ensures Derived(u, With(c, k, b))
  {
    forall j | BoxOf(With(c, k, b), j).Some? && BoxOf(With(c, k, b), j).value.owner == 0
      ensures BoxOf(With(c, k, b), j) == BoxOf(u.context, j)
    {
      if j != k { assert BoxOf(With(c, k, b), j) == BoxOf(c, j); }
    }
  }

  lemma StepDerived(u: Setup, i: nat, p: Program, s: Local)
    requires ChildDerived(u, s.child)
    ensures ChildDerived(u, ChildStep(i, p, s).child)
  {
    hide Derived;
    var t := s.child;
    var a := p(t.read, t.steps);
    if !t.halted && (a.Write? || a.NewBox?) {
      var c := Pick(t.contexts, a.ctx);
      assert Derived(u, c) by { BackgroundDerived(u); }
      DerivedBinding(u, c, a.key, Boxed(FreshBox(i, t)));
      if a.Write? { DerivedBinding(u, c, a.key, Plain(a.value)); }
    }
  }

  lemma BackgroundDerived(u: Setup)
    ensures Derived(u, Background)
  {
  }

  lemma {:induction false} SoloDerived(u: Setup, i: nat, n: nat)
    requires i < |u.programs|
    ensures ChildDerived(u, SoloAt(u, i, n).child)
  {
    hide ChildStep;
    if n > 0 {
      SoloDerived(u, i, n - 1);
      StepDerived(u, i, u.programs[i], SoloAt(u, i, n - 1));
    }
  }

  /** If each boxed key is used by one child or only read, then every child alone keeps to what it may touch. */
  lemma KeysApartSeparates(u: Setup, assign: Assignment)
    requires KeysApart(u, assign)
    ensures Separated(u, assign)
  {
    hide ContextOk, MayTouch, Solo;
    forall i: nat, n: nat | i < |u.programs| ensures StepsAside(u, assign, i, SoloAt(u, i, n).child) {
      var t, p := SoloAt(u, i, n).child, u.programs[i];
      var a := p(t.read, t.steps);
      assert UsesOwnKeys(u, assign, i, a);
      SoloDerived(u, i, n);
      if !a.Halt? {
        BackgroundDerived(u);
        assert Derived(u, Pick(t.contexts, a.ctx));
      }
    }
  }

  // ----- Projection: in the crowd a child behaves as it does alone -----

  function StepsOf(s: State, i: nat): nat {
    if i < |s.children| then s.children[i].steps else 0
  }

  /** Child `i` and its boxes are as they are after as many steps alone. */
  ghost predicate AsAlone(u: Setup, assign: Assignment, s: State, i: nat)
    requires i < |u.programs|
  {
    var l := SoloAt(u, i, StepsOf(s, i));
    && (i < |s.children| ==> s.children[i] == l.child)
    && (forall b :: Owns(assign, i, b) ==> Get(s.heap, b) == Get(l.heap, b))
  }

  ghost predicate Projected(u: Setup, assign: Assignment, s: State) {
    && |s.children| <= |u.programs|
    && (forall i: nat :: i < |u.programs| ==> AsAlone(u, assign, s, i))
    && (forall b :: Unowned(u, assign, b) ==> Get(s.heap, b) == Get(u.heap, b))
  }

  /** The child that steps keeps up with its lone run. */
  lemma StepOwn(u: Setup, assign: Assignment, s: State, i: nat)
    requires Separated(u, assign) && Projected(u, assign, s) && Enabled(u, s, Step(i))
    ensures AsAlone(u, assign, Do(u, s, Step(i)), i)
  {
    hide Touched, ContextOk, Separated, Unowned, Fills;
    var p, n := u.programs[i], s.children[i].steps;
    var l := SoloAt(u, i, n);
    assert AsAlone(u, assign, s, i);
    SoloTouches(u, assign, i, n);
    var t := s.children[i];
    if Touched(t, p).Some? && !Owns(assign, i, Touched(t, p).value) {
      SoloKeepsOthers(u, assign, i, n, Touched(t, p).value);
    }
    assert SoloAt(u, i, n + 1) == ChildStep(i, p, l);
    StepsUp(i, p, Local(t, s.heap));
    forall b | Owns(assign, i, b)
      ensures Get(ChildStep(i, p, Local(t, s.heap)).heap, b) == Get(ChildStep(i, p, l).heap, b)
    {
      StepAgree(i, p, t, s.heap, l.heap, b);
    }
    StepAgree(i, p, t, s.heap, l.heap, BoxId(0, 0));
  }

  lemma StepsUp(i: nat, p: Program, s: Local)
    requires !s.child.halted
    ensures ChildStep(i, p, s).child.steps == s.child.steps + 1
  {
  }

  /** ... and touches no box of another child, nor one that belongs to nobody. */
  lemma StepOthers(u: Setup, assign: Assignment, s: State, i: nat, b: BoxId)
    requires Separated(u, assign) && Projected(u, assign, s) && Enabled(u, s, Step(i)) && !Owns(assign, i, b)
    ensures Get(Do(u, s, Step(i)).heap, b) == Get(s.heap, b)
  {
    hide Touched, ContextOk, Separated, ChildStep, Solo, Fills, Unowned;
    assert AsAlone(u, assign, s, i);
    SoloTouches(u, assign, i, s.children[i].steps);
    StepFrame(i, u.programs[i], Local(s.children[i], s.heap), b);
  }

  lemma OwnedOnce(assign: Assignment, i: nat, j: nat, b: BoxId)
    requires Owns(assign, i, b) && Owns(assign, j, b)
    ensures i == j
  {
  }

  lemma StepProjects(u: Setup, assign: Assignment, s: State, i: nat)
    requires Separated(u, assign) && Projected(u, assign, s) && Enabled(u, s, Step(i))
    ensures Projected(u, assign, Do(u, s, Step(i)))
  {
    hide Touched, ContextOk, Separated, ChildStep, Solo, Owns;
    var s' := Do(u, s, Step(i));
    forall j: nat | j < |u.programs| ensures AsAlone(u, assign, s', j) {
      if j == i {
        StepOwn(u, assign, s, i);
      } else {
        assert AsAlone(u, assign, s, j);
        assert StepsOf(s', j) == StepsOf(s, j);
        forall b | Owns(assign, j, b) ensures Get(s'.heap, b) == Get(s.heap, b) {
          if Owns(assign, i, b) { OwnedOnce(assign, i, j, b); }
          StepOthers(u, assign, s, i, b);
        }
      }
    }
    forall b | Unowned(u, assign, b) ensures Get(s'.heap, b) == Get(s.heap, b) {
      StepOthers(u, assign, s, i, b);
    }
  }

  lemma SpawnProjects(u: Setup, assign: Assignment, s: State, e: Event)
    requires Projected(u, assign, s) && !e.Step?
    ensures Projected(u, assign, Do(u, s, e))
  {
    hide Owns, ChildStep;
    var s' := Do(u, s, e);
    forall j: nat | j < |u.programs| ensures AsAlone(u, assign, s', j) {
      assert AsAlone(u, assign, s, j);
    }
  }

  /** Under every schedule, each child reads, allocates and writes what it would on its own, and the boxes of
      nobody keep their values. */
  lemma {:induction false} Projection(u: Setup, assign: Assignment, es: seq<Event>)
    requires Separated(u, assign)
    ensures Projected(u, assign, Run(u, es))
  {
    hide Do, Separated, Projected, Solo;
    if es == [] {
      InitialProjects(u, assign);
    } else {
      var s, e := Run(u, es[..|es| - 1]), es[|es| - 1];
      Projection(u, assign, es[..|es| - 1]);
      if e.Step? && Enabled(u, s, e) {
        StepProjects(u, assign, s, e.i);
      } else if !e.Step? {
        SpawnProjects(u, assign, s, e);
      } else {
        Disabled(u, s, e);
      }
    }
  }

  lemma Disabled(u: Setup, s: State, e: Event)
    requires !Enabled(u, s, e)
    ensures Do(u, s, e) == s
  {
  }

  lemma InitialProjects(u: Setup, assign: Assignment)
    ensures Projected(u, assign, Initial(u))
  {
    hide Owns;
    forall i: nat | i < |u.programs| ensures AsAlone(u, assign, Initial(u), i) {
    }
  }

  // ----- The reference: the children one after the other -----

  /** The heap after the first `m` children, each run for its number of steps on what the ones before left. */
  function Sequential(u: Setup, ns: seq<nat>, m: nat): Heap
    requires m <= |ns| == |u.programs|
  {
    if m == 0 then u.heap
    else Solo(m - 1, u.programs[m - 1], u.context, Sequential(u, ns, m - 1), ns[m - 1]).heap
  }

  /** A child started on another heap that agrees on its boxes and on nobody's does the same, and leaves the rest
      alone. */
  lemma {:induction false} SoloAgree(u: Setup, assign: Assignment, i: nat, h: Heap, n: nat)
    requires Separated(u, assign) && i < |u.programs|
    requires forall b :: Owns(assign, i, b) || Unowned(u, assign, b) ==> Get(h, b) == Get(u.heap, b)
    ensures var l := Solo(i, u.programs[i], u.context, h, n);
            && l.child == SoloAt(u, i, n).child
            && (forall b :: Owns(assign, i, b) ==> Get(l.heap, b) == Get(SoloAt(u, i, n).heap, b))
            && (forall b :: !Owns(assign, i, b) ==> Get(l.heap, b) == Get(h, b))
  {
    hide Touched, ContextOk, Separated, ChildStep, Owns, Fills, Unowned;
    if n > 0 {
      SoloAgree(u, assign, i, h, n - 1);
      var p := u.programs[i];
      var l, m := Solo(i, p, u.context, h, n - 1), SoloAt(u, i, n - 1);
      SoloTouches(u, assign, i, n - 1);
      if Touched(l.child, p).Some? && !Owns(assign, i, Touched(l.child, p).value) {
        SoloKeepsOthers(u, assign, i, n - 1, Touched(l.child, p).value);
      }
      var l', m' := ChildStep(i, p, l), ChildStep(i, p, m);
      StepAgree(i, p, l.child, l.heap, m.heap, BoxId(0, 0));
      forall b | Owns(assign, i, b) ensures Get(l'.heap, b) == Get(m'.heap, b) {
        StepAgree(i, p, l.child, l.heap, m.heap, b);
      }
      forall b | !Owns(assign, i, b) ensures Get(l'.heap, b) == Get(l.heap, b) {
        OwnsOwn(assign, i, b);
        StepFrame(i, p, l, b);
      }
    }
  }

  lemma OwnsOwn(assign: Assignment, i: nat, b: BoxId)
    requires !Owns(assign, i, b)
    ensures b.owner != i + 1
  {
  }

  lemma {:induction false} SequentialHeap(u: Setup, assign: Assignment, ns: seq<nat>, m: nat)
    requires Separated(u, assign) && m <= |ns| == |u.programs|
    ensures forall i: nat, b :: i < m && Owns(assign, i, b) ==>
            Get(Sequential(u, ns, m), b) == Get(SoloAt(u, i, ns[i]).heap, b)
    ensures forall b :: (forall i: nat :: i < m ==> !Owns(assign, i, b)) ==>
            Get(Sequential(u, ns, m), b) == Get(u.heap, b)
  {
    hide Touched, ContextOk, Separated, Owns, Solo;
    if m > 0 {
      SequentialHeap(u, assign, ns, m - 1);
      var h := Sequential(u, ns, m - 1);
      forall b | Owns(assign, m - 1, b) ensures Get(h, b) == Get(u.heap, b) {
        forall i: nat | i < m - 1 ensures !Owns(assign, i, b) {
          if Owns(assign, i, b) { OwnedOnce(assign, i, m - 1, b); }
        }
      }
      forall b | Unowned(u, assign, b) ensures Get(h, b) == Get(u.heap, b) {
      }
      SoloAgree(u, assign, m - 1, h, ns[m - 1]);
      forall i: nat, b | i < m && Owns(assign, i, b)
        ensures Get(Sequential(u, ns, m), b) == Get(SoloAt(u, i, ns[i]).heap, b)
      {
        if i < m - 1 && Owns(assign, m - 1, b) { OwnedOnce(assign, i, m - 1, b); }
      }
    }
  }

  lemma {:induction false} HaltedStays(u: Setup, i: nat, n: nat, m: nat)
    requires i < |u.programs| && n <= m && SoloAt(u, i, n).child.halted
    ensures SoloAt(u, i, m) == SoloAt(u, i, n)
  {
    if n < m {
      HaltedStays(u, i, n, m - 1);
    }
  }

  /** Parallel determinism: if running alone each child keeps to boxes no other child uses, and finishes
      within ns[i] steps, then under every schedule in which next starts, every child has read exactly what
      it reads alone, and next finds under every key the value a sequential run would have left. */
  lemma ParallelIsSequential(u: Setup, assign: Assignment, es: seq<Event>, ns: seq<nat>, k: Key)
    requires Separated(u, assign) && Run(u, es).next && |ns| == |u.programs|
    requires forall i :: 0 <= i < |ns| ==> SoloAt(u, i, ns[i]).child.halted
    ensures Lookup(Run(u, es).heap, u.context, k) == Lookup(Sequential(u, ns, |ns|), u.context, k)
    ensures |Run(u, es).children| == |ns|
    ensures forall i :: 0 <= i < |ns| ==> Run(u, es).children[i] == SoloAt(u, i, ns[i]).child
  {
    hide Touched, ContextOk, Separated, Owns, Solo, ChildStep, Sequential, Run;
    var s := Run(u, es);
    Barrier(u, es);
    Projection(u, assign, es);
    SequentialHeap(u, assign, ns, |ns|);
    forall i: nat | i < |ns|
      ensures SoloAt(u, i, StepsOf(s, i)) == SoloAt(u, i, ns[i]) && s.children[i] == SoloAt(u, i, ns[i]).child
    {
      assert AsAlone(u, assign, s, i);
      var n := s.children[i].steps;
      if n <= ns[i] { HaltedStays(u, i, n, ns[i]); } else { HaltedStays(u, i, ns[i], n); }
    }
    forall b ensures Get(s.heap, b) == Get(Sequential(u, ns, |ns|), b) {
      if i :| 0 <= i < |ns| && Owns(assign, i, b) {
        assert AsAlone(u, assign, s, i);
      } else {
        assert Unowned(u, assign, b);
      }
    }
  }

  /** The same from what a caller can see to: every boxed key is used by one child only, or only read. */
  lemma KeysApartIsSequential(u: Setup, assign: Assignment, es: seq<Event>, ns: seq<nat>, k: Key)
    requires KeysApart(u, assign) && Run(u, es).next && |ns| == |u.programs|
    requires forall i :: 0 <= i < |ns| ==> SoloAt(u, i, ns[i]).child.halted
    ensures Lookup(Run(u, es).heap, u.context, k) == Lookup(Sequential(u, ns, |ns|), u.context, k)
    ensures |Run(u, es).children| == |ns|
    ensures forall i :: 0 <= i < |ns| ==> Run(u, es).children[i] == SoloAt(u, i, ns[i]).child
  {
    hide KeysApart, Separated, Run, Solo, Lookup, Sequential;
    KeysApartSeparates(u, assign);
    ParallelIsSequential(u, assign, es, ns, k);
  }

  /** Children that fill none of the boxes they find need no assignment at all: any number of them may read
      the same ones. */
  lemma ReadersAreApart(u: Setup)
    requires forall i :: ContextOk(u.context, i)
    requires forall i: nat, read: seq<Value>, n: nat :: i < |u.programs| && u.programs[i](read, n).Write? ==>
               BoxOf(u.context, u.programs[i](read, n).key).None?
    ensures KeysApart(u, map[])
  {
    forall i: nat, read: seq<Value>, n: nat | i < |u.programs|
        ensures UsesOwnKeys(u, map[], i, u.programs[i](read, n)) {
      var a := u.programs[i](read, n);
      if a.Read? && BoxOf(u.context, a.key).Some? {
        OldBoxes(u.context, a.key);
      }
    }
  }

  lemma OldBoxes(c: Context, k: Key)
    requires (forall i :: ContextOk(c, i)) && BoxOf(c, k).Some?
    ensures BoxOf(c, k).value.owner == 0
  {
    BoxIsKnown(c, k, 0);
    BoxIsKnown(c, k, 1);
  }

  /** A key without a box in the context Parallel was called with yields for next what it did before. */
  lemma UnboxedWritesStayInside(u: Setup, es: seq<Event>, k: Key)
    requires BoxOf(u.context, k).None?
    ensures Lookup(Run(u, es).heap, u.context, k) == Lookup(u.heap, u.context, k)
  {
  }

  /** And so does a key whose box no child was given. */
  lemma UntouchedBoxesKeep(u: Setup, assign: Assignment, es: seq<Event>, k: Key)
    requires Separated(u, assign) && BoxOf(u.context, k).Some? && Unowned(u, assign, BoxOf(u.context, k).value)
    ensures Lookup(Run(u, es).heap, u.context, k) == Lookup(u.heap, u.context, k)
  {
    Projection(u, assign, es);
  }

  // ----- Why the boxes must be separate -----

  function Writer(k: Key, v: Value): Program {
    (read: seq<Value>, steps: nat) => if steps == 0 then Write(0, k, v) else Halt
  }

  lemma RunMore(u: Setup, es: seq<Event>, e: Event)
    ensures Run(u, es + [e]) == Do(u, Run(u, es), e)
  {
    hide Do;
    assert (es + [e])[..|es|] == es;
  }

  function Racers(c: Context, h: Heap, k: Key, v: Value, w: Value): Setup {
    Setup([Writer(k, v), Writer(k, w)], c, h)
  }

  /** Fork both, let `i` write before `j`, let both finish. */
  function Race(i: nat, j: nat): seq<Event> {
    [] + [Spawn] + [Spawn] + [Step(i)] + [Step(j)] + [Step(0)] + [Step(1)] + [Next]
  }

  /** Two children that both fill one box: next finds the value of whichever wrote last. */
  lemma SharedBoxRaces(c: Context, h: Heap, k: Key, v: Value, w: Value)
    requires BoxOf(c, k).Some?
    ensures var u := Racers(c, h, k, v, w);
            && Run(u, Race(0, 1)).next && Lookup(Run(u, Race(0, 1)).heap, c, k) == w
            && Run(u, Race(1, 0)).next && Lookup(Run(u, Race(1, 0)).heap, c, k) == v
  {
    hide Do, Run, Lookup;
    RaceOutcome(c, h, k, v, w, 0, 1);
    RaceOutcome(c, h, k, v, w, 1, 0);
  }

  lemma Spawning(c: Context, h: Heap, k: Key, v: Value, w: Value)
    ensures var u := Racers(c, h, k, v, w);
            Do(u, Do(u, Run(u, []), Spawn), Spawn) == State([NewChild(c), NewChild(c)], h, 2, false)
  {
  }

  lemma Writing(c: Context, h: Heap, k: Key, v: Value, w: Value, s: State, i: nat)
    requires BoxOf(c, k).Some? && i < 2 && |s.children| == 2 && s.children[i] == NewChild(c) && !s.next
    ensures Do(Racers(c, h, k, v, w), s, Step(i))
         == s.(children := s.children[i := Child([c, c], [], 1, false)],
              heap := s.heap[BoxOf(c, k).value := if i == 0 then v else w])
  {
    hide Nearest, Run;
    assert [c] + [c] == [c, c];
  }

  lemma Halting(c: Context, h: Heap, k: Key, v: Value, w: Value, s: State)
    requires s.children == [Child([c, c], [], 1, false), Child([c, c], [], 1, false)] && s.group == 2 && !s.next
    ensures var u := Racers(c, h, k, v, w);
            var s' := Do(u, Do(u, Do(u, s, Step(0)), Step(1)), Next);
            s'.next && s'.heap == s.heap
  {
    hide BoxOf, Run;
    var u, t := Racers(c, h, k, v, w), Child([c, c], [], 2, true);
    var s1 := Do(u, s, Step(0));
    assert s1 == State([t, s.children[1]], s.heap, 1, false);
    var s2 := Do(u, s1, Step(1));
    assert s2.group == 0 && |s2.children| == 2 && s2.heap == s.heap;
  }

  lemma Finding(h: Heap, c: Context, k: Key)
    requires BoxOf(c, k).Some?
    ensures Lookup(h, c, k) == Get(h, BoxOf(c, k).value)
  {
  }

  lemma RaceOutcome(c: Context, h: Heap, k: Key, v: Value, w: Value, i: nat, j: nat)
    requires BoxOf(c, k).Some? && i + j == 1
    ensures var u := Racers(c, h, k, v, w);
            var s := Run(u, Race(i, j));
            s.next && Lookup(s.heap, c, k) == if j == 1 then w else v
  {
    hide Do, Run, ChildStep, Lookup, BoxOf, Enabled, Racers;
    var u := Racers(c, h, k, v, w);
    var e0: seq<Event> := [];
    var e2 := e0 + [Spawn] + [Spawn];
    RunMore(u, e0, Spawn);
    RunMore(u, e0 + [Spawn], Spawn);
    RunMore(u, e2, Step(i));
    RunMore(u, e2 + [Step(i)], Step(j));
    var e4 := e2 + [Step(i)] + [Step(j)];
    RunMore(u, e4, Step(0));
    RunMore(u, e4 + [Step(0)], Step(1));
    RunMore(u, e4 + [Step(0)] + [Step(1)], Next);
    var t := NewChild(c);
    var t' := Child([c, c], [], 1, false);
    var b := BoxOf(c, k).value;
    Spawning(c, h, k, v, w);
    var s2 := State([t, t], h, 2, false);
    Writing(c, h, k, v, w, s2, i);
    var vi, vj := if i == 0 then v else w, if j == 0 then v else w;
    var s3 := State([t, t][i := t'], h[b := vi], 2, false);
    Writing(c, h, k, v, w, s3, j);
    var s4 := State([t', t'], h[b := vi][b := vj], 2, false);
    assert [t, t][i := t'][j := t'] == [t', t'];
    Halting(c, h, k, v, w, s4);
    Finding(s4.heap, c, k);
  }
}
