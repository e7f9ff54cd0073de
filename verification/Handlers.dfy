/** Handlers, builders and their composition: Chain, handler lists, and middleware. */
module Handlers {

  import opened Options

  /** A call either panics or returns. */
  datatype Result<T> = Panic | Ok(value: T)

  type Key = string

  /** A handler: what it does with a context, and its key. */
  datatype Handler<B> = Handler(handle: B, id: Key)

  /** A builder makes a handler from the handlers that come next. */
  type Builder<!B> = seq<Handler<B>> -> Result<Handler<B>>

  type Composer<!B> = seq<Builder<B>> -> Builder<B>

  const NEXT_KEY: Key := "next"

  /** NoopHandler; `noop` is the behaviour that does nothing. */
  function Noop<B>(noop: B): Handler<B> {
    Handler(noop, NEXT_KEY)
  }

  // ----- Lists of handlers -----

  /** Of the first `n` handlers, the i-th is the last with this id. */
  ghost predicate LastAt<B>(hs: seq<Handler<B>>, n: nat, id: Key, i: nat) {
    i < n <= |hs| && hs[i].id == id && forall j :: i < j < n ==> hs[j].id != id
  }

  predicate HasId<B>(hs: seq<Handler<B>>, n: nat, id: Key) {
    exists i :: 0 <= i < n <= |hs| && hs[i].id == id
  }

  /** The handler found under a key: the last one of the list that has it. */
  ghost predicate IsLast<B>(hs: seq<Handler<B>>, n: nat, id: Key, h: Handler<B>) {
    exists i: nat :: LastAt(hs, n, id, i) && hs[i] == h
  }

  lemma OneMore<B>(hs: seq<Handler<B>>, n: nat, id: Key)
    requires n < |hs|
    ensures HasId(hs, n + 1, id) <==> HasId(hs, n, id) || hs[n].id == id
    ensures hs[n].id == id ==> IsLast(hs, n + 1, id, hs[n])
    ensures hs[n].id != id ==> forall h :: IsLast(hs, n, id, h) ==> IsLast(hs, n + 1, id, h)
  {
    if hs[n].id == id {
      assert LastAt(hs, n + 1, id, n);
    } else {
      assert forall i: nat :: LastAt(hs, n, id, i) ==> LastAt(hs, n + 1, id, i);
    }
  }

  method ToSet<B>(hs: seq<Handler<B>>) returns (found: map<Key, Handler<B>>)
    ensures forall id :: id in found <==> HasId(hs, |hs|, id)
    ensures forall id :: id in found ==> IsLast(hs, |hs|, id, found[id])
  {
    hide LastAt, IsLast;
    found := map[];
    for i := 0 to |hs|
      invariant forall id :: id in found <==> HasId(hs, i, id)
      invariant forall id :: id in found ==> IsLast(hs, i, id, found[id])
    {
      ghost var before := found;
      found := found[hs[i].id := hs[i]];
      forall id ensures (id in found <==> HasId(hs, i + 1, id)) && (id in found ==> IsLast(hs, i + 1, id, found[id])) {
        OneMore(hs, i, id);
      }
    }
  }

  method MustFind<B>(hs: seq<Handler<B>>, id: Key) returns (r: Result<Handler<B>>)
    ensures r.Panic? <==> forall i :: 0 <= i < |hs| ==> hs[i].id != id
    ensures r.Ok? ==> IsLast(hs, |hs|, id, r.value)
  {
    var found := ToSet(hs);
    r := if id in found then Ok(found[id]) else Panic;
  }

  function MustOne<B>(hs: seq<Handler<B>>): Result<Handler<B>> {
    if |hs| == 1 then Ok(hs[0]) else Panic
  }

  /** MustOne returns the handler of a list of one and panics on any other list. */
  lemma MustOneExactly<B>(h: Handler<B>, hs: seq<Handler<B>>)
    ensures MustOne([h]) == Ok(h)
    ensures MustOne(hs).Panic? <==> |hs| != 1
  {}

  // ----- Chain -----

  /** Each child gets the handler built from the children after it; `last` comes after the last child. */
  function Fold<B>(children: seq<Builder<B>>, last: Result<Handler<B>>): Result<Handler<B>> {
    if children == [] then last
    else
      var next := Fold(children[1..], last);
      if next.Panic? then Panic else children[0]([next.value])
  }

  /** Chain: the resulting builder ignores the handlers it is given. */
  function Chain<B>(children: seq<Builder<B>>, noop: B): Builder<B> {
    (next: seq<Handler<B>>) => Fold(children, Ok(Noop(noop)))
  }

  /** The source's loop, from the last child to the first. */
  method BuildChain<B>(children: seq<Builder<B>>, noop: B, ignored: seq<Handler<B>>) returns (r: Result<Handler<B>>)
    ensures r == Chain(children, noop)(ignored)
  {
    r := Ok(Noop(noop));
    var i := |children|;
    while i > 0
      invariant 0 <= i <= |children|
      invariant r == Fold(children[i..], Ok(Noop(noop)))
    {
      i := i - 1;
      assert children[i..][1..] == children[i + 1..];
      if r.Ok? {
        r := children[i]([r.value]);
      }
    }
    assert children[0..] == children;
  }

  lemma {:induction false} FoldConcat<B>(xs: seq<Builder<B>>, ys: seq<Builder<B>>, last: Result<Handler<B>>)
    ensures Fold(xs + ys, last) == Fold(xs, Fold(ys, last))
  {
    if xs == [] {
      assert xs + ys == ys;
    } else {
      FoldConcat(xs[1..], ys, last);
      assert (xs + ys)[1..] == xs[1..] + ys;
    }
  }

  lemma {:induction false} FoldPanic<B>(xs: seq<Builder<B>>)
    ensures Fold(xs, Panic) == Panic
  {
    if xs != [] {
      FoldPanic(xs[1..]);
    }
  }

  /** A chain inside a chain runs in place, and everything after it is dropped, whatever it is; what is
      dropped is still built, so it must not panic. */
  lemma ChainLaw<B>(xs: seq<Builder<B>>, ys: seq<Builder<B>>, zs: seq<Builder<B>>, noop: B,
                    next: seq<Handler<B>>, next': seq<Handler<B>>)
    ensures Chain(xs + [Chain(ys, noop)] + zs, noop)(next)
         == if Chain(zs, noop)(next).Ok? then Chain(xs + ys, noop)(next') else Panic
  {
    var last := Ok(Noop(noop));
    var mid := [Chain(ys, noop)];
    FoldConcat(xs + mid, zs, last);
    FoldConcat(xs, mid, Fold(zs, last));
    FoldConcat(xs, ys, last);
    FoldPanic(xs);
    var tail := Fold(zs, last);
    assert mid[1..] == [] && Fold(mid[1..], tail) == tail;
    assert Fold(mid, tail) == if tail.Panic? then Panic else Fold(ys, last);
  }

  /** Chain passes exactly one handler to every child, so with children that are content with exactly one,
      as those that use MustOne are, nothing in a chain panics. */
  lemma {:induction false} ChainNeverPanics<B(!new)>(children: seq<Builder<B>>, noop: B, next: seq<Handler<B>>)
    requires forall i, h :: 0 <= i < |children| ==> children[i]([h]).Ok?
    ensures Chain(children, noop)(next).Ok?
  {
    if children != [] {
      ChainNeverPanics(children[1..], noop, next);
      var h := Fold(children[1..], Ok(Noop(noop))).value;
      assert children[0]([h]).Ok?;
    }
  }

  // ----- What a chain does -----

  /** Here a behaviour maps a context to the effects it has, in order. */
  type Behaviour<!C, E> = C -> seq<E>

  /** One stage: its effects, and the context it calls the next handler with, if it does. */
  datatype Stage<!C, !E> = Stage(emit: C -> seq<E>, onward: C -> Option<C>, id: Key)

  function StageHandler<C, E>(st: Stage<C, E>, next: Behaviour<C, E>): Behaviour<C, E> {
    (c: C) => st.emit(c) + (var c' := st.onward(c); if c'.None? then [] else next(c'.value))
  }

  function StageBuilder<C, E>(st: Stage<C, E>): Builder<Behaviour<C, E>> {
    (next: seq<Handler<Behaviour<C, E>>>) =>
      var h := MustOne(next);
      if h.Panic? then Panic else Ok(Handler(StageHandler(st, h.value.handle), st.id))
  }

  function Builders<C, E>(stages: seq<Stage<C, E>>): seq<Builder<Behaviour<C, E>>> {
    if stages == [] then [] else [StageBuilder(stages[0])] + Builders(stages[1..])
  }

  /** Running the stages one after the other, in order, until one does not go on. */
  function Perform<C, E>(stages: seq<Stage<C, E>>, c: C): seq<E>
    decreases |stages|
  {
    if stages == [] then []
    else
      var c' := stages[0].onward(c);
      stages[0].emit(c) + (if c'.None? then [] else Perform(stages[1..], c'.value))
  }

  function Silent<C, E>(): Behaviour<C, E> {
    (c: C) => []
  }

  /** A chain of stages does what running the stages in order does, for every context. */
  lemma {:induction false} ChainTrace<C, E>(stages: seq<Stage<C, E>>, next: seq<Handler<Behaviour<C, E>>>, c: C)
    ensures var r := Chain(Builders(stages), Silent())(next); r.Ok? && r.value.handle(c) == Perform(stages, c)
    decreases |stages|
  {
    if stages != [] {
      assert Builders(stages)[1..] == Builders(stages[1..]);
      var rest := Chain(Builders(stages[1..]), Silent())(next);
      var c' := stages[0].onward(c);
      ChainTrace(stages[1..], next, if c'.None? then c else c'.value);
      assert MustOne([rest.value]) == Ok(rest.value);
    }
  }

  // ----- Middleware -----

  type HandlerMiddleware<!B> = Handler<B> -> Handler<B>
  type Middleware<!B> = Composer<B> -> Composer<B>

  /** MakeBuilderMiddleware: wrap whatever the builder builds. */
  function Wrap<B>(w: HandlerMiddleware<B>, b: Builder<B>): Builder<B> {
    (next: seq<Handler<B>>) => var r := b(next); if r.Panic? then Panic else Ok(w(r.value))
  }

  function WrapAll<B>(w: HandlerMiddleware<B>, bs: seq<Builder<B>>): (ws: seq<Builder<B>>)
    ensures |ws| == |bs|
    ensures forall i :: 0 <= i < |bs| ==> ws[i] == Wrap(w, bs[i])
  {
    seq(|bs|, i requires 0 <= i < |bs| => Wrap(w, bs[i]))
  }

  function MakeMiddleware<B>(w: HandlerMiddleware<B>): Middleware<B> {
    (f: Composer<B>) => (bs: seq<Builder<B>>) => f(WrapAll(w, bs))
  }

  /** WithMiddleware: the middlewares are applied to the composer one after the other. */
  function WithMiddleware<B>(composer: Composer<B>, ms: seq<Middleware<B>>): Composer<B> {
    if ms == [] then composer else ms[|ms| - 1](WithMiddleware(composer, ms[..|ms| - 1]))
  }

  method ApplyMiddleware<B>(composer: Composer<B>, ms: seq<Middleware<B>>) returns (out: Composer<B>)
    ensures out == WithMiddleware(composer, ms)
  {
    out := composer;
    for i := 0 to |ms|
      invariant out == WithMiddleware(composer, ms[..i])
    {
      out := ms[i](out);
      assert ms[..i + 1][..i] == ms[..i];
    }
    assert ms[..|ms|] == ms;
  }

  function Made<B>(ws: seq<HandlerMiddleware<B>>): (ms: seq<Middleware<B>>)
    ensures |ms| == |ws|
    ensures forall i :: 0 <= i < |ws| ==> ms[i] == MakeMiddleware(ws[i])
  {
    if ws == [] then [] else Made(ws[..|ws| - 1]) + [MakeMiddleware(ws[|ws| - 1])]
  }

  /** Wrapped by the last of the list first, so by the first of the list outermost. */
  function Nest<B>(ws: seq<HandlerMiddleware<B>>, bs: seq<Builder<B>>): (r: seq<Builder<B>>)
    ensures |r| == |bs|
  {
    if ws == [] then bs else Nest(ws[..|ws| - 1], WrapAll(ws[|ws| - 1], bs))
  }

  /** `w1 after w2 after ... after wn`. */
  function Compose<B>(ws: seq<HandlerMiddleware<B>>, h: Handler<B>): Handler<B> {
    if ws == [] then h else Compose(ws[..|ws| - 1], ws[|ws| - 1](h))
  }

  function Composite<B>(ws: seq<HandlerMiddleware<B>>): HandlerMiddleware<B> {
    (h: Handler<B>) => Compose(ws, h)
  }

  /** Composing peels off from the front too: the first listed middleware gets the handler last. */
  lemma {:induction false} FirstIsOutermost<B>(ws: seq<HandlerMiddleware<B>>, h: Handler<B>)
    requires ws != []
    ensures Compose(ws, h) == ws[0](Compose(ws[1..], h))
  {
    var n := |ws| - 1;
    if n == 0 {
      assert ws[1..] == [] && ws[..0] == [];
      assert Compose(ws[..0], ws[0](h)) == ws[0](h);
    } else {
      FirstIsOutermost(ws[..n], ws[n](h));
      assert ws[1..][..n - 1] == ws[..n][1..];
    }
  }

  /** For any composer at all, the middlewares only rewrite the builders it gets. */
  lemma {:induction false} MiddlewareNests<B>(f: Composer<B>, ws: seq<HandlerMiddleware<B>>, bs: seq<Builder<B>>)
    ensures WithMiddleware(f, Made(ws))(bs) == f(Nest(ws, bs))
  {
    if ws != [] {
      var n := |ws| - 1;
      assert Made(ws)[..n] == Made(ws[..n]);
      MiddlewareNests(f, ws[..n], WrapAll(ws[n], bs));
    }
  }

  /** What is built is the composite applied to what the wrapped builder builds. */
  lemma {:induction false} NestAt<B>(ws: seq<HandlerMiddleware<B>>, bs: seq<Builder<B>>, i: nat, next: seq<Handler<B>>)
    requires i < |bs|
    ensures Nest(ws, bs)[i](next) == var r := bs[i](next); if r.Panic? then Panic else Ok(Compose(ws, r.value))
  {
    if ws != [] {
      var n := |ws| - 1;
      NestAt(ws[..n], WrapAll(ws[n], bs), i, next);
      assert WrapAll(ws[n], bs)[i] == Wrap(ws[n], bs[i]);
    }
  }

  /** Fusion: with middlewares made from w1, ..., wn, a composer that only looks at what its builders do
      does what it does with every builder wrapped once, by w1 after w2 after ... after wn. */
  lemma MiddlewareFusion<B(!new)>(f: Composer<B>, ws: seq<HandlerMiddleware<B>>, bs: seq<Builder<B>>,
                           next: seq<Handler<B>>)
    requires forall xs: seq<Builder<B>>, ys: seq<Builder<B>> ::
               |xs| == |ys| && (forall i, n :: 0 <= i < |xs| ==> xs[i](n) == ys[i](n)) ==>
                   forall n :: f(xs)(n) == f(ys)(n)
    ensures WithMiddleware(f, Made(ws))(bs)(next) == f(WrapAll(Composite(ws), bs))(next)
  {
    MiddlewareNests(f, ws, bs);
    var xs, ys := Nest(ws, bs), WrapAll(Composite(ws), bs);
    forall i, n | 0 <= i < |xs| ensures xs[i](n) == ys[i](n) {
      NestAt(ws, bs, i, n);
      assert ys[i] == Wrap(Composite(ws), bs[i]);
    }
    assert f(xs)(next) == f(ys)(next);
  }

  lemma {:induction false} FoldSame<B(!new)>(xs: seq<Builder<B>>, ys: seq<Builder<B>>, last: Result<Handler<B>>)
    requires |xs| == |ys| && forall i, h :: 0 <= i < |xs| ==> xs[i]([h]) == ys[i]([h])
    ensures Fold(xs, last) == Fold(ys, last)
  {
    if xs != [] {
      FoldSame(xs[1..], ys[1..], last);
    }
  }

  function ChainComposer<B>(noop: B): Composer<B> {
    (bs: seq<Builder<B>>) => Chain(bs, noop)
  }

  /** Chain is such a composer; it even looks only at what its builders do with one next handler. */
  lemma ChainIsExtensional<B(!new)>(xs: seq<Builder<B>>, ys: seq<Builder<B>>, noop: B, next: seq<Handler<B>>,
                             next': seq<Handler<B>>)
    requires |xs| == |ys| && forall i, h :: 0 <= i < |xs| ==> xs[i]([h]) == ys[i]([h])
    ensures Chain(xs, noop)(next) == Chain(ys, noop)(next')
  {
    FoldSame(xs, ys, Ok(Noop(noop)));
  }

  /** Hence ChainWithMiddleware chains the builders each wrapped once. */
  lemma ChainWithMiddleware<B(!new)>(ws: seq<HandlerMiddleware<B>>, bs: seq<Builder<B>>, noop: B, next: seq<Handler<B>>)
    ensures WithMiddleware(ChainComposer(noop), Made(ws))(bs)(next) == Chain(WrapAll(Composite(ws), bs), noop)(next)
  {
    MiddlewareNests(ChainComposer(noop), ws, bs);
    var xs, ys := Nest(ws, bs), WrapAll(Composite(ws), bs);
    forall i, n: Handler<B> | 0 <= i < |xs| ensures xs[i]([n]) == ys[i]([n]) {
      NestAt(ws, bs, i, [n]);
      assert ys[i] == Wrap(Composite(ws), bs[i]);
    }
    ChainIsExtensional(xs, ys, noop, next, next);
  }
}
