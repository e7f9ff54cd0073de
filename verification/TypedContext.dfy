/** Contexts with typed keys. A context is a chain of bindings; a boxed key binds a pointer to a cell, so
    that a value set further down the chain can be read further up. */
module TypedContext {

  import opened Options

  type Value = int

  /** A key object: a BoxedKey, or a Key or DefaultingKey, with what it yields when nothing is bound. */
  datatype Key = Key(name: string, default: Value, boxed: bool)

  /** The address of a box: who allocated it and the how-manieth it was. */
  datatype BoxId = BoxId(owner: nat, index: nat)

  datatype Binding = Plain(value: Value) | Boxed(box: BoxId)

  datatype Context = Background | With(parent: Context, key: Key, binding: Binding)

  type Heap = map<BoxId, Value>

  function Get(h: Heap, b: BoxId): Value {
    if b in h then h[b] else 0
  }

  /** The context's own lookup: the binding nearest to the top. */
  function Nearest(c: Context, k: Key): Option<Binding> {
    match c
    case Background => None
    case With(parent, key, binding) => if key == k then Some(binding) else Nearest(parent, k)
  }

  /** The box a boxed key refers to in this context, if there is one. */
  function BoxOf(c: Context, k: Key): Option<BoxId> {
    var b := Nearest(c, k);
    if k.boxed && b.Some? && b.value.Boxed? then Some(b.value.box) else None
  }

  /** Value. */
  function Lookup(h: Heap, c: Context, k: Key): Value {
    var b := Nearest(c, k);
    if k.boxed then (if BoxOf(c, k).Some? then Get(h, BoxOf(c, k).value) else k.default)
    else if b.Some? && b.value.Plain? then b.value.value
    else k.default
  }

  /** Does some binding of the context mention the key? */
  predicate Bound(c: Context, k: Key) {
    c.With? && (c.key == k || Bound(c.parent, k))
  }

  /** A key that nothing in the context binds yields its default; a plain key that is bound yields the value bound
      last. */
  lemma {:induction false} LookupExactly(h: Heap, c: Context, k: Key)
    ensures !Bound(c, k) ==> Lookup(h, c, k) == k.default
    ensures c.With? && c.key == k && !k.boxed && c.binding.Plain? ==> Lookup(h, c, k) == c.binding.value
    ensures c.With? && c.key == k && k.boxed && c.binding.Boxed? && c.binding.box in h ==>
              Lookup(h, c, k) == h[c.binding.box]
    ensures c.With? && c.key != k ==> Lookup(h, c, k) == Lookup(h, c.parent, k)
  {
    if c.With? && c.key != k {
      LookupExactly(h, c.parent, k);
    }
  }

  datatype Updated = Updated(heap: Heap, context: Context)

  /** WithBox: a new box around the default. */
  function AddBox(h: Heap, c: Context, k: Key, addr: BoxId): Updated {
    Updated(h[addr := k.default], With(c, k, Boxed(addr)))
  }

  /** WithValue: fill the nearest box in place; without one, bind a new box, or the value for a plain key. */
  function SetValue(h: Heap, c: Context, k: Key, v: Value, addr: BoxId): Updated {
    if !k.boxed then Updated(h, With(c, k, Plain(v)))
    else if BoxOf(c, k).Some? then Updated(h[BoxOf(c, k).value := v], c)
    else Updated(h[addr := v], With(c, k, Boxed(addr)))
  }

  /** A value that was set is what the key yields in the resulting context. In any other context, under any
      key, it is seen if and only if the nearest box there is the box that was filled; everything else
      keeps its value, and other keys yield in the resulting context what they did before. */
  lemma WriteIsLocal(h: Heap, c: Context, k: Key, v: Value, addr: BoxId, d: Context, j: Key)
    requires BoxOf(d, j) != Some(addr) && BoxOf(c, j) != Some(addr)
    ensures var u := SetValue(h, c, k, v, addr);
            && Lookup(u.heap, u.context, k) == v
            && Lookup(u.heap, d, j) == (if BoxOf(c, k).Some? && BoxOf(d, j) == BoxOf(c, k) then v else Lookup(h, d, j))
            && (j != k && (BoxOf(c, k).None? || BoxOf(c, j) != BoxOf(c, k)) ==>
                  Lookup(u.heap, u.context, j) == Lookup(h, c, j))
  {
  }

  /** A new box shows the default and hides nothing from the contexts that existed before. */
  lemma BoxIsLocal(h: Heap, c: Context, k: Key, addr: BoxId, d: Context, j: Key)
    requires BoxOf(d, j) != Some(addr) && BoxOf(c, j) != Some(addr)
    ensures var u := AddBox(h, c, k, addr);
            && Lookup(u.heap, d, j) == Lookup(h, d, j)
            && (k.boxed ==> Lookup(u.heap, u.context, k) == k.default && BoxOf(u.context, k) == Some(addr))
            && (j != k ==> Lookup(u.heap, u.context, j) == Lookup(h, c, j))
  {
  }

  /** The memory that boxes live in, for one thread of control. */
  class Store {
    const owner: nat
    var heap: Heap
    var used: nat

    /** No box has been handed out under an address still to come. */
    ghost predicate Valid() reads this {
      forall b :: b in heap && b.owner == owner ==> b.index < used
    }

    constructor (owner: nat)
      ensures Valid() && this.owner == owner && heap == map[]
    {
      this.owner, heap, used := owner, map[], 0;
    }

    method Value(c: Context, k: Key) returns (v: Value)
      ensures v == Lookup(heap, c, k)
    {
      var binding := None;
      var at := c;
      while at.With? && binding.None?
        invariant if binding.None? then Nearest(c, k) == Nearest(at, k) else Nearest(c, k) == binding
        decreases at, binding.None?
      {
        if at.key == k { binding := Some(at.binding); }
        at := at.parent;
      }
      if k.boxed {
        if binding.Some? && binding.value.Boxed? { return Get(heap, binding.value.box); }
      } else if binding.Some? && binding.value.Plain? {
        return binding.value.value;
      }
      return k.default;
    }

    method WithBox(c: Context, k: Key) returns (r: Context)
      requires Valid()
      modifies this
      ensures Valid() && Updated(heap, r) == AddBox(old(heap), c, k, BoxId(owner, old(used)))
      ensures BoxId(owner, old(used)) !in old(heap)
    {
      heap := heap[BoxId(owner, used) := k.default];
      r := With(c, k, Boxed(BoxId(owner, used)));
      used := used + 1;
    }

    method WithValue(c: Context, k: Key, v: Value) returns (r: Context)
      requires Valid() && (BoxOf(c, k).Some? ==> BoxOf(c, k).value in heap)
      modifies this
      ensures Valid() && Updated(heap, r) == SetValue(old(heap), c, k, v, BoxId(owner, old(used)))
      ensures BoxId(owner, old(used)) !in old(heap)
    {
      if !k.boxed {
        r := With(c, k, Plain(v));
      } else if BoxOf(c, k).Some? {
        heap := heap[BoxOf(c, k).value := v];
        r := c;
      } else {
        heap := heap[BoxId(owner, used) := v];
        r := With(c, k, Boxed(BoxId(owner, used)));
        used := used + 1;
      }
    }
  }
}
