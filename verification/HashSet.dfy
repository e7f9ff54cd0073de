/** A set that stores objects under their hash. */
module HashSet {

  type Elements<T> = map<string, T>

  /** Every object is stored under its own hash. */
  ghost predicate Keyed<T(!new)>(hash: T -> string, m: Elements<T>) {
    forall k :: k in m ==> hash(m[k]) == k
  }

  /** Objects in order: a later one replaces an earlier one with the same hash. */
  function Inserted<T(!new)>(hash: T -> string, m: Elements<T>, objects: seq<T>): Elements<T> {
    if objects == [] then m
    else
      var n := |objects| - 1;
      Inserted(hash, m, objects[..n])[hash(objects[n]) := objects[n]]
  }

  function Common<T(!new)>(m: Elements<T>, o: Elements<T>): Elements<T> {
    map k | k in m && k in o :: m[k]
  }

  function Only<T(!new)>(m: Elements<T>, o: Elements<T>): Elements<T> {
    map k | k in m && k !in o :: m[k]
  }

  /** Both, with the receiver's objects where they share a hash. */
  function Either<T(!new)>(m: Elements<T>, o: Elements<T>): Elements<T> {
    o + m
  }

  lemma {:induction false} InsertedMeaning<T(!new)>(hash: T -> string, m: Elements<T>, objects: seq<T>, k: string)
    ensures Keyed(hash, m) ==> Keyed(hash, Inserted(hash, m, objects))
    ensures k in Inserted(hash, m, objects) <==> k in m || exists i :: 0 <= i < |objects| && hash(objects[i]) == k
  {
    if objects != [] {
      var n := |objects| - 1;
      InsertedMeaning(hash, m, objects[..n], k);
      if i :| 0 <= i < |objects| && hash(objects[i]) == k {
        assert i < n ==> hash(objects[..n][i]) == k;
      }
      if i :| 0 <= i < n && hash(objects[..n][i]) == k {
        assert hash(objects[i]) == k;
      }
    }
  }

  /** The last object with a hash is the one that is stored; entries nobody replaces stay. */
  lemma {:induction false} LastWins<T(!new)>(hash: T -> string, m: Elements<T>, objects: seq<T>, i: nat, k: string)
    requires i <= |objects| && forall j :: i < j < |objects| ==> hash(objects[j]) != k
    ensures i < |objects| && hash(objects[i]) == k ==>
            k in Inserted(hash, m, objects) && Inserted(hash, m, objects)[k] == objects[i]
    ensures k in m && (forall j :: 0 <= j < |objects| ==> hash(objects[j]) != k) ==>
              k in Inserted(hash, m, objects) && Inserted(hash, m, objects)[k] == m[k]
  {
    if objects != [] {
      var n := |objects| - 1;
      LastWins(hash, m, objects[..n], if i <= n then i else n, k);
    }
  }

  /** Counting, with the receiver's objects in both results. */
  lemma UnionAndIntersection<T(!new)>(m: Elements<T>, o: Elements<T>)
    ensures |Either(m, o)| + |Common(m, o)| == |m| + |o|
    ensures |Only(m, o)| + |Common(m, o)| == |m|
    ensures forall k :: k in m ==> Either(m, o)[k] == m[k] && (k in o ==> Common(m, o)[k] == m[k])
  {
    hide Either, Common, Only;
    KeySets(m, o);
    SetSizes(m.Keys, o.Keys);
    Size(m);
    Size(o);
    Size(Either(m, o));
    Size(Common(m, o));
    Size(Only(m, o));
  }

  lemma KeySets<T(!new)>(m: Elements<T>, o: Elements<T>)
    ensures Either(m, o).Keys == m.Keys + o.Keys && Common(m, o).Keys == m.Keys * o.Keys
            && Only(m, o).Keys == m.Keys - o.Keys
    ensures forall k :: k in m ==> Either(m, o)[k] == m[k] && (k in o ==> Common(m, o)[k] == m[k])
  {
  }

  lemma SetSizes(a: set<string>, b: set<string>)
    ensures |a + b| + |a * b| == |a| + |b| && |a - b| + |a * b| == |a|
  {
    assert a - b == a - a * b;
    assert a + b == (a - b) + b;
  }

  lemma Size<T(!new)>(m: Elements<T>)
    ensures |m| == |m.Keys|
  {
  }

  /** Equal length and containment one way is equality of the key sets. */
  lemma EqualElementsExact<T(!new)>(m: Elements<T>, o: Elements<T>)
    ensures |m| == |o| && o.Keys <= m.Keys <==> m.Keys == o.Keys
  {
    Size(m);
    Size(o);
    if |m| == |o| && o.Keys <= m.Keys {
      assert |m.Keys - o.Keys| == |m.Keys| - |o.Keys|;
      assert m.Keys - o.Keys == {};
    }
  }

  /** With a hash that tells objects apart, equal key sets are equal sets of objects. */
  lemma EqualKeysEqualObjects<T(!new)>(hash: T -> string, m: Elements<T>, o: Elements<T>)
    requires Keyed(hash, m) && Keyed(hash, o) && forall x, y :: hash(x) == hash(y) ==> x == y
    ensures m.Keys == o.Keys <==> m == o
  {
    if m.Keys == o.Keys {
      forall k | k in m ensures m[k] == o[k] {
        assert hash(m[k]) == hash(o[k]);
      }
    }
  }

  class Set<T(!new)> {
    const hash: T -> string
    var elements: Elements<T>

    ghost predicate Valid() reads this {
      Keyed(hash, elements)
    }

    constructor (hash: T -> string, objects: seq<T>)
      ensures Valid() && this.hash == hash && elements == Inserted(hash, map[], objects)
    {
      this.hash := hash;
      elements := map[];
      new;
      Insert(objects);
    }

    method Insert(objects: seq<T>)
      requires Valid()
      modifies this
      ensures Valid() && elements == Inserted(hash, old(elements), objects)
    {
      for i := 0 to |objects|
        invariant Valid() && elements == Inserted(hash, old(elements), objects[..i])
      {
        elements := elements[hash(objects[i]) := objects[i]];
        assert objects[..i + 1][..i] == objects[..i];
      }
      assert objects[..|objects|] == objects;
    }

    method Delete(objects: seq<T>)
      requires Valid()
      modifies this
      ensures Valid()
      ensures elements == map k | k in old(elements)
              && (forall i :: 0 <= i < |objects| ==> hash(objects[i]) != k) :: old(elements)[k]
    {
      for i := 0 to |objects|
        invariant Valid()
        invariant elements == map k | k in old(elements)
                  && (forall j :: 0 <= j < i ==> hash(objects[j]) != k) :: old(elements)[k]
      {
        elements := elements - {hash(objects[i])};
      }
    }

    method Has(objects: seq<T>) returns (all: bool)
      ensures all <==> forall i :: 0 <= i < |objects| ==> hash(objects[i]) in elements
    {
      for i := 0 to |objects|
        invariant forall j :: 0 <= j < i ==> hash(objects[j]) in elements
      {
        if hash(objects[i]) !in elements { return false; }
      }
      return true;
    }

    method Intersect(other: Set<T>) returns (out: Elements<T>)
      ensures out == Common(elements, other.elements)
      ensures Valid() ==> Keyed(hash, out)
    {
      out := map[];
      var keys := elements.Keys;
      while keys != {}
        invariant keys <= elements.Keys
        invariant out == map k | k in elements && k !in keys && k in other.elements :: elements[k]
        decreases keys
      {
        var h :| h in keys;
        if h in other.elements { out := out[h := elements[h]]; }
        keys := keys - {h};
      }
    }

    method SetDifference(other: Set<T>) returns (out: Elements<T>)
      ensures out == Only(elements, other.elements)
      ensures Valid() ==> Keyed(hash, out)
    {
      out := map[];
      var keys := elements.Keys;
      while keys != {}
        invariant keys <= elements.Keys
        invariant out == map k | k in elements && k !in keys && k !in other.elements :: elements[k]
        decreases keys
      {
        var h :| h in keys;
        if h !in other.elements { out := out[h := elements[h]]; }
        keys := keys - {h};
      }
    }

    method Union(other: Set<T>) returns (out: Elements<T>)
      ensures out == Either(elements, other.elements)
      ensures Valid() && Keyed(hash, other.elements) ==> Keyed(hash, out)
    {
      out := map[];
      var keys := other.elements.Keys;
      while keys != {}
        invariant keys <= other.elements.Keys
        invariant out == map k | k in other.elements && k !in keys :: other.elements[k]
        decreases keys
      {
        var h :| h in keys;
        out := out[h := other.elements[h]];
        keys := keys - {h};
      }
      keys := elements.Keys;
      while keys != {}
        invariant keys <= elements.Keys
        invariant out == other.elements + map k | k in elements && k !in keys :: elements[k]
        decreases keys
      {
        var h :| h in keys;
        out := out[h := elements[h]];
        keys := keys - {h};
      }
    }

    method EqualElements(other: Set<T>) returns (equal: bool)
      ensures equal <==> elements.Keys == other.elements.Keys
    {
      EqualElementsExact(elements, other.elements);
      equal := |elements| == |other.elements| && forall h :: h in other.elements ==> h in elements;
    }

    /** Pop takes some element out, or returns the zero value of an empty set. */
    method Pop(zero: T) returns (x: T, found: bool)
      requires Valid()
      modifies this
      ensures Valid() && (found <==> old(elements) != map[])
      ensures found ==> hash(x) in old(elements) && old(elements)[hash(x)] == x && elements == old(elements) - {hash(x)}
      ensures !found ==> x == zero && elements == old(elements)
    {
      if elements == map[] {
        return zero, false;
      }
      var h :| h in elements;
      x, found := elements[h], true;
      elements := elements - {h};
    }

    /** Popping until nothing is found takes exactly as many steps as there were elements, and what was popped
        makes up exactly the set there was; so every element comes out once. */
    method PopAll(zero: T) returns (xs: seq<T>)
      requires Valid()
      modifies this
      ensures elements == map[] && |xs| == |old(elements)|
      ensures Inserted(hash, map[], xs) == old(elements)
      ensures forall i, j :: 0 <= i < j < |xs| ==> hash(xs[i]) != hash(xs[j])
    {
      xs := [];
      while true
        invariant Valid() && |xs| + |elements| == |old(elements)|
        invariant Inserted(hash, elements, xs) == old(elements)
        invariant forall i :: 0 <= i < |xs| ==> hash(xs[i]) !in elements
        invariant forall i, j :: 0 <= i < j < |xs| ==> hash(xs[i]) != hash(xs[j])
        decreases |elements|
      {
        ghost var before := elements;
        var x, found := Pop(zero);
        if !found { return; }
        assert before == elements[hash(x) := x];
        InsertLater(hash, elements, xs, x);
        xs := xs + [x];
      }
    }
  }

  lemma {:induction false} InsertLater<T(!new)>(hash: T -> string, m: Elements<T>, xs: seq<T>, x: T)
    requires forall i :: 0 <= i < |xs| ==> hash(xs[i]) != hash(x)
    ensures Inserted(hash, m, xs + [x]) == Inserted(hash, m[hash(x) := x], xs)
  {
    assert (xs + [x])[..|xs|] == xs;
    if xs != [] {
      var n := |xs| - 1;
      InsertLater(hash, m, xs[..n], x);
      assert (xs[..n] + [x])[..n] == xs[..n];
    }
  }
}
