/** Queue keys that carry the resource type: `resource.version.group::namespace/name`. */
module CacheKeys {

  import opened Options

  datatype Gvr = Gvr(group: string, version: string, resource: string)
  datatype Parsed = Parsed(gvr: Gvr, namespace: string, name: string)

  // ----- Printing -----

  function Prefix(g: Gvr): string {
    g.resource + ['.'] + (g.version + ['.'] + g.group)
  }

  /** GVRMetaNamespaceKeyer. */
  function Keyer(g: Gvr, key: string): string {
    Prefix(g) + "::" + key
  }

  /** The standard object key: the namespace is omitted when empty. */
  function ObjectKey(namespace: string, name: string): string {
    if namespace == "" then name else namespace + "/" + name
  }

  /** The format of a key, with and without a namespace. */
  lemma KeyFormat(group: string, version: string, resource: string, namespace: string, name: string)
    ensures Keyer(Gvr(group, version, resource), name) == resource + "." + version + "." + group + "::" + name
    ensures ObjectKey("", name) == name
    ensures namespace != "" ==> ObjectKey(namespace, name) == namespace + "/" + name
  {
    assert resource + ['.'] + (version + ['.'] + group) == resource + "." + version + "." + group;
  }

  // ----- Parsing -----

  /** The first occurrence of a character, or -1. */
  function Find(s: string, c: char): (i: int)
    ensures -1 <= i < |s|
    ensures i == -1 <==> c !in s
    ensures i >= 0 ==> s[i] == c && c !in s[..i]
  {
    if s == [] then -1
    else if s[0] == c then 0
    else var i := Find(s[1..], c); if i == -1 then -1 else i + 1
  }

  predicate SeparatorAt(s: string, i: int) {
    0 <= i && i + 1 < |s| && s[i] == ':' && s[i + 1] == ':'
  }

  /** Where `strings.Cut` splits at "::", or -1. */
  function FindSeparator(s: string): (i: int)
    ensures i == -1 || SeparatorAt(s, i)
    ensures forall j :: 0 <= j && (i == -1 || j < i) ==> !SeparatorAt(s, j)
  {
    if |s| < 2 then -1
    else if SeparatorAt(s, 0) then 0
    else
      var i := FindSeparator(s[1..]);
      assert forall j :: 1 <= j ==> (SeparatorAt(s, j) <==> SeparatorAt(s[1..], j - 1));
      if i == -1 then -1 else i + 1
  }

  /** Resource, version and group, if there are at least two dots; the group keeps further dots. */
  function ParseGvr(arg: string): Option<Gvr> {
    var i := Find(arg, '.');
    if i == -1 then None
    else
      var rest := arg[i + 1..];
      var j := Find(rest, '.');
      if j == -1 then None else Some(Gvr(rest[j + 1..], rest[..j], arg[..i]))
  }

  /** Namespace and name; more than one slash is an error. */
  function SplitObjectKey(key: string): Option<(string, string)> {
    var i := Find(key, '/');
    if i == -1 then Some(("", key))
    else if '/' in key[i + 1..] then None
    else Some((key[..i], key[i + 1..]))
  }

  /** SplitGVRMetaNamespaceKey. */
  function Split(key: string): Option<Parsed> {
    var i := FindSeparator(key);
    if i == -1 then None
    else
      var g := ParseGvr(key[..i]);
      if g.None? then None
      else
        var o := SplitObjectKey(key[i + 2..]);
        if o.None? then None else Some(Parsed(g.value, o.value.0, o.value.1))
  }

  ghost predicate Twice(s: string, c: char) {
    exists i, j :: 0 <= i < j < |s| && s[i] == c && s[j] == c
  }

  lemma TwiceExactly(s: string, c: char)
    ensures Twice(s, c) <==> Find(s, c) >= 0 && c in s[Find(s, c) + 1..]
  {
    hide Find;
    var k := Find(s, c);
    if Twice(s, c) {
      var i, j :| 0 <= i < j < |s| && s[i] == c && s[j] == c;
      assert s[k + 1..][j - k - 1] == c;
    }
    if k >= 0 && c in s[k + 1..] {
      var j :| 0 <= j < |s[k + 1..]| && s[k + 1..][j] == c;
      assert s[k + 1 + j] == c;
    }
  }

  /** Splitting fails exactly if there is no "::", if there are fewer than two dots before the first one, or if there
      are two slashes after it. */
  lemma SplitFails(s: string)
    ensures Split(s).None? <==>
            || (forall i :: !SeparatorAt(s, i))
            || (exists i :: SeparatorAt(s, i) && (forall j :: 0 <= j < i ==> !SeparatorAt(s, j))
                            && (!Twice(s[..i], '.') || Twice(s[i + 2..], '/')))
  {
    hide Find, FindSeparator, Twice;
    var i := FindSeparator(s);
    if i >= 0 {
      TwiceExactly(s[..i], '.');
      TwiceExactly(s[i + 2..], '/');
      assert SeparatorAt(s, i);
    }
  }

  // ----- Round trip -----

  /** The part before the separator can be found again and taken apart again. */
  ghost predicate CleanGvr(g: Gvr) {
    && '.' !in g.resource && '.' !in g.version
    && (forall i :: !SeparatorAt(Prefix(g), i))
    && Prefix(g)[|Prefix(g)| - 1] != ':'
  }

  /** Cutting at the first `c` undoes joining with `c`. */
  lemma {:induction false} CutJoin(a: string, c: char, b: string)
    requires c !in a
    ensures Find(a + [c] + b, c) == |a|
    ensures (a + [c] + b)[..|a|] == a && (a + [c] + b)[|a| + 1..] == b
  {
    var s := a + [c] + b;
    if a != "" {
      CutJoin(a[1..], c, b);
      assert s[1..] == a[1..] + [c] + b;
    }
  }

  /** Joining undoes cutting at the first `c`. */
  lemma JoinCut(s: string, c: char)
    requires c in s
    ensures var i := Find(s, c); s == s[..i] + [c] + s[i + 1..]
  {
    hide Find;
  }

  lemma ParsePrefix(g: Gvr)
    ensures ParseGvr(Prefix(g)) == Some(g) <==> '.' !in g.resource && '.' !in g.version
  {
    hide Find;
    var rest := g.version + ['.'] + g.group;
    if '.' !in g.resource && '.' !in g.version {
      CutJoin(g.resource, '.', rest);
      CutJoin(g.version, '.', g.group);
    }
  }

  /** Whatever parses as a resource is its printed form. */
  lemma ParseIsPrefix(arg: string)
    ensures ParseGvr(arg).Some? ==> Prefix(ParseGvr(arg).value) == arg
  {
    hide Find;
    if ParseGvr(arg).Some? {
      JoinCut(arg, '.');
      JoinCut(arg[Find(arg, '.') + 1..], '.');
    }
  }

  lemma SplitObject(namespace: string, name: string)
    ensures SplitObjectKey(ObjectKey(namespace, name)) == Some((namespace, name))
            <==> '/' !in namespace && '/' !in name
  {
    hide Find;
    if namespace != "" && '/' !in namespace {
      CutJoin(namespace, '/', name);
    }
  }

  /** In a built key the first separator is the printer's own exactly when the part before it has
      none and does not end in a colon. */
  lemma SeparatorPosition(p: string, key: string)
    requires p != ""
    ensures var s := p + "::" + key;
            var i := FindSeparator(s);
            && 0 <= i <= |p|
            && (i == |p| <==> (forall j :: !SeparatorAt(p, j)) && p[|p| - 1] != ':')
            && s[..|p|] == p && s[|p| + 2..] == key
  {
    hide FindSeparator;
    var s, n := p + "::" + key, |p|;
    var i := FindSeparator(s);
    assert SeparatorAt(s, n);
    assert forall j :: 0 <= j < n - 1 ==> (SeparatorAt(s, j) <==> SeparatorAt(p, j));
    assert SeparatorAt(s, n - 1) <==> p[n - 1] == ':';
  }

  /** Round trip: splitting a built key gives back exactly what it was built from, if and only if the
      printed resource is clean and neither the namespace nor the name contains a slash. */
  lemma RoundTrip(g: Gvr, namespace: string, name: string)
    ensures Split(Keyer(g, ObjectKey(namespace, name))) == Some(Parsed(g, namespace, name))
            <==> CleanGvr(g) && '/' !in namespace && '/' !in name
  {
    hide Find, FindSeparator, Prefix, ParseGvr, SplitObjectKey, ObjectKey;
    var key := ObjectKey(namespace, name);
    var s := Keyer(g, key);
    PrefixHasDots(g);
    SeparatorPosition(Prefix(g), key);
    ParsePrefix(g);
    SplitObject(namespace, name);
    ParseIsPrefix(s[..FindSeparator(s)]);
  }

  lemma PrefixHasDots(g: Gvr)
    ensures Prefix(g) != ""
  {
  }

  /** The other direction: printing what was parsed gives the key back, unless the object part starts
      with a slash, which the parser accepts and the printer never writes. */
  lemma PrintParse(s: string)
    requires Split(s).Some?
    ensures var p := Split(s).value;
            var object' := s[FindSeparator(s) + 2..];
            Keyer(p.gvr, ObjectKey(p.namespace, p.name)) == s <==> (object' != "" ==> object'[0] != '/')
  {
    hide Find, FindSeparator, Prefix, ParseGvr, SplitObjectKey, ObjectKey;
    var i := FindSeparator(s);
    var object' := s[i + 2..];
    ParseIsPrefix(s[..i]);
    PrintObject(object');
    var p := Split(s).value;
    SameTail(s[..i], object', ObjectKey(p.namespace, p.name));
    assert s == s[..i] + "::" + object';
  }

  lemma SameTail(a: string, b: string, c: string)
    ensures a + "::" + b == a + "::" + c <==> b == c
  {
    var x, y := a + "::" + b, a + "::" + c;
    assert x[|a| + 2..] == b && y[|a| + 2..] == c;
  }

  lemma PrintObject(key: string)
    requires SplitObjectKey(key).Some?
    ensures var (ns, name) := SplitObjectKey(key).value;
            ObjectKey(ns, name) == key <==> (key != "" ==> key[0] != '/')
  {
    hide Find;
    if '/' in key {
      JoinCut(key, '/');
    }
  }

  /** Hence the printer is injective on clean keys. */
  lemma KeyerInjective(g: Gvr, ns: string, name: string, g': Gvr, ns': string, name': string)
    requires CleanGvr(g) && '/' !in ns && '/' !in name
    requires CleanGvr(g') && '/' !in ns' && '/' !in name'
    requires Keyer(g, ObjectKey(ns, name)) == Keyer(g', ObjectKey(ns', name'))
    ensures g == g' && ns == ns' && name == name'
  {
    RoundTrip(g, ns, name);
    RoundTrip(g', ns', name');
  }
}
