/** Waiting until the API server serves every custom resource that was installed. */
module Discovery {

  import opened Options

  datatype Version = Version(name: string, served: bool)
  datatype Crd = Crd(group: string, plural: string, versions: seq<Version>)

  /** One entry of a discovery response. */
  datatype ResourceList = ResourceList(groupVersion: string, names: seq<string>)

  /** A failed poll has no response. */
  type Response = Option<seq<ResourceList>>

  type Pair = (string, string)

  function GroupVersion(group: string, version: string): string {
    if group == "" then version else group + "/" + version
  }

  // ----- What is required and what has been seen -----

  ghost predicate Requires(c: Crd, p: Pair) {
    exists v :: v in c.versions && v.served && p == (GroupVersion(c.group, v.name), c.plural)
  }

  /** The served (group-version, plural) pairs of the definitions. */
  ghost predicate Required(crds: seq<Crd>, p: Pair) {
    exists c :: c in crds && Requires(c, p)
  }

  /** Required are the plurals of the served versions, under `group/version`, or `version` for the core group. */
  lemma RequiredExactly(crds: seq<Crd>, p: Pair)
    ensures Required(crds, p) <==>
            exists c, v :: c in crds && v in c.versions && v.served && p.1 == c.plural
                           && p.0 == if c.group == "" then v.name else c.group + "/" + v.name
  {
    if Required(crds, p) {
      var c :| c in crds && Requires(c, p);
      var v :| v in c.versions && v.served && p == (GroupVersion(c.group, v.name), c.plural);
    }
    if c, v :| c in crds && v in c.versions && v.served && p.1 == c.plural
               && p.0 == if c.group == "" then v.name else c.group + "/" + v.name {
      assert p == (GroupVersion(c.group, v.name), c.plural);
      assert Requires(c, p);
    }
  }

  ghost predicate Lists(lists: seq<ResourceList>, p: Pair) {
    exists l :: l in lists && l.groupVersion == p.0 && p.1 in l.names
  }

  /** Seen in some successful poll. */
  ghost predicate Seen(rs: seq<Response>, p: Pair) {
    exists r :: r in rs && r.Some? && Lists(r.value, p)
  }

  ghost predicate AllSeen(crds: seq<Crd>, rs: seq<Response>) {
    forall p :: Required(crds, p) ==> Seen(rs, p)
  }

  lemma SeenOneMore(rs: seq<Response>, r: Response, p: Pair)
    ensures Seen(rs + [r], p) <==> Seen(rs, p) || (r.Some? && Lists(r.value, p))
  {
    assert r in rs + [r];
    if q :| q in rs && q.Some? && Lists(q.value, p) { assert q in rs + [r]; }
  }

  lemma ListsOneMore(ls: seq<ResourceList>, n: nat, p: Pair)
    requires n < |ls|
    ensures Lists(ls[..n + 1], p) <==> Lists(ls[..n], p) || (ls[n].groupVersion == p.0 && p.1 in ls[n].names)
  {
    assert ls[..n + 1] == ls[..n] + [ls[n]];
    if l :| l in ls[..n] && l.groupVersion == p.0 && p.1 in l.names { assert l in ls[..n + 1]; }
    if ls[n].groupVersion == p.0 && p.1 in ls[n].names { assert ls[n] in ls[..n + 1]; }
  }

  lemma RequiredOneMore(crds: seq<Crd>, n: nat, p: Pair)
    requires n < |crds|
    ensures Required(crds[..n + 1], p) <==> Required(crds[..n], p) || Requires(crds[n], p)
  {
    hide Requires;
    assert crds[..n + 1] == crds[..n] + [crds[n]];
    if c :| c in crds[..n] && Requires(c, p) { assert c in crds[..n + 1]; }
    assert crds[n] in crds[..n + 1];
  }

  lemma RequiresOneMore(c: Crd, n: nat, p: Pair)
    requires n < |c.versions|
    ensures var v := c.versions[n];
            Requires(c.(versions := c.versions[..n + 1]), p) <==>
            Requires(c.(versions := c.versions[..n]), p) || (v.served && p == (GroupVersion(c.group, v.name), c.plural))
  {
    var c', c'' := c.(versions := c.versions[..n]), c.(versions := c.versions[..n + 1]);
    assert c''.versions == c'.versions + [c.versions[n]];
    if v :| v in c'.versions && v.served && p == (GroupVersion(c.group, v.name), c.plural) { assert v in c''.versions; }
    assert c.versions[n] in c''.versions;
  }

  // ----- The polling loop -----

  ghost predicate Has(m: map<string, set<string>>, p: Pair) {
    p.0 in m && p.1 in m[p.0]
  }

  ghost predicate NoEmptySet(m: map<string, set<string>>) {
    forall gv :: gv in m ==> m[gv] != {}
  }

  lemma EmptyIffNone(m: map<string, set<string>>)
    requires NoEmptySet(m)
    ensures m == map[] <==> forall p :: !Has(m, p)
  {
    if m != map[] {
      var gv :| gv in m;
      var name :| name in m[gv];
      assert Has(m, (gv, name));
    }
  }

  class Waiter {
    var remaining: map<string, set<string>>

    /** Collect the served pairs of all definitions. */
    constructor (crds: seq<Crd>)
      ensures NoEmptySet(remaining)
      ensures forall p :: Has(remaining, p) <==> Required(crds, p)
    {
      hide Requires, Required;
      var m: map<string, set<string>> := map[];
      EmptyRequired();
      for i := 0 to |crds|
        invariant NoEmptySet(m)
        invariant forall p :: Has(m, p) <==> Required(crds[..i], p)
      {
        var c := crds[i];
        ghost var before := m;
        EmptyVersions(c);
        for j := 0 to |c.versions|
          invariant NoEmptySet(m)
          invariant forall p :: Has(m, p) <==> Has(before, p) || Requires(c.(versions := c.versions[..j]), p)
        {
          var v := c.versions[j];
          forall p: Pair { RequiresOneMore(c, j, p); }
          if v.served {
            var gv := GroupVersion(c.group, v.name);
            if gv !in m {
              m := m[gv := {}];
            }
            m := m[gv := m[gv] + {c.plural}];
          }
        }
        assert c.versions[..|c.versions|] == c.versions;
        forall p: Pair { RequiredOneMore(crds, i, p); }
      }
      assert crds[..|crds|] == crds;
      remaining := m;
    }

    /** One poll. A failed one changes nothing and is never the last. */
    method Poll(response: Response) returns (done: bool)
      requires NoEmptySet(remaining)
      modifies this
      ensures NoEmptySet(remaining)
      ensures forall p :: Has(remaining, p) <==> Has(old(remaining), p) && !(response.Some? && Lists(response.value, p))
      ensures done <==> response.Some? && forall p :: !Has(remaining, p)
    {
      if response.None? {
        return false;
      }
      hide Lists;
      var lists := response.value;
      NothingListed();
      for i := 0 to |lists|
        invariant NoEmptySet(remaining)
        invariant forall p :: Has(remaining, p) <==> Has(old(remaining), p) && !Lists(lists[..i], p)
      {
        var l := lists[i];
        forall p: Pair { ListsOneMore(lists, i, p); }
        if l.groupVersion in remaining {
          Strike(l);
        }
      }
      assert lists[..|lists|] == lists;
      EmptyIffNone(remaining);
      done := |remaining| == 0;
    }

    /** Delete the names of one list, and the whole entry when nothing is left of it. */
    method Strike(l: ResourceList)
      requires NoEmptySet(remaining) && l.groupVersion in remaining
      modifies this
      ensures NoEmptySet(remaining)
      ensures forall p :: Has(remaining, p) <==> Has(old(remaining), p) && !(p.0 == l.groupVersion && p.1 in l.names)
    {
      var gv := l.groupVersion;
      ghost var m := remaining;
      for j := 0 to |l.names|
        invariant gv in remaining && remaining == m[gv := remaining[gv]]
        invariant forall name :: name in remaining[gv] <==> name in m[gv] && name !in l.names[..j]
      {
        remaining := remaining[gv := remaining[gv] - {l.names[j]}];
        assert l.names[..j + 1] == l.names[..j] + [l.names[j]];
      }
      assert l.names[..|l.names|] == l.names;
      if |remaining[gv]| == 0 {
        remaining := remaining - {gv};
      }
    }

    /** Poll until done. After any sequence of polls, failed or not, what remains is exactly what is required
        and has not been seen; waiting ends with the first successful poll after which everything has been. */
    method Wait(ghost crds: seq<Crd>, responses: seq<Response>) returns (n: nat, done: bool)
      requires NoEmptySet(remaining) && forall p :: Has(remaining, p) <==> Required(crds, p)
      modifies this
      ensures NoEmptySet(remaining) && n <= |responses|
      ensures forall p :: Has(remaining, p) <==> Required(crds, p) && !Seen(responses[..n], p)
      ensures done <==> n > 0 && responses[n - 1].Some? && AllSeen(crds, responses[..n])
      ensures !done ==> n == |responses|
      ensures forall k :: 0 < k < n && responses[k - 1].Some? ==> !AllSeen(crds, responses[..k])
    {
      hide Required, Lists;
      n, done := 0, false;
      NothingSeen();
      while n < |responses| && !done
        invariant NoEmptySet(remaining) && n <= |responses|
        invariant forall p :: Has(remaining, p) <==> Required(crds, p) && !Seen(responses[..n], p)
        invariant done <==> n > 0 && responses[n - 1].Some? && AllSeen(crds, responses[..n])
        invariant forall k :: 0 < k < n && responses[k - 1].Some? ==> !AllSeen(crds, responses[..k])
        decreases |responses| - n
      {
        done := Poll(responses[n]);
        assert responses[..n + 1] == responses[..n] + [responses[n]];
        forall p: Pair { SeenOneMore(responses[..n], responses[n], p); }
        n := n + 1;
      }
    }
  }

  /** waitForDiscovery, with the responses the server gives to the polls before the time is up. */
  method WaitForDiscovery(crds: seq<Crd>, responses: seq<Response>)
    returns (n: nat, done: bool, remaining: map<string, set<string>>)
    ensures NoEmptySet(remaining) && n <= |responses|
    ensures forall p :: Has(remaining, p) <==> Required(crds, p) && !Seen(responses[..n], p)
    ensures done <==> n > 0 && responses[n - 1].Some? && AllSeen(crds, responses[..n])
    ensures !done ==> n == |responses|
    ensures forall k :: 0 < k < n && responses[k - 1].Some? ==> !AllSeen(crds, responses[..k])
  {
    var waiter := new Waiter(crds);
    n, done := waiter.Wait(crds, responses);
    remaining := waiter.remaining;
  }

  lemma EmptyRequired()
    ensures forall p :: !Required([], p)
  {
  }

  lemma EmptyVersions(c: Crd)
    ensures forall p :: !Requires(c.(versions := c.versions[..0]), p)
  {
  }

  lemma NothingListed()
    ensures forall p :: !Lists([], p)
  {
  }

  lemma NothingSeen()
    ensures forall p :: !Seen([], p)
  {
  }
}
