/**
 * kong/grouper.py: partitions the context hashes of a KongState into the
 * groups the reporter emits one metric per, scoped by API or service, then
 * route, then HTTP method.
 */
module KongGrouper {
  import opened Wrappers
  import opened Glob
  import opened Utils
  import opened KongState
  import KongConfig

  /** A set of context hashes that is reported as one metric. */
  type Group = set<Hash>

  // ---------------------------------------------------------------------
  // Descriptor values and the sets they select

  /** `record[d]`, reading an absent descriptor as None. */
  function ValueOf(r: Record, d: Dim): Option<string>
  {
    if DimToken(d) in r.fields then r.fields[DimToken(d)] else None
  }

  /** Every record carries all six descriptors, so the grouper's `record[d]` reads never fail. */
  ghost predicate Complete(rm: map<Hash, Record>)
  {
    forall h, d :: h in rm ==> DimToken(d) in rm[h].fields
  }

  /** `ix` is the identity index of descriptor `d` over `rm`. */
  ghost predicate IndexOf(rm: map<Hash, Record>, ix: Index<Option<string>>, d: Dim)
  {
    forall v, h :: h in Lookup(ix, v) <==> h in rm && HasField(rm[h], d, v)
  }

  /** No index entry is empty (entries are only ever created by adding a hash). */
  ghost predicate Live(ix: Index<Option<string>>)
  {
    forall v :: v in ix ==> ix[v] != {}
  }

  /** The non-None keys of an index, as the grouper lists them. */
  function NonNoneKeys(ix: Index<Option<string>>): set<string>
  {
    set k | k in ix.Keys && k.Some? :: k.value
  }

  /** The members of `g` whose descriptor `d` has value `v`. */
  function Members(rm: map<Hash, Record>, g: Group, d: Dim, v: Option<string>): Group
  {
    set h | h in g && h in rm && ValueOf(rm[h], d) == v
  }

  /** The members of `g` whose value of `d` is one of `vs`. */
  function Claimed(rm: map<Hash, Record>, g: Group, d: Dim, vs: seq<string>): Group
  {
    set h | h in g && h in rm && ValueOf(rm[h], d).Some? && ValueOf(rm[h], d).value in vs
  }

  /** A pair of pattern lists, whitelist and blacklist. */
  datatype Filter = Filter(white: seq<Pattern>, black: seq<Pattern>)

  predicate Hit(f: Filter, s: string)
  {
    IsHit(f.white, f.black, s)
  }

  function Hits(xs: seq<string>, f: Filter): seq<string>
  {
    HitsOf(xs, f.white, f.black)
  }

  /** Record `h` has a non-None value of `d` that passes `f`. */
  predicate HitValue(rm: map<Hash, Record>, h: Hash, d: Dim, f: Filter)
    requires h in rm
  {
    ValueOf(rm[h], d).Some? && Hit(f, ValueOf(rm[h], d).value)
  }

  /** The members of `g` that no hit value claims (None values included): the catch-all. */
  function Rest(rm: map<Hash, Record>, g: Group, d: Dim, f: Filter): Group
  {
    set h | h in g && h in rm && !HitValue(rm, h, d, f)
  }

  /** The non-None values of `d` among the members of `g`. */
  function ValuesIn(rm: map<Hash, Record>, g: Group, d: Dim): set<string>
  {
    set h | h in g && h in rm && ValueOf(rm[h], d).Some? :: ValueOf(rm[h], d).value
  }

  /** The hit values of `d` among the members of `g`. */
  function HitValuesIn(rm: map<Hash, Record>, g: Group, d: Dim, f: Filter): set<string>
  {
    set h | h in g && h in rm && HitValue(rm, h, d, f) :: ValueOf(rm[h], d).value
  }

  /** The records with a non-None value of `d`: the union of the non-None entries of its index. */
  function WithValue(rm: map<Hash, Record>, d: Dim): Group
  {
    set h | h in rm && ValueOf(rm[h], d).Some?
  }

  /** `api_ids[None] & service_ids[None]`: the contexts no API or service routed. */
  function Unscoped(rm: map<Hash, Record>): Group
  {
    set h | h in rm && ValueOf(rm[h], ApiId).None? && ValueOf(rm[h], ServiceId).None?
  }

  /** `xs` lists the elements of `s`, each once, in some iteration order. */
  ghost predicate Enumerates<T(!new)>(xs: seq<T>, s: set<T>)
  {
    NoDuplicates(xs) && forall x :: x in xs <==> x in s
  }

  // ---------------------------------------------------------------------
  // Sequences of groups

  /** One group per value, in the order of `vs`. */
  function GroupsFor(rm: map<Hash, Record>, g: Group, d: Dim, vs: seq<string>): (gs: seq<Group>)
    ensures |gs| == |vs|
  {
    seq(|vs|, i requires 0 <= i < |vs| => Members(rm, g, d, Some(vs[i])))
  }

  /** A catch-all set is appended only when it is non-empty. */
  function NonEmpty(g: Group): seq<Group>
  {
    if g == {} then [] else [g]
  }

  function Union(gs: seq<Group>): Group
    decreases |gs|
  {
    if |gs| == 0 then {} else Union(gs[..|gs| - 1]) + gs[|gs| - 1]
  }

  /**
   * One distinct parent split by `d`: a group per hit value in the order of
   * `keys`, then the parent's catch-all when it is non-empty.
   */
  function Split(rm: map<Hash, Record>, g: Group, d: Dim, keys: seq<string>, f: Filter): seq<Group>
  {
    GroupsFor(rm, g, d, Hits(keys, f)) + NonEmpty(Rest(rm, g, d, f))
  }

  /** Each parent split in turn, with its own value order. */
  function SplitAll(rm: map<Hash, Record>, parents: seq<Group>, d: Dim, keys: seq<seq<string>>, f: Filter): seq<Group>
    requires |keys| == |parents|
    decreases |parents|
  {
    if |parents| == 0 then []
    else
      var n := |parents| - 1;
      SplitAll(rm, parents[..n], d, keys[..n], f) + Split(rm, parents[n], d, keys[n], f)
  }

  predicate Disjoint(gs: seq<Group>)
  {
    forall i, j :: 0 <= i < j < |gs| ==> gs[i] !! gs[j]
  }

  predicate NoneEmpty(gs: seq<Group>)
  {
    forall i :: 0 <= i < |gs| ==> gs[i] != {}
  }

  /** `gs` are non-empty, pairwise disjoint and cover exactly `s`. */
  predicate Partition(gs: seq<Group>, s: Group)
  {
    NoneEmpty(gs) && Disjoint(gs) && Union(gs) == s
  }

  /** Distinct groups `gs` and the indistinct set `rest` together partition `s`. */
  predicate Covers(gs: seq<Group>, rest: Group, s: Group)
  {
    NoneEmpty(gs) && Disjoint(gs) && Union(gs) !! rest && Union(gs) + rest == s
  }

  // ---------------------------------------------------------------------
  // Lemmas on group sequences

  lemma {:induction false} UnionMembers(gs: seq<Group>, h: Hash)
    ensures h in Union(gs) <==> exists i :: 0 <= i < |gs| && h in gs[i]
    decreases |gs|
  {
    if |gs| > 0 {
      var n := |gs| - 1;
      UnionMembers(gs[..n], h);
      if h in Union(gs[..n]) {
        var i :| 0 <= i < n && h in gs[..n][i];
        assert h in gs[i];
      }
      if exists i :: 0 <= i < |gs| && h in gs[i] {
        var i :| 0 <= i < |gs| && h in gs[i];
        if i < n {
          assert h in gs[..n][i];
        }
      }
    }
  }

  lemma UnionElement(gs: seq<Group>, i: int)
    requires 0 <= i < |gs|
    ensures gs[i] <= Union(gs)
  {
    forall h | h in gs[i]
      ensures h in Union(gs)
    {
      UnionMembers(gs, h);
    }
  }

  lemma {:induction false} UnionAppend(a: seq<Group>, b: seq<Group>)
    ensures Union(a + b) == Union(a) + Union(b)
    decreases |b|
  {
    if |b| == 0 {
      assert a + b == a;
    } else {
      var n := |b| - 1;
      UnionAppend(a, b[..n]);
      assert (a + b)[..|a + b| - 1] == a + b[..n];
    }
  }

  lemma DisjointAppend(a: seq<Group>, b: seq<Group>)
    requires Disjoint(a) && Disjoint(b) && Union(a) !! Union(b)
    ensures Disjoint(a + b)
  {
    forall i, j | 0 <= i < j < |a + b|
      ensures (a + b)[i] !! (a + b)[j]
    {
      if i < |a| && j >= |a| {
        UnionElement(a, i);
        UnionElement(b, j - |a|);
      }
    }
  }

  /** Partitions of disjoint sets concatenate into a partition of their union. */
  lemma PartitionAppend(a: seq<Group>, sa: Group, b: seq<Group>, sb: Group)
    requires Partition(a, sa) && Partition(b, sb) && sa !! sb
    ensures Partition(a + b, sa + sb)
  {
    DisjointAppend(a, b);
    UnionAppend(a, b);
  }

  lemma {:induction false} GroupsForUnion(rm: map<Hash, Record>, g: Group, d: Dim, vs: seq<string>)
    ensures Union(GroupsFor(rm, g, d, vs)) == Claimed(rm, g, d, vs)
    decreases |vs|
  {
    if |vs| > 0 {
      var n := |vs| - 1;
      GroupsForUnion(rm, g, d, vs[..n]);
      assert GroupsFor(rm, g, d, vs)[..n] == GroupsFor(rm, g, d, vs[..n]);
      forall h | h in g && h in rm && ValueOf(rm[h], d).Some?
        ensures ValueOf(rm[h], d).value in vs <==> ValueOf(rm[h], d).value in vs[..n] || ValueOf(rm[h], d).value == vs[n]
      {
        assert vs == vs[..n] + [vs[n]];
      }
    }
  }

  lemma GroupsForFacts(rm: map<Hash, Record>, g: Group, d: Dim, vs: seq<string>)
    requires NoDuplicates(vs) && forall v :: v in vs ==> v in ValuesIn(rm, g, d)
    ensures Partition(GroupsFor(rm, g, d, vs), Claimed(rm, g, d, vs))
  {
    var gs := GroupsFor(rm, g, d, vs);
    GroupsForUnion(rm, g, d, vs);
    forall i | 0 <= i < |gs|
      ensures gs[i] != {}
    {
      assert vs[i] in ValuesIn(rm, g, d);
      var h :| h in g && h in rm && ValueOf(rm[h], d).Some? && ValueOf(rm[h], d).value == vs[i];
      assert h in gs[i];
    }
  }

  /** The members a hit value claims and the catch-all divide the parent between them. */
  lemma ClaimedRest(rm: map<Hash, Record>, g: Group, d: Dim, keys: seq<string>, f: Filter, hits: seq<string>)
    requires Enumerates(keys, ValuesIn(rm, g, d)) && g <= rm.Keys
    requires forall v :: v in hits <==> v in keys && Hit(f, v)
    ensures Claimed(rm, g, d, hits) !! Rest(rm, g, d, f)
    ensures Claimed(rm, g, d, hits) + Rest(rm, g, d, f) == g
  {
    forall h | h in g && HitValue(rm, h, d, f)
      ensures h in Claimed(rm, g, d, hits)
    {
      assert ValueOf(rm[h], d).value in ValuesIn(rm, g, d);
    }
  }

  /** The catch-all, kept only when non-empty, partitions itself. */
  lemma NonEmptyPartition(g: Group)
    ensures Partition(NonEmpty(g), g)
  {
  }

  /** A hit value claims a member; the catch-all holds the rest. */
  lemma SplitPartition(rm: map<Hash, Record>, g: Group, d: Dim, keys: seq<string>, f: Filter)
    requires Enumerates(keys, ValuesIn(rm, g, d)) && g <= rm.Keys
    ensures Partition(Split(rm, g, d, keys, f), g)
  {
    var hits := Hits(keys, f);
    forall v
      ensures v in hits <==> v in keys && Hit(f, v)
    {
      HitsMembers(keys, f.white, f.black, v);
    }
    HitsNoDuplicates(keys, f);
    GroupsForFacts(rm, g, d, hits);
    ClaimedRest(rm, g, d, keys, f, hits);
    NonEmptyPartition(Rest(rm, g, d, f));
    PartitionAppend(GroupsFor(rm, g, d, hits), Claimed(rm, g, d, hits), NonEmpty(Rest(rm, g, d, f)), Rest(rm, g, d, f));
  }

  lemma {:induction false} HitsNoDuplicates(xs: seq<string>, f: Filter)
    requires NoDuplicates(xs)
    ensures NoDuplicates(Hits(xs, f))
    decreases |xs|
  {
    if |xs| > 0 {
      var n := |xs| - 1;
      assert NoDuplicates(xs[..n]);
      HitsNoDuplicates(xs[..n], f);
      HitsMembers(xs[..n], f.white, f.black, xs[n]);
    }
  }

  /** Splitting each of several disjoint parents partitions their union. */
  lemma {:induction false} SplitAllPartition(rm: map<Hash, Record>, parents: seq<Group>, d: Dim, keys: seq<seq<string>>, f: Filter)
    requires |keys| == |parents| && Disjoint(parents)
    requires forall i :: 0 <= i < |parents| ==> parents[i] <= rm.Keys && Enumerates(keys[i], ValuesIn(rm, parents[i], d))
    ensures Partition(SplitAll(rm, parents, d, keys, f), Union(parents))
    decreases |parents|
  {
    if |parents| > 0 {
      var n := |parents| - 1;
      var init := parents[..n];
      assert Disjoint(init);
      SplitAllPartition(rm, init, d, keys[..n], f);
      SplitPartition(rm, parents[n], d, keys[n], f);
      forall h | h in Union(init)
        ensures h !in parents[n]
      {
        UnionMembers(init, h);
      }
      PartitionAppend(SplitAll(rm, init, d, keys[..n], f), Union(init), Split(rm, parents[n], d, keys[n], f), parents[n]);
    }
  }

  /** The promoted groups and the leftover catch-all partition the indistinct set. */
  lemma PromoteCovers(rm: map<Hash, Record>, rest: Group, d: Dim, keys: seq<string>, f: Filter)
    requires Enumerates(keys, HitValuesIn(rm, rest, d, f)) && rest <= rm.Keys
    ensures Covers(GroupsFor(rm, rest, d, keys), Rest(rm, rest, d, f), rest)
  {
    forall v | v in keys
      ensures v in ValuesIn(rm, rest, d)
    {
      var h :| h in rest && h in rm && HitValue(rm, h, d, f) && ValueOf(rm[h], d).value == v;
    }
    GroupsForFacts(rm, rest, d, keys);
    forall h | h in rest && HitValue(rm, h, d, f)
      ensures ValueOf(rm[h], d).value in keys
    {
      assert ValueOf(rm[h], d).value in HitValuesIn(rm, rest, d, f);
    }
    forall h | h in rest && h in rm && ValueOf(rm[h], d).Some? && ValueOf(rm[h], d).value in keys
      ensures HitValue(rm, h, d, f)
    {
      var v := ValueOf(rm[h], d).value;
      assert v in HitValuesIn(rm, rest, d, f);
      var h' :| h' in rest && h' in rm && HitValue(rm, h', d, f) && ValueOf(rm[h'], d).value == v;
    }
  }

  lemma CoversJoin(a: seq<Group>, sa: Group, b: seq<Group>, rest: Group, sb: Group)
    requires Partition(a, sa) && Covers(b, rest, sb) && sa !! sb
    ensures Covers(a + b, rest, sa + sb)
  {
    DisjointAppend(a, b);
    UnionAppend(a, b);
  }

  lemma CoversUnion(a: seq<Group>, ra: Group, sa: Group, b: seq<Group>, rb: Group, sb: Group)
    requires Covers(a, ra, sa) && Covers(b, rb, sb) && sa !! sb
    ensures Covers(a + b, ra + rb, sa + sb)
  {
    DisjointAppend(a, b);
    UnionAppend(a, b);
  }

  // ---------------------------------------------------------------------
  // What each stage computes

  /** How one resource type (API or service) is grouped: its descriptors, `will_report_*` flags and lists. */
  datatype Scope = Scope(idDim: Dim, nameDim: Dim, reportIds: bool, reportNames: bool, ids: Filter, names: Filter)

  /** The set iteration orders the grouping of one resource type depends on. */
  datatype ScopeOrder = ScopeOrder(ids: seq<string>, nameKeys: seq<seq<string>>, names: seq<string>)

  /** The indistinct set of a resource type, which no iteration order affects. */
  function ScopedRest(rm: map<Hash, Record>, sc: Scope): Group
  {
    if sc.reportIds then
      set h | h in rm && ValueOf(rm[h], sc.idDim).Some? && !HitValue(rm, h, sc.idDim, sc.ids)
    else if sc.reportNames then
      set h | h in rm &&
        ((ValueOf(rm[h], sc.nameDim).None? && ValueOf(rm[h], sc.idDim).Some?) ||
         (ValueOf(rm[h], sc.nameDim).Some? && !HitValue(rm, h, sc.nameDim, sc.names)))
    else
      WithValue(rm, sc.idDim)
  }

  /** The contexts the distinct groups of a resource type hold. */
  function ScopedDistinct(rm: map<Hash, Record>, sc: Scope): Group
  {
    if sc.reportIds then set h | h in rm && HitValue(rm, h, sc.idDim, sc.ids)
    else if sc.reportNames then set h | h in rm && HitValue(rm, h, sc.nameDim, sc.names)
    else {}
  }

  predicate NameKeysFit(sc: Scope, o: ScopeOrder)
  {
    sc.reportIds && sc.reportNames ==> |o.nameKeys| == |Hits(o.ids, sc.ids)|
  }

  /**
   * `_get_api_or_service_scoped_groups`: with ID reporting, a group per hit
   * ID (split by name when names are reported too); with names only, a group
   * per hit name; otherwise no groups. Second component: the indistinct set.
   */
  function ScopedGroups(rm: map<Hash, Record>, sc: Scope, o: ScopeOrder): (seq<Group>, Group)
    requires NameKeysFit(sc, o)
  {
    if sc.reportIds then
      var parents := GroupsFor(rm, rm.Keys, sc.idDim, Hits(o.ids, sc.ids));
      (if sc.reportNames then SplitAll(rm, parents, sc.nameDim, o.nameKeys, sc.names) else parents,
       ScopedRest(rm, sc))
    else if sc.reportNames then
      (GroupsFor(rm, rm.Keys, sc.nameDim, Hits(o.names, sc.names)), ScopedRest(rm, sc))
    else
      ([], ScopedRest(rm, sc))
  }

  /** The orders a run may pick: each lists its set once. */
  ghost predicate ScopeOrdered(rm: map<Hash, Record>, identity: map<Dim, Index<Option<string>>>, sc: Scope, o: ScopeOrder)
    requires sc.idDim in identity && sc.nameDim in identity
  {
    Enumerates(o.ids, NonNoneKeys(identity[sc.idDim])) &&
    (sc.reportIds && sc.reportNames ==>
       |o.nameKeys| == |Hits(o.ids, sc.ids)| &&
       forall i :: 0 <= i < |o.nameKeys| ==>
         Enumerates(o.nameKeys[i], ValuesIn(rm, Members(rm, rm.Keys, sc.idDim, Some(Hits(o.ids, sc.ids)[i])), sc.nameDim))) &&
    (!sc.reportIds && sc.reportNames ==> Enumerates(o.names, NonNoneKeys(identity[sc.nameDim])))
  }

  /** Every value some record holds is a key of its index; with no empty entry, exactly those. */
  lemma KeysAreValues(rm: map<Hash, Record>, ix: Index<Option<string>>, d: Dim)
    requires Complete(rm) && IndexOf(rm, ix, d)
    ensures ValuesIn(rm, rm.Keys, d) <= NonNoneKeys(ix)
    ensures Live(ix) ==> NonNoneKeys(ix) == ValuesIn(rm, rm.Keys, d)
  {
    forall v | v in ValuesIn(rm, rm.Keys, d)
      ensures v in NonNoneKeys(ix)
    {
      var h :| h in rm && ValueOf(rm[h], d) == Some(v);
      assert h in Lookup(ix, Some(v));
      assert Some(v) in ix.Keys;
    }
    if Live(ix) {
      forall v | v in NonNoneKeys(ix)
        ensures v in ValuesIn(rm, rm.Keys, d)
      {
        assert Some(v) in ix;
        var h :| h in ix[Some(v)];
        assert h in Lookup(ix, Some(v));
        assert h in rm && HasField(rm[h], d, Some(v));
        assert ValueOf(rm[h], d).value == v;
      }
    }
  }

  /** Conditions under which a resource type's groups and indistinct set partition its contexts. */
  ghost predicate ScopeSound(rm: map<Hash, Record>, identity: map<Dim, Index<Option<string>>>, sc: Scope)
  {
    sc.idDim in identity && sc.nameDim in identity &&
    IndexOf(rm, identity[sc.idDim], sc.idDim) && IndexOf(rm, identity[sc.nameDim], sc.nameDim) &&
    Live(identity[sc.idDim]) && Live(identity[sc.nameDim]) &&
    // a named resource always has an ID
    forall h :: h in rm && ValueOf(rm[h], sc.nameDim).Some? ==> ValueOf(rm[h], sc.idDim).Some?
  }

  /**
   * The distinct groups are non-empty and pairwise disjoint, and together
   * with the indistinct set they are exactly the contexts of this resource type.
   */
  lemma ScopedCovers(rm: map<Hash, Record>, identity: map<Dim, Index<Option<string>>>, sc: Scope, o: ScopeOrder)
    requires Complete(rm) && ScopeSound(rm, identity, sc) && ScopeOrdered(rm, identity, sc, o)
    ensures ScopedGroups(rm, sc, o).1 == ScopedRest(rm, sc)
    ensures Covers(ScopedGroups(rm, sc, o).0, ScopedRest(rm, sc), WithValue(rm, sc.idDim))
    ensures Union(ScopedGroups(rm, sc, o).0) == ScopedDistinct(rm, sc)
  {
    var rest := ScopedRest(rm, sc);
    if sc.reportIds {
      KeysAreValues(rm, identity[sc.idDim], sc.idDim);
      var hits := Hits(o.ids, sc.ids);
      HitsNoDuplicates(o.ids, sc.ids);
      forall v ensures v in hits <==> v in o.ids && Hit(sc.ids, v) {
        HitsMembers(o.ids, sc.ids.white, sc.ids.black, v);
      }
      var parents := GroupsFor(rm, rm.Keys, sc.idDim, hits);
      GroupsForFacts(rm, rm.Keys, sc.idDim, hits);
      var claimed := Claimed(rm, rm.Keys, sc.idDim, hits);
      assert claimed == ScopedDistinct(rm, sc) by {
        forall h | h in rm && HitValue(rm, h, sc.idDim, sc.ids)
          ensures h in claimed
        {
          assert ValueOf(rm[h], sc.idDim).value in ValuesIn(rm, rm.Keys, sc.idDim);
        }
      }
      if sc.reportNames {
        SplitAllPartition(rm, parents, sc.nameDim, o.nameKeys, sc.names);
      }
    } else if sc.reportNames {
      KeysAreValues(rm, identity[sc.nameDim], sc.nameDim);
      var hits := Hits(o.names, sc.names);
      HitsNoDuplicates(o.names, sc.names);
      forall v ensures v in hits <==> v in o.names && Hit(sc.names, v) {
        HitsMembers(o.names, sc.names.white, sc.names.black, v);
      }
      GroupsForFacts(rm, rm.Keys, sc.nameDim, hits);
      var claimed := Claimed(rm, rm.Keys, sc.nameDim, hits);
      assert claimed == ScopedDistinct(rm, sc) by {
        forall h | h in rm && HitValue(rm, h, sc.nameDim, sc.names)
          ensures h in claimed
        {
          assert ValueOf(rm[h], sc.nameDim).value in ValuesIn(rm, rm.Keys, sc.nameDim);
        }
      }
    }
  }

  /**
   * `get_route_scoped_groups`: with route reporting, each distinct service
   * group is split by route, then the hit-route members of the service
   * catch-all are promoted into per-route groups; the rest stays indistinct.
   */
  function RouteScoped(rm: map<Hash, Record>, services: (seq<Group>, Group), reportRoutes: bool, routes: Filter,
                       routeKeys: seq<seq<string>>, promoted: seq<string>): (seq<Group>, Group)
    requires reportRoutes ==> |routeKeys| == |services.0|
  {
    if !reportRoutes then services
    else
      (SplitAll(rm, services.0, RouteId, routeKeys, routes) + GroupsFor(rm, services.1, RouteId, promoted),
       Rest(rm, services.1, RouteId, routes))
  }

  /** The orders a run may pick when parents and catch-all are split by `d`. */
  ghost predicate SplitOrdered(rm: map<Hash, Record>, parents: (seq<Group>, Group), d: Dim, report: bool, f: Filter,
                               keys: seq<seq<string>>, promoted: seq<string>)
  {
    report ==>
      |keys| == |parents.0| &&
      (forall i :: 0 <= i < |keys| ==> Enumerates(keys[i], ValuesIn(rm, parents.0[i], d))) &&
      Enumerates(promoted, HitValuesIn(rm, parents.1, d, f))
  }

  /** Route splitting only subdivides the service groups and moves members out of the catch-all. */
  lemma RouteCovers(rm: map<Hash, Record>, services: (seq<Group>, Group), s: Group, reportRoutes: bool, routes: Filter,
                    routeKeys: seq<seq<string>>, promoted: seq<string>)
    requires Covers(services.0, services.1, s) && s <= rm.Keys
    requires SplitOrdered(rm, services, RouteId, reportRoutes, routes, routeKeys, promoted)
    ensures Covers(RouteScoped(rm, services, reportRoutes, routes, routeKeys, promoted).0,
                   RouteScoped(rm, services, reportRoutes, routes, routeKeys, promoted).1, s)
  {
    if reportRoutes {
      var (sg, si) := services;
      forall i | 0 <= i < |sg|
        ensures sg[i] <= rm.Keys
      {
        UnionElement(sg, i);
      }
      SplitAllPartition(rm, sg, RouteId, routeKeys, routes);
      PromoteCovers(rm, si, RouteId, promoted, routes);
      CoversJoin(SplitAll(rm, sg, RouteId, routeKeys, routes), Union(sg),
                 GroupsFor(rm, si, RouteId, promoted), Rest(rm, si, RouteId, routes), si);
    }
  }

  /**
   * `get_http_method_scoped_groups` given the distinct parents and the
   * indistinct set: with method reporting off, the parents then the
   * non-empty remainder; otherwise each parent split by method, then the
   * groups promoted from the remainder, then what is left of it.
   */
  function HttpScoped(rm: map<Hash, Record>, parents: (seq<Group>, Group), reportMethods: bool, methods: Filter,
                      methodKeys: seq<seq<string>>, promoted: seq<string>): seq<Group>
    requires reportMethods ==> |methodKeys| == |parents.0|
  {
    if !reportMethods then parents.0 + NonEmpty(parents.1)
    else
      SplitAll(rm, parents.0, HttpMethod, methodKeys, methods) + GroupsFor(rm, parents.1, HttpMethod, promoted) +
      NonEmpty(Rest(rm, parents.1, HttpMethod, methods))
  }

  /** Appending the non-empty catch-all to distinct groups that cover with it yields a partition. */
  lemma CoversClose(gs: seq<Group>, rest: Group, s: Group)
    requires Covers(gs, rest, s)
    ensures Partition(gs + NonEmpty(rest), s)
  {
    PartitionAppend(gs, Union(gs), NonEmpty(rest), rest);
  }

  lemma HttpPartition(rm: map<Hash, Record>, parents: (seq<Group>, Group), s: Group, reportMethods: bool, methods: Filter,
                      methodKeys: seq<seq<string>>, promoted: seq<string>)
    requires Covers(parents.0, parents.1, s) && s <= rm.Keys
    requires SplitOrdered(rm, parents, HttpMethod, reportMethods, methods, methodKeys, promoted)
    ensures Partition(HttpScoped(rm, parents, reportMethods, methods, methodKeys, promoted), s)
  {
    var (dp, ip) := parents;
    if !reportMethods {
      CoversClose(dp, ip, s);
    } else {
      forall i | 0 <= i < |dp|
        ensures dp[i] <= rm.Keys
      {
        UnionElement(dp, i);
      }
      SplitAllPartition(rm, dp, HttpMethod, methodKeys, methods);
      PromoteCovers(rm, ip, HttpMethod, promoted, methods);
      var split := SplitAll(rm, dp, HttpMethod, methodKeys, methods);
      var prom := GroupsFor(rm, ip, HttpMethod, promoted);
      var rest := Rest(rm, ip, HttpMethod, methods);
      CoversJoin(split, Union(dp), prom, rest, ip);
      CoversClose(split + prom, rest, s);
    }
  }

  // ---------------------------------------------------------------------
  // The whole grouping

  /** What the grouper reads from the configuration: the two scopes, route and method settings. */
  datatype Plan = Plan(api: Scope, service: Scope, reportRoutes: bool, routes: Filter, reportMethods: bool, methods: Filter)

  /** The set iteration orders of one grouping run. */
  datatype Order = Order(api: ScopeOrder, service: ScopeOrder, routeKeys: seq<seq<string>>, routePromoted: seq<string>,
                         methodKeys: seq<seq<string>>, methodPromoted: seq<string>)

  predicate RouteKeysFit(rm: map<Hash, Record>, p: Plan, o: Order)
  {
    NameKeysFit(p.service, o.service) &&
    (p.reportRoutes ==> |o.routeKeys| == |ScopedGroups(rm, p.service, o.service).0|)
  }

  /** `get_route_scoped_groups` over the service groups. */
  function RouteGroups(rm: map<Hash, Record>, p: Plan, o: Order): (seq<Group>, Group)
    requires RouteKeysFit(rm, p, o)
  {
    RouteScoped(rm, ScopedGroups(rm, p.service, o.service), p.reportRoutes, p.routes, o.routeKeys, o.routePromoted)
  }

  /** `get_api_and_route_scoped_groups`: the API groups then the route groups, and both indistinct sets. */
  function ApiAndRoute(rm: map<Hash, Record>, p: Plan, o: Order): (seq<Group>, Group)
    requires NameKeysFit(p.api, o.api) && RouteKeysFit(rm, p, o)
  {
    var api := ScopedGroups(rm, p.api, o.api);
    var route := RouteGroups(rm, p, o);
    (api.0 + route.0, api.1 + route.1)
  }

  /** The API groups found under order `oa` joined to route groups found under order `o`. */
  lemma ApiAndRouteOf(rm: map<Hash, Record>, p: Plan, o: Order, oa: ScopeOrder, api: (seq<Group>, Group), route: (seq<Group>, Group))
    requires NameKeysFit(p.api, oa) && RouteKeysFit(rm, p, o)
    requires api == ScopedGroups(rm, p.api, oa) && route == RouteGroups(rm, p, o)
    ensures RouteKeysFit(rm, p, o.(api := oa)) && RouteGroups(rm, p, o.(api := oa)) == route
    ensures ApiAndRoute(rm, p, o.(api := oa)) == (api.0 + route.0, api.1 + route.1)
  {
    var o' := o.(api := oa);
    assert o'.service == o.service && o'.routeKeys == o.routeKeys && o'.routePromoted == o.routePromoted;
  }

  /** The parents of the method split: the unscoped group joins the indistinct set. */
  function Parents(rm: map<Hash, Record>, p: Plan, o: Order): (seq<Group>, Group)
    requires NameKeysFit(p.api, o.api) && RouteKeysFit(rm, p, o)
  {
    var ar := ApiAndRoute(rm, p, o);
    (ar.0, ar.1 + Unscoped(rm))
  }

  predicate Fits(rm: map<Hash, Record>, p: Plan, o: Order)
  {
    NameKeysFit(p.api, o.api) && RouteKeysFit(rm, p, o) &&
    (p.reportMethods ==> |o.methodKeys| == |Parents(rm, p, o).0|)
  }

  /** `get_http_method_scoped_groups`. */
  function Grouping(rm: map<Hash, Record>, p: Plan, o: Order): seq<Group>
    requires Fits(rm, p, o)
  {
    HttpScoped(rm, Parents(rm, p, o), p.reportMethods, p.methods, o.methodKeys, o.methodPromoted)
  }

  /** The orders a run may pick, stage by stage. */
  ghost predicate Ordered(rm: map<Hash, Record>, identity: map<Dim, Index<Option<string>>>, p: Plan, o: Order)
    requires p.api.idDim in identity && p.api.nameDim in identity
    requires p.service.idDim in identity && p.service.nameDim in identity
  {
    ScopeOrdered(rm, identity, p.api, o.api) && ScopeOrdered(rm, identity, p.service, o.service) &&
    SplitOrdered(rm, ScopedGroups(rm, p.service, o.service), RouteId, p.reportRoutes, p.routes, o.routeKeys, o.routePromoted) &&
    SplitOrdered(rm, Parents(rm, p, o), HttpMethod, p.reportMethods, p.methods, o.methodKeys, o.methodPromoted)
  }

  /** The API scope reads the `api_*` descriptors, the service scope the `service_*` ones. */
  predicate Shaped(p: Plan)
  {
    p.api.idDim == ApiId && p.api.nameDim == ApiName &&
    p.service.idDim == ServiceId && p.service.nameDim == ServiceName
  }

  /** No context belongs to both an API and a service. */
  ghost predicate ApiOrService(rm: map<Hash, Record>)
  {
    forall h :: h in rm ==> ValueOf(rm[h], ApiId).None? || ValueOf(rm[h], ServiceId).None?
  }

  lemma CoversExtend(gs: seq<Group>, rest: Group, s: Group, u: Group)
    requires Covers(gs, rest, s) && u !! s
    ensures Covers(gs, rest + u, s + u)
  {
  }

  /**
   * The groups are non-empty, pairwise disjoint, and their union is every
   * context, whatever order the sets were iterated in.
   */
  lemma GroupingPartition(rm: map<Hash, Record>, identity: map<Dim, Index<Option<string>>>, p: Plan, o: Order)
    requires Complete(rm) && Shaped(p) && ApiOrService(rm)
    requires ScopeSound(rm, identity, p.api) && ScopeSound(rm, identity, p.service)
    requires Ordered(rm, identity, p, o)
    ensures Fits(rm, p, o) && Partition(Grouping(rm, p, o), rm.Keys)
  {
    var withApi := WithValue(rm, ApiId);
    var withService := WithValue(rm, ServiceId);
    ScopedCovers(rm, identity, p.api, o.api);
    ScopedCovers(rm, identity, p.service, o.service);
    var services := ScopedGroups(rm, p.service, o.service);
    RouteCovers(rm, services, withService, p.reportRoutes, p.routes, o.routeKeys, o.routePromoted);
    var api := ScopedGroups(rm, p.api, o.api);
    var route := RouteGroups(rm, p, o);
    CoversUnion(api.0, api.1, withApi, route.0, route.1, withService);
    CoversExtend(api.0 + route.0, api.1 + route.1, withApi + withService, Unscoped(rm));
    assert withApi + withService + Unscoped(rm) == rm.Keys;
    HttpPartition(rm, Parents(rm, p, o), rm.Keys, p.reportMethods, p.methods, o.methodKeys, o.methodPromoted);
  }

  // ---------------------------------------------------------------------
  // What each configuration of a resource type yields

  /** A list whose every element is a miss has no hits. */
  lemma NoHits(xs: seq<string>, f: Filter)
    requires forall v :: v in xs ==> !Hit(f, v)
    ensures Hits(xs, f) == []
  {
    if |Hits(xs, f)| > 0 {
      HitsMembers(xs, f.white, f.black, Hits(xs, f)[0]);
    }
  }

  /** Every value some record holds is listed by an order the run may pick. */
  lemma ListedValue(rm: map<Hash, Record>, identity: map<Dim, Index<Option<string>>>, d: Dim, ids: seq<string>, h: Hash)
    requires Complete(rm) && d in identity && IndexOf(rm, identity[d], d)
    requires Enumerates(ids, NonNoneKeys(identity[d])) && h in rm && ValueOf(rm[h], d).Some?
    ensures ValueOf(rm[h], d).value in ids && h in Lookup(identity[d], ValueOf(rm[h], d))
  {
    KeysAreValues(rm, identity[d], d);
    assert ValueOf(rm[h], d).value in ValuesIn(rm, rm.Keys, d);
  }

  /**
   * Neither IDs nor names reported: no groups, and the indistinct set is the
   * union of the index entries of the listed IDs (empty when there are none).
   */
  lemma UnreportedScope(rm: map<Hash, Record>, identity: map<Dim, Index<Option<string>>>, sc: Scope, o: ScopeOrder)
    requires Complete(rm) && !sc.reportIds && !sc.reportNames && sc.idDim in identity && sc.nameDim in identity
    requires IndexOf(rm, identity[sc.idDim], sc.idDim) && ScopeOrdered(rm, identity, sc, o)
    ensures ScopedGroups(rm, sc, o).0 == []
    ensures forall h :: h in ScopedGroups(rm, sc, o).1 <==> exists v :: v in o.ids && h in Lookup(identity[sc.idDim], Some(v))
    ensures o.ids == [] ==> ScopedGroups(rm, sc, o).1 == {}
  {
    forall h | h in ScopedGroups(rm, sc, o).1
      ensures exists v :: v in o.ids && h in Lookup(identity[sc.idDim], Some(v))
    {
      ListedValue(rm, identity, sc.idDim, o.ids, h);
    }
  }

  /**
   * When every listed ID is blacklisted (so none is a hit, whatever the
   * whitelist says), ID reporting yields no groups and every context with an
   * ID is indistinct.
   */
  lemma AllIdsBlacklisted(rm: map<Hash, Record>, identity: map<Dim, Index<Option<string>>>, sc: Scope, o: ScopeOrder)
    requires Complete(rm) && sc.reportIds && sc.idDim in identity && sc.nameDim in identity
    requires IndexOf(rm, identity[sc.idDim], sc.idDim) && ScopeOrdered(rm, identity, sc, o)
    requires forall v :: v in o.ids ==> AnyMatch(sc.ids.black, v)
    ensures NameKeysFit(sc, o) && ScopedGroups(rm, sc, o) == ([], WithValue(rm, sc.idDim))
  {
    NoHits(o.ids, sc.ids);
    forall h | h in WithValue(rm, sc.idDim)
      ensures !HitValue(rm, h, sc.idDim, sc.ids)
    {
      ListedValue(rm, identity, sc.idDim, o.ids, h);
    }
    assert ScopedRest(rm, sc) == WithValue(rm, sc.idDim);
  }

  /**
   * IDs without names: one group per hit ID, in listing order, and that group
   * is exactly the ID's index entry; the indistinct set is the union of the
   * entries of the missed IDs.
   */
  lemma IdGroups(rm: map<Hash, Record>, identity: map<Dim, Index<Option<string>>>, sc: Scope, o: ScopeOrder)
    requires Complete(rm) && sc.reportIds && !sc.reportNames && sc.idDim in identity && sc.nameDim in identity
    requires IndexOf(rm, identity[sc.idDim], sc.idDim) && ScopeOrdered(rm, identity, sc, o)
    ensures |ScopedGroups(rm, sc, o).0| == |Hits(o.ids, sc.ids)|
    ensures forall i :: 0 <= i < |Hits(o.ids, sc.ids)| ==>
      Hit(sc.ids, Hits(o.ids, sc.ids)[i]) &&
      ScopedGroups(rm, sc, o).0[i] == Lookup(identity[sc.idDim], Some(Hits(o.ids, sc.ids)[i]))
    ensures forall h :: h in ScopedGroups(rm, sc, o).1 <==>
      exists v :: v in o.ids && !Hit(sc.ids, v) && h in Lookup(identity[sc.idDim], Some(v))
  {
    var ix := identity[sc.idDim];
    var hits := Hits(o.ids, sc.ids);
    forall i | 0 <= i < |hits|
      ensures Hit(sc.ids, hits[i]) && ScopedGroups(rm, sc, o).0[i] == Lookup(ix, Some(hits[i]))
    {
      HitsMembers(o.ids, sc.ids.white, sc.ids.black, hits[i]);
      IndexMembers(rm, ix, sc.idDim, rm.Keys, Some(hits[i]));
    }
    forall h | h in ScopedGroups(rm, sc, o).1
      ensures exists v :: v in o.ids && !Hit(sc.ids, v) && h in Lookup(ix, Some(v))
    {
      ListedValue(rm, identity, sc.idDim, o.ids, h);
    }
  }

  /** With IDs reported, all members of a distinct group carry the same ID. */
  lemma {:induction false} SplitAllWithinParents(rm: map<Hash, Record>, parents: seq<Group>, d: Dim, keys: seq<seq<string>>, f: Filter, j: int)
    requires |keys| == |parents| && 0 <= j < |SplitAll(rm, parents, d, keys, f)|
    ensures exists i :: 0 <= i < |parents| && SplitAll(rm, parents, d, keys, f)[j] <= parents[i]
    decreases |parents|
  {
    var n := |parents| - 1;
    var init := SplitAll(rm, parents[..n], d, keys[..n], f);
    if j < |init| {
      SplitAllWithinParents(rm, parents[..n], d, keys[..n], f, j);
      var i :| 0 <= i < n && init[j] <= parents[..n][i];
      assert parents[..n][i] == parents[i];
    } else {
      assert SplitAll(rm, parents, d, keys, f)[j] <= parents[n];
    }
  }

  lemma IdGroupsShareId(rm: map<Hash, Record>, sc: Scope, o: ScopeOrder, i: int, h: Hash, h': Hash)
    requires sc.reportIds && NameKeysFit(sc, o) && 0 <= i < |ScopedGroups(rm, sc, o).0|
    requires h in ScopedGroups(rm, sc, o).0[i] && h' in ScopedGroups(rm, sc, o).0[i]
    ensures h in rm && h' in rm && ValueOf(rm[h], sc.idDim) == ValueOf(rm[h'], sc.idDim)
  {
    var parents := GroupsFor(rm, rm.Keys, sc.idDim, Hits(o.ids, sc.ids));
    if sc.reportNames {
      SplitAllWithinParents(rm, parents, sc.nameDim, o.nameKeys, sc.names, i);
    }
  }

  /** Every member of `g` carries the same value `v` of `d`, and `v` passes `f`. */
  ghost predicate OneHitValue(rm: map<Hash, Record>, g: Group, d: Dim, f: Filter)
  {
    exists v :: Hit(f, v) && forall h :: h in g ==> h in rm && ValueOf(rm[h], d) == Some(v)
  }

  /** No member of `g` has a value of `d` that passes `f`: each is None or missed. */
  ghost predicate NoHitValue(rm: map<Hash, Record>, g: Group, d: Dim, f: Filter)
  {
    forall h :: h in g ==> h in rm && !HitValue(rm, h, d, f)
  }

  /** A group of one split is one hit value's members or the parent's catch-all. */
  lemma SplitShape(rm: map<Hash, Record>, g: Group, d: Dim, keys: seq<string>, f: Filter, j: int)
    requires 0 <= j < |Split(rm, g, d, keys, f)|
    ensures OneHitValue(rm, Split(rm, g, d, keys, f)[j], d, f) || NoHitValue(rm, Split(rm, g, d, keys, f)[j], d, f)
  {
    var hits := Hits(keys, f);
    if j < |hits| {
      HitsMembers(keys, f.white, f.black, hits[j]);
      assert Split(rm, g, d, keys, f)[j] == Members(rm, g, d, Some(hits[j]));
    } else {
      assert Split(rm, g, d, keys, f)[j] == Rest(rm, g, d, f);
    }
  }

  /** Every group of a split of several parents is one hit value's members or a catch-all. */
  lemma {:induction false} SplitAllShape(rm: map<Hash, Record>, parents: seq<Group>, d: Dim, keys: seq<seq<string>>, f: Filter, j: int)
    requires |keys| == |parents| && 0 <= j < |SplitAll(rm, parents, d, keys, f)|
    ensures OneHitValue(rm, SplitAll(rm, parents, d, keys, f)[j], d, f) ||
            NoHitValue(rm, SplitAll(rm, parents, d, keys, f)[j], d, f)
    decreases |parents|
  {
    var n := |parents| - 1;
    var init := SplitAll(rm, parents[..n], d, keys[..n], f);
    assert SplitAll(rm, parents, d, keys, f) == init + Split(rm, parents[n], d, keys[n], f);
    if j < |init| {
      SplitAllShape(rm, parents[..n], d, keys[..n], f, j);
    } else {
      SplitShape(rm, parents[n], d, keys[n], f, j - |init|);
    }
  }

  /**
   * IDs and names reported: every distinct group shares one ID, and either
   * all its members carry the same hit name (a `name_store[name] & id`
   * group) or none of them has a hit name (the ID's catch-all of unnamed
   * and missed names).
   */
  lemma IdNameGroups(rm: map<Hash, Record>, sc: Scope, o: ScopeOrder, i: int)
    requires sc.reportIds && sc.reportNames && NameKeysFit(sc, o) && 0 <= i < |ScopedGroups(rm, sc, o).0|
    ensures forall h, h' :: h in ScopedGroups(rm, sc, o).0[i] && h' in ScopedGroups(rm, sc, o).0[i] ==>
              h in rm && h' in rm && ValueOf(rm[h], sc.idDim) == ValueOf(rm[h'], sc.idDim)
    ensures OneHitValue(rm, ScopedGroups(rm, sc, o).0[i], sc.nameDim, sc.names) ||
            NoHitValue(rm, ScopedGroups(rm, sc, o).0[i], sc.nameDim, sc.names)
  {
    var parents := GroupsFor(rm, rm.Keys, sc.idDim, Hits(o.ids, sc.ids));
    SplitAllShape(rm, parents, sc.nameDim, o.nameKeys, sc.names, i);
    forall h, h' | h in ScopedGroups(rm, sc, o).0[i] && h' in ScopedGroups(rm, sc, o).0[i]
      ensures h in rm && h' in rm && ValueOf(rm[h], sc.idDim) == ValueOf(rm[h'], sc.idDim)
    {
      IdGroupsShareId(rm, sc, o, i, h, h');
    }
  }

  /**
   * Names only: one group per hit name, exactly that name's index entry; the
   * indistinct set is the unnamed contexts that have an ID plus the entries
   * of the missed names.
   */
  lemma NameGroups(rm: map<Hash, Record>, identity: map<Dim, Index<Option<string>>>, sc: Scope, o: ScopeOrder)
    requires Complete(rm) && !sc.reportIds && sc.reportNames && sc.idDim in identity && sc.nameDim in identity
    requires IndexOf(rm, identity[sc.nameDim], sc.nameDim) && ScopeOrdered(rm, identity, sc, o)
    ensures |ScopedGroups(rm, sc, o).0| == |Hits(o.names, sc.names)|
    ensures forall i :: 0 <= i < |Hits(o.names, sc.names)| ==>
      Hit(sc.names, Hits(o.names, sc.names)[i]) &&
      ScopedGroups(rm, sc, o).0[i] == Lookup(identity[sc.nameDim], Some(Hits(o.names, sc.names)[i]))
    ensures forall h :: h in ScopedGroups(rm, sc, o).1 <==>
      (h in Lookup(identity[sc.nameDim], None) && h in WithValue(rm, sc.idDim)) ||
      exists v :: v in o.names && !Hit(sc.names, v) && h in Lookup(identity[sc.nameDim], Some(v))
  {
    NameGroupsHit(rm, identity, sc, o);
    NameGroupsRest(rm, identity, sc, o);
  }

  lemma NameGroupsHit(rm: map<Hash, Record>, identity: map<Dim, Index<Option<string>>>, sc: Scope, o: ScopeOrder)
    requires Complete(rm) && !sc.reportIds && sc.reportNames && sc.nameDim in identity
    requires IndexOf(rm, identity[sc.nameDim], sc.nameDim)
    ensures |ScopedGroups(rm, sc, o).0| == |Hits(o.names, sc.names)|
    ensures forall i :: 0 <= i < |Hits(o.names, sc.names)| ==>
      Hit(sc.names, Hits(o.names, sc.names)[i]) &&
      ScopedGroups(rm, sc, o).0[i] == Lookup(identity[sc.nameDim], Some(Hits(o.names, sc.names)[i]))
  {
    var ix := identity[sc.nameDim];
    var hits := Hits(o.names, sc.names);
    forall i | 0 <= i < |hits|
      ensures Hit(sc.names, hits[i]) && ScopedGroups(rm, sc, o).0[i] == Lookup(ix, Some(hits[i]))
    {
      HitsMembers(o.names, sc.names.white, sc.names.black, hits[i]);
      IndexMembers(rm, ix, sc.nameDim, rm.Keys, Some(hits[i]));
    }
  }

  lemma NameGroupsRest(rm: map<Hash, Record>, identity: map<Dim, Index<Option<string>>>, sc: Scope, o: ScopeOrder)
    requires Complete(rm) && !sc.reportIds && sc.reportNames && sc.idDim in identity && sc.nameDim in identity
    requires IndexOf(rm, identity[sc.nameDim], sc.nameDim) && ScopeOrdered(rm, identity, sc, o)
    ensures forall h :: h in ScopedGroups(rm, sc, o).1 <==>
      (h in Lookup(identity[sc.nameDim], None) && h in WithValue(rm, sc.idDim)) ||
      exists v :: v in o.names && !Hit(sc.names, v) && h in Lookup(identity[sc.nameDim], Some(v))
  {
    var ix := identity[sc.nameDim];
    forall h | h in ScopedGroups(rm, sc, o).1 && ValueOf(rm[h], sc.nameDim).Some?
      ensures exists v :: v in o.names && !Hit(sc.names, v) && h in Lookup(ix, Some(v))
    {
      ListedValue(rm, identity, sc.nameDim, o.names, h);
    }
  }

  /** A context of the service catch-all with no route stays in the catch-all. */
  lemma UnroutedStays(rm: map<Hash, Record>, services: (seq<Group>, Group), reportRoutes: bool, routes: Filter,
                      routeKeys: seq<seq<string>>, promoted: seq<string>, h: Hash)
    requires reportRoutes ==> |routeKeys| == |services.0|
    requires h in services.1 && h in rm && ValueOf(rm[h], RouteId).None?
    ensures h in RouteScoped(rm, services, reportRoutes, routes, routeKeys, promoted).1
  {
  }

  // ---------------------------------------------------------------------
  // The loops

  /** Every group of `gs` lies inside `s`. */
  predicate Within(gs: seq<Group>, s: Group)
  {
    forall i :: 0 <= i < |gs| ==> gs[i] <= s
  }

  lemma {:induction false} SplitAllWithin(rm: map<Hash, Record>, parents: seq<Group>, d: Dim, keys: seq<seq<string>>, f: Filter, s: Group)
    requires |keys| == |parents| && Within(parents, s)
    ensures Within(SplitAll(rm, parents, d, keys, f), s)
    decreases |parents|
  {
    if |parents| > 0 {
      var n := |parents| - 1;
      SplitAllWithin(rm, parents[..n], d, keys[..n], f, s);
    }
  }

  /** An index entry cut down to a parent is the parent's members with that value. */
  lemma IndexMembers(rm: map<Hash, Record>, ix: Index<Option<string>>, d: Dim, g: Group, v: Option<string>)
    requires Complete(rm) && IndexOf(rm, ix, d)
    ensures Lookup(ix, v) * g == Members(rm, g, d, v)
  {
    forall h | h in Lookup(ix, v) * g
      ensures h in Members(rm, g, d, v)
    {
      assert h in rm && HasField(rm[h], d, v);
    }
    forall h | h in Members(rm, g, d, v)
      ensures h in Lookup(ix, v)
    {
      assert DimToken(d) in rm[h].fields;
      assert HasField(rm[h], d, v);
    }
  }

  /** Iterating a set: some order, each element once. */
  method ListOf<T(==,!new)>(s: set<T>) returns (xs: seq<T>)
    ensures Enumerates(xs, s)
  {
    xs := [];
    var left := s;
    while left != {}
      invariant left <= s && NoDuplicates(xs)
      invariant forall x :: x in xs <==> x in s && x !in left
      decreases left
    {
      var x :| x in left;
      xs := xs + [x];
      left := left - {x};
    }
  }

  /** The distinct non-None values of `d` among `g`, as a set or a defaultdict's keys collects them. */
  method PresentValues(rm: map<Hash, Record>, g: Group, d: Dim) returns (vs: seq<string>)
    requires g <= rm.Keys
    ensures Enumerates(vs, ValuesIn(rm, g, d))
  {
    var hs := ListOf(g);
    vs := [];
    for i := 0 to |hs|
      invariant NoDuplicates(vs)
      invariant forall v :: v in vs <==> exists j :: 0 <= j < i && ValueOf(rm[hs[j]], d) == Some(v)
    {
      var v := ValueOf(rm[hs[i]], d);
      if v.Some? && v.value !in vs {
        vs := vs + [v.value];
      }
    }
    forall v | v in ValuesIn(rm, g, d)
      ensures v in vs
    {
      var h :| h in g && h in rm && ValueOf(rm[h], d) == Some(v);
      var j :| 0 <= j < |hs| && hs[j] == h;
    }
  }

  /** `[index[v] & g for v in vs]`. */
  method IndexGroups(rm: map<Hash, Record>, ix: Index<Option<string>>, g: Group, d: Dim, vs: seq<string>) returns (gs: seq<Group>)
    requires Complete(rm) && IndexOf(rm, ix, d)
    ensures gs == GroupsFor(rm, g, d, vs)
  {
    gs := [];
    for i := 0 to |vs|
      invariant gs == GroupsFor(rm, g, d, vs[..i])
    {
      IndexMembers(rm, ix, d, g, Some(vs[i]));
      gs := gs + [Lookup(ix, Some(vs[i])) * g];
    }
    assert vs[..|vs|] == vs;
  }

  /** The union of `index[v] & g` over `vs`. */
  method IndexUnion(rm: map<Hash, Record>, ix: Index<Option<string>>, g: Group, d: Dim, vs: seq<string>) returns (u: Group)
    requires Complete(rm) && IndexOf(rm, ix, d)
    ensures u == Claimed(rm, g, d, vs)
  {
    u := {};
    for i := 0 to |vs|
      invariant u == Claimed(rm, g, d, vs[..i])
    {
      IndexMembers(rm, ix, d, g, Some(vs[i]));
      assert vs[..i + 1] == vs[..i] + [vs[i]];
      u := u + Lookup(ix, Some(vs[i])) * g;
    }
    assert vs[..|vs|] == vs;
  }

  /** The catch-all of one parent: its None members and the members of each miss value. */
  lemma RestIsNoneAndMisses(rm: map<Hash, Record>, g: Group, d: Dim, values: seq<string>, f: Filter)
    requires Complete(rm) && g <= rm.Keys && Enumerates(values, ValuesIn(rm, g, d))
    ensures Rest(rm, g, d, f) == Members(rm, g, d, None) + Claimed(rm, g, d, MissesOf(values, f.white, f.black))
  {
    forall v
      ensures v in MissesOf(values, f.white, f.black) <==> v in values && !Hit(f, v)
    {
      HitsMembers(values, f.white, f.black, v);
    }
    forall h | h in g && ValueOf(rm[h], d).Some?
      ensures ValueOf(rm[h], d).value in values
    {
      assert ValueOf(rm[h], d).value in ValuesIn(rm, g, d);
    }
  }

  /**
   * One distinct parent split by `d` (the loop bodies of kong/grouper.py
   * lines 32-45, 100-112 and 136-149): a group `index[v] & g` per hit value,
   * then the catch-all of None and miss members when it is non-empty.
   */
  method SplitGroup(rm: map<Hash, Record>, ix: Index<Option<string>>, g: Group, d: Dim, whitelist: PatternList, blacklist: PatternList)
    returns (gs: seq<Group>, ghost keys: seq<string>)
    requires Complete(rm) && IndexOf(rm, ix, d) && g <= rm.Keys
    requires whitelist.Valid() && blacklist.Valid()
    ensures Enumerates(keys, ValuesIn(rm, g, d))
    ensures gs == Split(rm, g, d, keys, Filter(whitelist.patterns, blacklist.patterns))
  {
    ghost var f := Filter(whitelist.patterns, blacklist.patterns);
    var values := PresentValues(rm, g, d);
    keys := values;
    var hits, misses := FilterByPatternLists(values, whitelist, blacklist);
    gs := IndexGroups(rm, ix, g, d, hits);
    IndexMembers(rm, ix, d, g, None);
    var indistinct := Lookup(ix, None) * g;
    var missed := IndexUnion(rm, ix, g, d, misses);
    indistinct := indistinct + missed;
    RestIsNoneAndMisses(rm, g, d, values, f);
    if indistinct != {} {
      gs := gs + [indistinct];
    }
  }

  /** Each parent split in turn. */
  method SplitEach(rm: map<Hash, Record>, ix: Index<Option<string>>, parents: seq<Group>, d: Dim,
                   whitelist: PatternList, blacklist: PatternList)
    returns (gs: seq<Group>, ghost keys: seq<seq<string>>)
    requires Complete(rm) && IndexOf(rm, ix, d) && Within(parents, rm.Keys)
    requires whitelist.Valid() && blacklist.Valid()
    ensures |keys| == |parents|
    ensures forall i :: 0 <= i < |parents| ==> Enumerates(keys[i], ValuesIn(rm, parents[i], d))
    ensures gs == SplitAll(rm, parents, d, keys, Filter(whitelist.patterns, blacklist.patterns))
  {
    ghost var f := Filter(whitelist.patterns, blacklist.patterns);
    gs, keys := [], [];
    for i := 0 to |parents|
      invariant |keys| == i
      invariant forall j :: 0 <= j < i ==> Enumerates(keys[j], ValuesIn(rm, parents[j], d))
      invariant gs == SplitAll(rm, parents[..i], d, keys, f)
    {
      var split;
      ghost var k;
      split, k := SplitGroup(rm, ix, parents[i], d, whitelist, blacklist);
      assert parents[..i + 1][..i] == parents[..i];
      assert (keys + [k])[..i] == keys;
      gs, keys := gs + split, keys + [k];
    }
    assert parents[..|parents|] == parents;
  }

  /** `filter_by_pattern_lists([v], ...)` has a hit iff `v` is a hit. */
  lemma SingleHit(v: string, f: Filter)
    ensures |Hits([v], f)| > 0 <==> Hit(f, v)
  {
    assert [v][..|[v]| - 1] == [];
    assert Hits([v], f) == HitsOf([], f.white, f.black) + (if Hit(f, v) then [v] else []);
  }

  /** The state of the draining loop once the members in `seen` have been visited. */
  ghost predicate Drained(rm: map<Hash, Record>, indistinct: Group, seen: Group, d: Dim, f: Filter,
                          byValue: map<string, Group>, order: seq<string>, remainder: Group)
  {
    seen <= indistinct <= rm.Keys &&
    NoDuplicates(order) && (forall v :: v in byValue <==> v in order) &&
    (forall v :: v in byValue ==> Hit(f, v) && byValue[v] != {}) &&
    (forall v, x :: v in byValue ==> (x in byValue[v] <==> x in seen && ValueOf(rm[x], d) == Some(v))) &&
    (forall x :: x in seen && HitValue(rm, x, d, f) ==> ValueOf(rm[x], d).value in byValue) &&
    (forall x :: x in remainder <==> x in indistinct && (x !in seen || !HitValue(rm, x, d, f)))
  }

  /** One turn of the draining loop, for member `h`. */
  method Absorb(rm: map<Hash, Record>, indistinct: Group, ghost seen: Group, h: Hash, d: Dim,
                whitelist: PatternList, blacklist: PatternList,
                byValue: map<string, Group>, order: seq<string>, remainder: Group)
    returns (byValue': map<string, Group>, order': seq<string>, remainder': Group)
    requires whitelist.Valid() && blacklist.Valid() && h in indistinct && h !in seen
    requires Drained(rm, indistinct, seen, d, Filter(whitelist.patterns, blacklist.patterns), byValue, order, remainder)
    ensures seen + {h} <= indistinct <= rm.Keys
    ensures NoDuplicates(order') && (forall v :: v in byValue' <==> v in order')
    ensures (forall v :: v in byValue' ==> Hit(Filter(whitelist.patterns, blacklist.patterns), v) && byValue'[v] != {})
    ensures (forall v, x :: v in byValue' ==> (x in byValue'[v] <==> x in seen + {h} && ValueOf(rm[x], d) == Some(v)))
    ensures (forall x :: x in seen + {h} && HitValue(rm, x, d, Filter(whitelist.patterns, blacklist.patterns)) ==> ValueOf(rm[x], d).value in byValue')
    ensures (forall x :: x in remainder' <==> x in indistinct && (x !in seen + {h} || !HitValue(rm, x, d, Filter(whitelist.patterns, blacklist.patterns))))
  {
    ghost var f := Filter(whitelist.patterns, blacklist.patterns);
    byValue', order', remainder' := byValue, order, remainder;
    var v := ValueOf(rm[h], d);
    if v.None? {
      // must remain indistinct
    } else if v.value in byValue {
      byValue' := byValue[v.value := byValue[v.value] + {h}];
      remainder' := remainder - {h};
    } else {
      var hit, _ := FilterByPatternLists([v.value], whitelist, blacklist);
      SingleHit(v.value, f);
      if |hit| > 0 {
        byValue' := byValue[v.value := {h}];
        order' := order + [v.value];
        remainder' := remainder - {h};
      }
    }
  }

  /**
   * The draining loop of kong/grouper.py lines 47-59 and 151-163: each
   * member of the indistinct set whose value is a hit moves into that
   * value's defaultdict entry; `order` is the entries' insertion order.
   */
  method Drain(rm: map<Hash, Record>, indistinct: Group, d: Dim, whitelist: PatternList, blacklist: PatternList)
    returns (byValue: map<string, Group>, order: seq<string>, remainder: Group)
    requires indistinct <= rm.Keys && whitelist.Valid() && blacklist.Valid()
    ensures Enumerates(order, HitValuesIn(rm, indistinct, d, Filter(whitelist.patterns, blacklist.patterns)))
    ensures forall v :: v in byValue <==> v in order
    ensures forall v :: v in byValue ==> byValue[v] == Members(rm, indistinct, d, Some(v))
    ensures remainder == Rest(rm, indistinct, d, Filter(whitelist.patterns, blacklist.patterns))
  {
    ghost var f := Filter(whitelist.patterns, blacklist.patterns);
    var hs := ListOf(indistinct);
    byValue, order := map[], [];
    remainder := indistinct;
    ghost var seen: Group := {};
    for i := 0 to |hs|
      invariant forall h :: h in seen <==> h in hs[..i]
      invariant Drained(rm, indistinct, seen, d, f, byValue, order, remainder)
    {
      assert hs[..i + 1] == hs[..i] + [hs[i]];
      byValue, order, remainder := Absorb(rm, indistinct, seen, hs[i], d, whitelist, blacklist, byValue, order, remainder);
      seen := seen + {hs[i]};
    }
    assert seen == indistinct;
    DrainedAll(rm, indistinct, d, f, byValue, order, remainder);
  }

  /** Once every member is visited, the entries are the hit values' members and the remainder is the catch-all. */
  lemma DrainedAll(rm: map<Hash, Record>, indistinct: Group, d: Dim, f: Filter,
                   byValue: map<string, Group>, order: seq<string>, remainder: Group)
    requires Drained(rm, indistinct, indistinct, d, f, byValue, order, remainder)
    ensures Enumerates(order, HitValuesIn(rm, indistinct, d, f))
    ensures forall v :: v in byValue ==> byValue[v] == Members(rm, indistinct, d, Some(v))
    ensures remainder == Rest(rm, indistinct, d, f)
  {
    forall v | v in order
      ensures v in HitValuesIn(rm, indistinct, d, f)
    {
      var h :| h in byValue[v];
      assert h in indistinct && ValueOf(rm[h], d) == Some(v) && Hit(f, v);
      assert HitValue(rm, h, d, f);
    }
  }

  /** The promoted groups, in insertion order, and what is left of the indistinct set. */
  method Promote(rm: map<Hash, Record>, indistinct: Group, d: Dim, whitelist: PatternList, blacklist: PatternList)
    returns (promoted: seq<Group>, remainder: Group, ghost keys: seq<string>)
    requires indistinct <= rm.Keys && whitelist.Valid() && blacklist.Valid()
    ensures Enumerates(keys, HitValuesIn(rm, indistinct, d, Filter(whitelist.patterns, blacklist.patterns)))
    ensures promoted == GroupsFor(rm, indistinct, d, keys)
    ensures remainder == Rest(rm, indistinct, d, Filter(whitelist.patterns, blacklist.patterns))
  {
    var byValue, order;
    byValue, order, remainder := Drain(rm, indistinct, d, whitelist, blacklist);
    promoted := [];
    for j := 0 to |order|
      invariant promoted == GroupsFor(rm, indistinct, d, order[..j])
    {
      promoted := promoted + [byValue[order[j]]];
    }
    assert order[..|order|] == order;
    keys := order;
  }

  // ---------------------------------------------------------------------
  // The configuration the grouper reads

  /** `<kind>_whitelist` and `<kind>_blacklist`. */
  function FilterOf(c: KongConfig.Config, k: KongConfig.Kind): Filter
    reads c.Whitelist(k), c.Blacklist(k)
    requires c.Complete()
  {
    Filter(c.Whitelist(k).patterns, c.Blacklist(k).patterns)
  }

  /** The settings `_get_api_or_service_scoped_groups` looks up for `'api'` or `'service'`. */
  function ScopeOf(c: KongConfig.Config, api: bool): Scope
    reads c, c.Whitelist(KongConfig.ApiIds), c.Blacklist(KongConfig.ApiIds), c.Whitelist(KongConfig.ApiNames), c.Blacklist(KongConfig.ApiNames)
    reads c.Whitelist(KongConfig.ServiceIds), c.Blacklist(KongConfig.ServiceIds)
    reads c.Whitelist(KongConfig.ServiceNames), c.Blacklist(KongConfig.ServiceNames)
    requires c.Complete()
  {
    if api then
      Scope(ApiId, ApiName, c.flags.apiIds, c.flags.apiNames, FilterOf(c, KongConfig.ApiIds), FilterOf(c, KongConfig.ApiNames))
    else
      Scope(ServiceId, ServiceName, c.flags.serviceIds, c.flags.serviceNames,
            FilterOf(c, KongConfig.ServiceIds), FilterOf(c, KongConfig.ServiceNames))
  }

  function PlanOf(c: KongConfig.Config): (p: Plan)
    reads c, c.Whitelist(KongConfig.ApiIds), c.Blacklist(KongConfig.ApiIds), c.Whitelist(KongConfig.ApiNames), c.Blacklist(KongConfig.ApiNames)
    reads c.Whitelist(KongConfig.ServiceIds), c.Blacklist(KongConfig.ServiceIds)
    reads c.Whitelist(KongConfig.ServiceNames), c.Blacklist(KongConfig.ServiceNames)
    reads c.Whitelist(KongConfig.RouteIds), c.Blacklist(KongConfig.RouteIds)
    reads c.Whitelist(KongConfig.HttpMethods), c.Blacklist(KongConfig.HttpMethods)
    requires c.Complete()
    ensures Shaped(p)
  {
    Plan(ScopeOf(c, true), ScopeOf(c, false), c.flags.routeIds, FilterOf(c, KongConfig.RouteIds),
         c.flags.httpMethods, FilterOf(c, KongConfig.HttpMethods))
  }

  /** No identity index has an empty entry: `load_resource_context` creates each entry by adding to it. */
  ghost predicate IndicesLive(identity: map<Dim, Index<Option<string>>>)
  {
    forall d :: d in identity ==> Live(identity[d])
  }

  /** The index loop of `load_resource_context` only adds to entries, so it leaves no entry empty. */
  lemma {:induction false} IndexItemsLive(ix: map<Dim, Index<Option<string>>>, h: Hash, items: seq<(string, Option<string>)>)
    requires IndicesLive(ix)
    ensures IndicesLive(IndexItems(ix, h, items))
    decreases |items|
  {
    if |items| > 0 {
      var n := |items| - 1;
      IndexItemsLive(ix, h, items[..n]);
      var prev := IndexItems(ix, h, items[..n]);
      var d := IndexedDim(items[n].0);
      if d.Some? && d.value in prev {
        var e := Add(prev[d.value], items[n].1, h);
        forall v | v in e
          ensures e[v] != {}
        {
          if v == items[n].1 {
            assert h in e[v];
          }
        }
      }
    }
  }

  /** The assumptions under which the groups partition the contexts. */
  ghost predicate Sound(rm: map<Hash, Record>, identity: map<Dim, Index<Option<string>>>)
  {
    ApiOrService(rm) &&
    IndicesLive(identity) &&
    (forall h :: h in rm && ValueOf(rm[h], ApiName).Some? ==> ValueOf(rm[h], ApiId).Some?) &&
    (forall h :: h in rm && ValueOf(rm[h], ServiceName).Some? ==> ValueOf(rm[h], ServiceId).Some?)
  }

  /**
   * When `xs` lists every value present in `g`, its members claim the members
   * with a value, its hits the hit members and its misses the other members
   * with a value.
   */
  lemma ClaimedByFilter(rm: map<Hash, Record>, g: Group, d: Dim, xs: seq<string>, f: Filter)
    requires forall h :: h in g && h in rm && ValueOf(rm[h], d).Some? ==> ValueOf(rm[h], d).value in xs
    ensures Claimed(rm, g, d, xs) == set h | h in g && h in rm && ValueOf(rm[h], d).Some?
    ensures Claimed(rm, g, d, Hits(xs, f)) == set h | h in g && h in rm && HitValue(rm, h, d, f)
    ensures Claimed(rm, g, d, MissesOf(xs, f.white, f.black)) ==
            set h | h in g && h in rm && ValueOf(rm[h], d).Some? && !HitValue(rm, h, d, f)
  {
    forall v
      ensures v in Hits(xs, f) <==> v in xs && Hit(f, v)
      ensures v in MissesOf(xs, f.white, f.black) <==> v in xs && !Hit(f, v)
    {
      HitsMembers(xs, f.white, f.black, v);
    }
  }

  lemma ScopedWithin(rm: map<Hash, Record>, sc: Scope, o: ScopeOrder)
    requires NameKeysFit(sc, o)
    ensures Within(ScopedGroups(rm, sc, o).0, rm.Keys) && ScopedRest(rm, sc) <= rm.Keys
  {
    if sc.reportIds && sc.reportNames {
      SplitAllWithin(rm, GroupsFor(rm, rm.Keys, sc.idDim, Hits(o.ids, sc.ids)), sc.nameDim, o.nameKeys, sc.names, rm.Keys);
    }
  }

  lemma ParentsWithin(rm: map<Hash, Record>, p: Plan, o: Order)
    requires NameKeysFit(p.api, o.api) && RouteKeysFit(rm, p, o)
    ensures Within(Parents(rm, p, o).0, rm.Keys) && Parents(rm, p, o).1 <= rm.Keys
  {
    ScopedWithin(rm, p.api, o.api);
    ScopedWithin(rm, p.service, o.service);
    var services := ScopedGroups(rm, p.service, o.service);
    if p.reportRoutes {
      SplitAllWithin(rm, services.0, RouteId, o.routeKeys, p.routes, rm.Keys);
    }
  }

  lemma PartitionIfSound(rm: map<Hash, Record>, identity: map<Dim, Index<Option<string>>>, p: Plan, o: Order)
    requires Complete(rm) && Shaped(p)
    requires forall d :: d in identity ==> IndexOf(rm, identity[d], d)
    requires ApiId in identity && ApiName in identity && ServiceId in identity && ServiceName in identity
    requires Ordered(rm, identity, p, o)
    ensures Sound(rm, identity) ==> Fits(rm, p, o) && Partition(Grouping(rm, p, o), rm.Keys)
    ensures IndicesLive(identity) ==>
              Fits(rm, p, o) && NoneEmpty(Grouping(rm, p, o)) && Within(Grouping(rm, p, o), rm.Keys)
  {
    if Sound(rm, identity) {
      GroupingPartition(rm, identity, p, o);
    }
    if IndicesLive(identity) {
      GroupingNoneEmpty(rm, identity, p, o);
    }
  }

  /** The groups of concatenated lists are non-empty when those of each list are. */
  lemma NoneEmptyAppend(a: seq<Group>, b: seq<Group>)
    requires NoneEmpty(a) && NoneEmpty(b)
    ensures NoneEmpty(a + b)
  {
    forall i | 0 <= i < |a + b|
      ensures (a + b)[i] != {}
    {
      if i >= |a| {
        assert (a + b)[i] == b[i - |a|];
      }
    }
  }

  /** Splitting each parent yields only non-empty groups, whether or not the parents overlap. */
  lemma {:induction false} SplitAllNoneEmpty(rm: map<Hash, Record>, parents: seq<Group>, d: Dim, keys: seq<seq<string>>, f: Filter)
    requires |keys| == |parents|
    requires forall i :: 0 <= i < |parents| ==> parents[i] <= rm.Keys && Enumerates(keys[i], ValuesIn(rm, parents[i], d))
    ensures NoneEmpty(SplitAll(rm, parents, d, keys, f))
    decreases |parents|
  {
    if |parents| > 0 {
      var n := |parents| - 1;
      SplitAllNoneEmpty(rm, parents[..n], d, keys[..n], f);
      SplitPartition(rm, parents[n], d, keys[n], f);
      NoneEmptyAppend(SplitAll(rm, parents[..n], d, keys[..n], f), Split(rm, parents[n], d, keys[n], f));
    }
  }

  /**
   * With no empty entry in its two indices, every distinct group of a resource
   * type is non-empty, even when named contexts lack an ID.
   */
  lemma ScopedNoneEmpty(rm: map<Hash, Record>, identity: map<Dim, Index<Option<string>>>, sc: Scope, o: ScopeOrder)
    requires Complete(rm) && sc.idDim in identity && sc.nameDim in identity
    requires IndexOf(rm, identity[sc.idDim], sc.idDim) && IndexOf(rm, identity[sc.nameDim], sc.nameDim)
    requires Live(identity[sc.idDim]) && Live(identity[sc.nameDim])
    requires ScopeOrdered(rm, identity, sc, o)
    ensures NameKeysFit(sc, o) && NoneEmpty(ScopedGroups(rm, sc, o).0)
  {
    if sc.reportIds {
      KeysAreValues(rm, identity[sc.idDim], sc.idDim);
      var hits := Hits(o.ids, sc.ids);
      HitsNoDuplicates(o.ids, sc.ids);
      forall v | v in hits
        ensures v in ValuesIn(rm, rm.Keys, sc.idDim)
      {
        HitsMembers(o.ids, sc.ids.white, sc.ids.black, v);
      }
      var parents := GroupsFor(rm, rm.Keys, sc.idDim, hits);
      GroupsForFacts(rm, rm.Keys, sc.idDim, hits);
      if sc.reportNames {
        SplitAllNoneEmpty(rm, parents, sc.nameDim, o.nameKeys, sc.names);
      }
    } else if sc.reportNames {
      KeysAreValues(rm, identity[sc.nameDim], sc.nameDim);
      var hits := Hits(o.names, sc.names);
      HitsNoDuplicates(o.names, sc.names);
      forall v | v in hits
        ensures v in ValuesIn(rm, rm.Keys, sc.nameDim)
      {
        HitsMembers(o.names, sc.names.white, sc.names.black, v);
      }
      GroupsForFacts(rm, rm.Keys, sc.nameDim, hits);
    }
  }

  /** A splitting stage keeps every distinct group non-empty. */
  lemma SplitStageNoneEmpty(rm: map<Hash, Record>, parents: (seq<Group>, Group), d: Dim, report: bool, f: Filter,
                            keys: seq<seq<string>>, promoted: seq<string>)
    requires NoneEmpty(parents.0) && Within(parents.0, rm.Keys) && parents.1 <= rm.Keys
    requires SplitOrdered(rm, parents, d, report, f, keys, promoted)
    ensures report ==> NoneEmpty(SplitAll(rm, parents.0, d, keys, f) + GroupsFor(rm, parents.1, d, promoted))
  {
    if report {
      SplitAllNoneEmpty(rm, parents.0, d, keys, f);
      PromoteCovers(rm, parents.1, d, promoted, f);
      NoneEmptyAppend(SplitAll(rm, parents.0, d, keys, f), GroupsFor(rm, parents.1, d, promoted));
    }
  }

  /** The method split of non-empty parents yields non-empty groups of known contexts. */
  lemma HttpNoneEmpty(rm: map<Hash, Record>, parents: (seq<Group>, Group), reportMethods: bool, methods: Filter,
                      methodKeys: seq<seq<string>>, promoted: seq<string>)
    requires NoneEmpty(parents.0) && Within(parents.0, rm.Keys) && parents.1 <= rm.Keys
    requires SplitOrdered(rm, parents, HttpMethod, reportMethods, methods, methodKeys, promoted)
    ensures NoneEmpty(HttpScoped(rm, parents, reportMethods, methods, methodKeys, promoted))
    ensures Within(HttpScoped(rm, parents, reportMethods, methods, methodKeys, promoted), rm.Keys)
  {
    var (dp, ip) := parents;
    if reportMethods {
      SplitStageNoneEmpty(rm, parents, HttpMethod, reportMethods, methods, methodKeys, promoted);
      SplitAllWithin(rm, dp, HttpMethod, methodKeys, methods, rm.Keys);
      var split := SplitAll(rm, dp, HttpMethod, methodKeys, methods) + GroupsFor(rm, ip, HttpMethod, promoted);
      NoneEmptyAppend(split, NonEmpty(Rest(rm, ip, HttpMethod, methods)));
    } else {
      NoneEmptyAppend(dp, NonEmpty(ip));
    }
  }

  /** The distinct parents of the method split are non-empty when no identity index has an empty entry. */
  lemma ParentsNoneEmpty(rm: map<Hash, Record>, identity: map<Dim, Index<Option<string>>>, p: Plan, o: Order)
    requires Complete(rm) && Shaped(p)
    requires forall d :: d in identity ==> IndexOf(rm, identity[d], d)
    requires ApiId in identity && ApiName in identity && ServiceId in identity && ServiceName in identity
    requires Ordered(rm, identity, p, o) && IndicesLive(identity)
    ensures NameKeysFit(p.api, o.api) && RouteKeysFit(rm, p, o) && NoneEmpty(Parents(rm, p, o).0)
  {
    ScopedNoneEmpty(rm, identity, p.api, o.api);
    ScopedNoneEmpty(rm, identity, p.service, o.service);
    ScopedWithin(rm, p.service, o.service);
    var services := ScopedGroups(rm, p.service, o.service);
    SplitStageNoneEmpty(rm, services, RouteId, p.reportRoutes, p.routes, o.routeKeys, o.routePromoted);
    NoneEmptyAppend(ScopedGroups(rm, p.api, o.api).0, RouteGroups(rm, p, o).0);
  }

  /**
   * Every HTTP-method scoped group is a non-empty set of known contexts when
   * no identity index has an empty entry, whatever order the sets were
   * iterated in; no context needs to lie in a single scope for this.
   */
  lemma GroupingNoneEmpty(rm: map<Hash, Record>, identity: map<Dim, Index<Option<string>>>, p: Plan, o: Order)
    requires Complete(rm) && Shaped(p)
    requires forall d :: d in identity ==> IndexOf(rm, identity[d], d)
    requires ApiId in identity && ApiName in identity && ServiceId in identity && ServiceName in identity
    requires Ordered(rm, identity, p, o) && IndicesLive(identity)
    ensures Fits(rm, p, o) && NoneEmpty(Grouping(rm, p, o)) && Within(Grouping(rm, p, o), rm.Keys)
  {
    ParentsNoneEmpty(rm, identity, p, o);
    ParentsWithin(rm, p, o);
    HttpNoneEmpty(rm, Parents(rm, p, o), p.reportMethods, p.methods, o.methodKeys, o.methodPromoted);
  }

  /** Every context in a distinct service group has a route (else `re.match(None)` raises). */
  ghost predicate RoutedServices(rm: map<Hash, Record>, p: Plan)
  {
    p.reportRoutes ==> forall h :: h in ScopedDistinct(rm, p.service) ==> ValueOf(rm[h], RouteId).Some?
  }

  /** The contexts the distinct parents of the method split hold. */
  function DistinctParents(rm: map<Hash, Record>, p: Plan): Group
  {
    ScopedDistinct(rm, p.api) + ScopedDistinct(rm, p.service) +
    (if p.reportRoutes then set h | h in ScopedRest(rm, p.service) && HitValue(rm, h, RouteId, p.routes) else {})
  }

  /** Every context in a distinct parent has an HTTP method (else `re.match(None)` raises). */
  ghost predicate MethodsKnown(rm: map<Hash, Record>, p: Plan)
  {
    p.reportMethods ==> forall h :: h in DistinctParents(rm, p) ==> ValueOf(rm[h], HttpMethod).Some?
  }

  // ---------------------------------------------------------------------
  // Grouper

  /** An exact identity index is the index of its descriptor in the sense used here. */
  lemma IdentityIndex(rm: map<Hash, Record>, identity: map<Dim, Index<Option<string>>>, d: Dim)
    requires IdentityExact(rm, identity) && d in identity
    ensures IndexOf(rm, identity[d], d)
  {
  }

  /** What the grouper relies on in the parsed state: complete records and one exact index per descriptor. */
  ghost predicate Indexes(rm: map<Hash, Record>, identity: map<Dim, Index<Option<string>>>)
  {
    Complete(rm) && (forall d: Dim :: d in identity) &&
    forall d :: d in identity ==> IndexOf(rm, identity[d], d)
  }

  /** A valid state's indexes are exact for every dimension. */
  lemma StateIndexes(rm: map<Hash, Record>, identity: map<Dim, Index<Option<string>>>)
    requires Complete(rm) && identity.Keys == AllDims && IdentityExact(rm, identity)
    ensures Indexes(rm, identity)
  {
    forall d: Dim
      ensures d in identity && IndexOf(rm, identity[d], d)
    {
      EveryDim(d);
      IdentityIndex(rm, identity, d);
    }
  }

  lemma EveryDim(d: Dim)
    ensures d in AllDims
  {
  }

  /** The whitelist and blacklist of one kind. */
  datatype ListPair = ListPair(white: PatternList, black: PatternList)

  /** The pattern lists the grouper consults, kind by kind. */
  datatype Knobs = Knobs(apiIds: ListPair, apiNames: ListPair, serviceIds: ListPair, serviceNames: ListPair,
                         routeIds: ListPair, httpMethods: ListPair)

  function PairOf(c: KongConfig.Config, k: KongConfig.Kind): ListPair
    requires c.Complete()
  {
    ListPair(c.Whitelist(k), c.Blacklist(k))
  }

  function KnobsOf(c: KongConfig.Config): Knobs
    requires c.Complete()
  {
    Knobs(PairOf(c, KongConfig.ApiIds), PairOf(c, KongConfig.ApiNames), PairOf(c, KongConfig.ServiceIds),
          PairOf(c, KongConfig.ServiceNames), PairOf(c, KongConfig.RouteIds), PairOf(c, KongConfig.HttpMethods))
  }

  /** Both lists are valid and `f` is what they currently hold. */
  ghost predicate Holds(f: Filter, l: ListPair)
    reads l.white, l.black
  {
    l.white.Valid() && l.black.Valid() && f == Filter(l.white.patterns, l.black.patterns)
  }

  /** The six pairs of lists hold the plan's filters. */
  ghost predicate KnobsHold(p: Plan, k: Knobs)
    reads k.apiIds.white, k.apiIds.black, k.apiNames.white, k.apiNames.black
    reads k.serviceIds.white, k.serviceIds.black, k.serviceNames.white, k.serviceNames.black
    reads k.routeIds.white, k.routeIds.black, k.httpMethods.white, k.httpMethods.black
  {
    Holds(p.api.ids, k.apiIds) && Holds(p.api.names, k.apiNames) &&
    Holds(p.service.ids, k.serviceIds) && Holds(p.service.names, k.serviceNames) &&
    Holds(p.routes, k.routeIds) && Holds(p.methods, k.httpMethods)
  }

  /** A valid configuration's lists hold the filters its plan and its status-code settings name. */
  lemma ConfigAgrees(c: KongConfig.Config)
    requires c.Valid()
    ensures KnobsHold(PlanOf(c), KnobsOf(c))
    ensures Holds(FilterOf(c, KongConfig.StatusCodes), PairOf(c, KongConfig.StatusCodes))
  {
    forall k | k in KongConfig.AllKinds
      ensures c.Whitelist(k).Valid() && c.Blacklist(k).Valid()
    {
      assert KongConfig.ListName(k, true) in c.lists && KongConfig.ListName(k, false) in c.lists;
    }
  }

  /** `_get_api_or_service_scoped_groups` over the settings of one scope. */
  method ScopeStage(rm: map<Hash, Record>, identity: map<Dim, Index<Option<string>>>, sc: Scope, ids: ListPair, names: ListPair)
    returns (distinct: seq<Group>, indistinct: Group, ghost o: ScopeOrder)
    requires Indexes(rm, identity) && Holds(sc.ids, ids) && Holds(sc.names, names)
    ensures ScopeOrdered(rm, identity, sc, o) && NameKeysFit(sc, o)
    ensures (distinct, indistinct) == ScopedGroups(rm, sc, o)
  {
    var idStore := identity[sc.idDim];
    var nameStore := identity[sc.nameDim];
    var idList := ListOf(NonNoneKeys(idStore));
    if sc.reportIds {
      ghost var nameKeys;
      distinct, indistinct, nameKeys := IdScoped(rm, idStore, nameStore, sc, idList, ids.white, ids.black, names.white, names.black);
      o := ScopeOrder(idList, nameKeys, []);
    } else {
      var resources := IndexUnion(rm, idStore, rm.Keys, sc.idDim, idList);
      KeysAreValues(rm, idStore, sc.idDim);
      ClaimedByFilter(rm, rm.Keys, sc.idDim, idList, sc.ids);
      assert resources == WithValue(rm, sc.idDim);
      if sc.reportNames {
        var nameList := ListOf(NonNoneKeys(nameStore));
        distinct, indistinct := NameScoped(rm, nameStore, sc, resources, nameList, names.white, names.black);
        o := ScopeOrder(idList, [], nameList);
        assert ScopedGroups(rm, sc, o) == ScopedGroups(rm, sc, ScopeOrder([], [], nameList));
      } else {
        distinct, indistinct := [], resources;
        o := ScopeOrder(idList, [], []);
      }
    }
  }

  /** `get_route_scoped_groups`: the service groups, split by route when route reporting is on. */
  method RouteStage(rm: map<Hash, Record>, identity: map<Dim, Index<Option<string>>>, p: Plan,
                    serviceIds: ListPair, serviceNames: ListPair, routeIds: ListPair)
    returns (distinct: seq<Group>, indistinct: Group, ghost o: Order)
    requires Indexes(rm, identity) && Holds(p.service.ids, serviceIds) && Holds(p.service.names, serviceNames)
    requires Holds(p.routes, routeIds)
    ensures ScopeOrdered(rm, identity, p.service, o.service) && RouteKeysFit(rm, p, o)
    ensures SplitOrdered(rm, ScopedGroups(rm, p.service, o.service), RouteId, p.reportRoutes, p.routes, o.routeKeys, o.routePromoted)
    ensures (distinct, indistinct) == RouteGroups(rm, p, o)
  {
    var services, servicesRest;
    ghost var so, routeKeys, promotedKeys;
    services, servicesRest, so := ScopeStage(rm, identity, p.service, serviceIds, serviceNames);
    ScopedWithin(rm, p.service, so);
    distinct, indistinct, routeKeys, promotedKeys :=
      SplitStage(rm, identity[RouteId], (services, servicesRest), RouteId, p.reportRoutes, routeIds.white, routeIds.black);
    o := Order(ScopeOrder([], [], []), so, routeKeys, promotedKeys, [], []);
  }

  /** `get_api_and_route_scoped_groups`: the API groups, then the route groups. */
  method ApiAndRouteStage(rm: map<Hash, Record>, identity: map<Dim, Index<Option<string>>>, p: Plan, k: Knobs)
    returns (distinct: seq<Group>, indistinct: Group, ghost o: Order)
    requires Indexes(rm, identity) && Holds(p.api.ids, k.apiIds) && Holds(p.api.names, k.apiNames)
    requires Holds(p.service.ids, k.serviceIds) && Holds(p.service.names, k.serviceNames) && Holds(p.routes, k.routeIds)
    ensures ScopeOrdered(rm, identity, p.api, o.api) && ScopeOrdered(rm, identity, p.service, o.service)
    ensures NameKeysFit(p.api, o.api) && RouteKeysFit(rm, p, o)
    ensures SplitOrdered(rm, ScopedGroups(rm, p.service, o.service), RouteId, p.reportRoutes, p.routes, o.routeKeys, o.routePromoted)
    ensures (distinct, indistinct) == ApiAndRoute(rm, p, o)
  {
    var apiGroups, apiRest, routeGroups, routeRest;
    ghost var oa, or;
    apiGroups, apiRest, oa := ScopeStage(rm, identity, p.api, k.apiIds, k.apiNames);
    routeGroups, routeRest, or := RouteStage(rm, identity, p, k.serviceIds, k.serviceNames, k.routeIds);
    o := or.(api := oa);
    distinct, indistinct := apiGroups + routeGroups, apiRest + routeRest;
    ApiAndRouteOf(rm, p, or, oa, (apiGroups, apiRest), (routeGroups, routeRest));
  }

  /** `get_http_method_scoped_groups`: the unscoped contexts join the remainder, then the split by method. */
  method MethodStage(rm: map<Hash, Record>, identity: map<Dim, Index<Option<string>>>, p: Plan, k: Knobs)
    returns (groups: seq<Group>, ghost o: Order)
    requires Indexes(rm, identity) && Holds(p.api.ids, k.apiIds) && Holds(p.api.names, k.apiNames)
    requires Holds(p.service.ids, k.serviceIds) && Holds(p.service.names, k.serviceNames) && Holds(p.routes, k.routeIds)
    requires Holds(p.methods, k.httpMethods)
    ensures Fits(rm, p, o) && Ordered(rm, identity, p, o)
    ensures groups == Grouping(rm, p, o)
  {
    var distinctParents, indistinctParents, distinct, rest;
    ghost var methodKeys, promotedKeys;
    distinctParents, indistinctParents, o := ApiAndRouteStage(rm, identity, p, k);
    var unscoped := Lookup(identity[ApiId], None) * Lookup(identity[ServiceId], None);
    assert unscoped == Unscoped(rm);
    ParentsWithin(rm, p, o);
    distinct, rest, methodKeys, promotedKeys :=
      SplitStage(rm, identity[HttpMethod], (distinctParents, indistinctParents + unscoped), HttpMethod,
                 p.reportMethods, k.httpMethods.white, k.httpMethods.black);
    groups := distinct;
    if rest != {} {
      groups := groups + [rest];
    }
    o := o.(methodKeys := methodKeys, methodPromoted := promotedKeys);
  }

  class Grouper {
    const kongState: KongState
    const config: KongConfig.Config

    /** The settings read off the configuration when the grouper is built, and the lists they come from. */
    const plan: Plan
    const knobs: Knobs

    /** Built fresh over the parsed state and the configuration before each report. */
    constructor (kongState: KongState, config: KongConfig.Config)
      requires Indexes(kongState.resourceMetrics, kongState.identity) && config.Valid()
      ensures this.kongState == kongState && this.config == config
      ensures plan == old(PlanOf(config)) && knobs == KnobsOf(config)
      ensures Valid()
    {
      ConfigAgrees(config);
      this.kongState := kongState;
      this.config := config;
      this.plan := PlanOf(config);
      this.knobs := KnobsOf(config);
    }

    /** Indexed state, a plan over the four identity dimensions, and valid pattern lists holding its filters. */
    ghost predicate Valid()
      reads kongState, knobs.apiIds.white, knobs.apiIds.black, knobs.apiNames.white, knobs.apiNames.black
      reads knobs.serviceIds.white, knobs.serviceIds.black, knobs.serviceNames.white, knobs.serviceNames.black
      reads knobs.routeIds.white, knobs.routeIds.black, knobs.httpMethods.white, knobs.httpMethods.black
    {
      Indexes(kongState.resourceMetrics, kongState.identity) && Shaped(plan) && KnobsHold(plan, knobs)
    }

    /** `get_unscoped_group`. */
    method UnscopedGroup() returns (g: Group)
      requires Valid()
      ensures g == Unscoped(kongState.resourceMetrics)
    {
      g := Lookup(kongState.identity[ApiId], None) * Lookup(kongState.identity[ServiceId], None);
    }

    /** `_get_api_or_service_scoped_groups('api')` or `('service')`. */
    method ApiOrServiceScopedGroups(api: bool) returns (distinct: seq<Group>, indistinct: Group, ghost o: ScopeOrder)
      requires Valid()
      ensures ScopeOrdered(kongState.resourceMetrics, kongState.identity, if api then plan.api else plan.service, o)
      ensures NameKeysFit(if api then plan.api else plan.service, o)
      ensures (distinct, indistinct) == ScopedGroups(kongState.resourceMetrics, if api then plan.api else plan.service, o)
    {
      var k := knobs;
      if api {
        distinct, indistinct, o := ScopeStage(kongState.resourceMetrics, kongState.identity, plan.api, k.apiIds, k.apiNames);
      } else {
        distinct, indistinct, o := ScopeStage(kongState.resourceMetrics, kongState.identity, plan.service, k.serviceIds, k.serviceNames);
      }
    }

    /** `get_route_scoped_groups`. */
    method RouteScopedGroups() returns (distinct: seq<Group>, indistinct: Group, ghost o: Order)
      requires Valid() && RoutedServices(kongState.resourceMetrics, plan)
      ensures ScopeOrdered(kongState.resourceMetrics, kongState.identity, plan.service, o.service)
      ensures RouteKeysFit(kongState.resourceMetrics, plan, o)
      ensures SplitOrdered(kongState.resourceMetrics, ScopedGroups(kongState.resourceMetrics, plan.service, o.service),
                           RouteId, plan.reportRoutes, plan.routes, o.routeKeys, o.routePromoted)
      ensures (distinct, indistinct) == RouteGroups(kongState.resourceMetrics, plan, o)
    {
      var k := knobs;
      distinct, indistinct, o := RouteStage(kongState.resourceMetrics, kongState.identity, plan, k.serviceIds, k.serviceNames, k.routeIds);
    }

    /** `get_api_and_route_scoped_groups`. */
    method ApiAndRouteScopedGroups() returns (distinct: seq<Group>, indistinct: Group, ghost o: Order)
      requires Valid() && RoutedServices(kongState.resourceMetrics, plan)
      ensures ScopeOrdered(kongState.resourceMetrics, kongState.identity, plan.api, o.api)
      ensures ScopeOrdered(kongState.resourceMetrics, kongState.identity, plan.service, o.service)
      ensures NameKeysFit(plan.api, o.api) && RouteKeysFit(kongState.resourceMetrics, plan, o)
      ensures SplitOrdered(kongState.resourceMetrics, ScopedGroups(kongState.resourceMetrics, plan.service, o.service),
                           RouteId, plan.reportRoutes, plan.routes, o.routeKeys, o.routePromoted)
      ensures (distinct, indistinct) == ApiAndRoute(kongState.resourceMetrics, plan, o)
    {
      distinct, indistinct, o := ApiAndRouteStage(kongState.resourceMetrics, kongState.identity, plan, knobs);
    }

    /** `get_http_method_scoped_groups`: the groups the reporter emits one metric per. */
    method HttpMethodScopedGroups() returns (groups: seq<Group>, ghost o: Order)
      requires Valid() && RoutedServices(kongState.resourceMetrics, plan) && MethodsKnown(kongState.resourceMetrics, plan)
      ensures Fits(kongState.resourceMetrics, plan, o)
      ensures Ordered(kongState.resourceMetrics, kongState.identity, plan, o)
      ensures groups == Grouping(kongState.resourceMetrics, plan, o)
      ensures Sound(kongState.resourceMetrics, kongState.identity) ==> Partition(groups, kongState.resourceMetrics.Keys)
      ensures IndicesLive(kongState.identity) ==>
                NoneEmpty(groups) && Within(groups, kongState.resourceMetrics.Keys)
    {
      groups, o := MethodStage(kongState.resourceMetrics, kongState.identity, plan, knobs);
      PartitionIfSound(kongState.resourceMetrics, kongState.identity, plan, o);
    }
  }

  /**
   * One splitting stage (by route or by HTTP method): each distinct parent
   * split by `d`, then the hit-valued members of the catch-all promoted;
   * with the stage off the parents pass through unchanged.
   */
  method SplitStage(rm: map<Hash, Record>, ix: Index<Option<string>>, parents: (seq<Group>, Group), d: Dim, report: bool,
                    whitelist: PatternList, blacklist: PatternList)
    returns (distinct: seq<Group>, rest: Group, ghost keys: seq<seq<string>>, ghost promoted: seq<string>)
    requires Complete(rm) && IndexOf(rm, ix, d) && Within(parents.0, rm.Keys) && parents.1 <= rm.Keys
    requires whitelist.Valid() && blacklist.Valid()
    ensures SplitOrdered(rm, parents, d, report, Filter(whitelist.patterns, blacklist.patterns), keys, promoted)
    ensures !report ==> (distinct, rest) == parents
    ensures report ==>
      distinct == SplitAll(rm, parents.0, d, keys, Filter(whitelist.patterns, blacklist.patterns)) +
                  GroupsFor(rm, parents.1, d, promoted) &&
      rest == Rest(rm, parents.1, d, Filter(whitelist.patterns, blacklist.patterns))
  {
    if !report {
      distinct, rest, keys, promoted := parents.0, parents.1, [], [];
      return;
    }
    var split, groups;
    split, keys := SplitEach(rm, ix, parents.0, d, whitelist, blacklist);
    groups, rest, promoted := Promote(rm, parents.1, d, whitelist, blacklist);
    distinct := split + groups;
  }

  /** The ID-reporting branch of kong/grouper.py lines 93-117. */
  method IdScoped(rm: map<Hash, Record>, idStore: Index<Option<string>>, nameStore: Index<Option<string>>, sc: Scope,
                  ids: seq<string>, idWhitelist: PatternList, idBlacklist: PatternList,
                  nameWhitelist: PatternList, nameBlacklist: PatternList)
    returns (distinct: seq<Group>, indistinct: Group, ghost nameKeys: seq<seq<string>>)
    requires Complete(rm) && IndexOf(rm, idStore, sc.idDim) && IndexOf(rm, nameStore, sc.nameDim)
    requires idWhitelist.Valid() && idBlacklist.Valid() && nameWhitelist.Valid() && nameBlacklist.Valid()
    requires sc.reportIds && sc.ids == Filter(idWhitelist.patterns, idBlacklist.patterns)
    requires sc.names == Filter(nameWhitelist.patterns, nameBlacklist.patterns)
    requires Enumerates(ids, NonNoneKeys(idStore))
    ensures sc.reportNames ==>
      |nameKeys| == |Hits(ids, sc.ids)| &&
      forall i :: 0 <= i < |nameKeys| ==>
        Enumerates(nameKeys[i], ValuesIn(rm, Members(rm, rm.Keys, sc.idDim, Some(Hits(ids, sc.ids)[i])), sc.nameDim))
    ensures NameKeysFit(sc, ScopeOrder(ids, nameKeys, []))
    ensures (distinct, indistinct) == ScopedGroups(rm, sc, ScopeOrder(ids, nameKeys, []))
  {
    var idHits, idMisses := FilterByPatternLists(ids, idWhitelist, idBlacklist);
    distinct := IndexGroups(rm, idStore, rm.Keys, sc.idDim, idHits);
    nameKeys := [];
    if sc.reportNames {
      distinct, nameKeys := SplitEach(rm, nameStore, distinct, sc.nameDim, nameWhitelist, nameBlacklist);
    }
    indistinct := IndexUnion(rm, idStore, rm.Keys, sc.idDim, idMisses);
    KeysAreValues(rm, idStore, sc.idDim);
    ClaimedByFilter(rm, rm.Keys, sc.idDim, ids, sc.ids);
    assert idHits == Hits(ids, sc.ids);
    assert indistinct == ScopedRest(rm, sc);
  }

  /** The names-only branch of kong/grouper.py lines 121-128, `resources` being the contexts with an ID. */
  method NameScoped(rm: map<Hash, Record>, nameStore: Index<Option<string>>, sc: Scope, resources: Group,
                    names: seq<string>, nameWhitelist: PatternList, nameBlacklist: PatternList)
    returns (distinct: seq<Group>, indistinct: Group)
    requires Complete(rm) && IndexOf(rm, nameStore, sc.nameDim)
    requires nameWhitelist.Valid() && nameBlacklist.Valid()
    requires !sc.reportIds && sc.reportNames && sc.names == Filter(nameWhitelist.patterns, nameBlacklist.patterns)
    requires resources == WithValue(rm, sc.idDim) && Enumerates(names, NonNoneKeys(nameStore))
    ensures (distinct, indistinct) == ScopedGroups(rm, sc, ScopeOrder([], [], names))
  {
    var hits, misses := FilterByPatternLists(names, nameWhitelist, nameBlacklist);
    distinct := IndexGroups(rm, nameStore, rm.Keys, sc.nameDim, hits);
    IndexMembers(rm, nameStore, sc.nameDim, resources, None);
    indistinct := Lookup(nameStore, None) * resources;
    var missed := IndexUnion(rm, nameStore, rm.Keys, sc.nameDim, misses);
    indistinct := indistinct + missed;
    KeysAreValues(rm, nameStore, sc.nameDim);
    ClaimedByFilter(rm, rm.Keys, sc.nameDim, names, sc.names);
    assert hits == Hits(names, sc.names);
    assert indistinct == ScopedRest(rm, sc);
  }
}
