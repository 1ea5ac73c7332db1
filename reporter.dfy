/**
 * kong/reporter.py: turns a KongState snapshot and the grouper's groups into
 * the metrics of one report, one per group (and per status-code bucket), plus
 * the instance-wide server and database metrics.
 *
 * Emission to collectd, timing and logging are not part of this model: a
 * report is the sequence of metrics that would be emitted.
 */
module KongReporter {
  import opened Wrappers
  import opened Utils
  import opened KongState
  import KongConfig
  import opened KongGrouper

  // ---------------------------------------------------------------------
  // Metrics

  /** The collectdutil `Metric` a report is made of. */
  datatype Metric = Metric(typeInstance: string, metricType: KongConfig.MetricType, value: int,
                           plugin: string, dimensions: map<string, string>, host: Option<string>)

  /**
   * `metric_args`: the positional type instance, type and value, tagged with
   * plugin `kong` and the dimensions, and with the host only when one is
   * configured (a non-empty string).
   */
  function MetricArgs(typeInstance: string, metricType: KongConfig.MetricType, value: int,
                      dimensions: map<string, string>, host: Option<string>): (r: Metric)
    ensures r.typeInstance == typeInstance && r.metricType == metricType && r.value == value
    ensures r.plugin == "kong" && r.dimensions == dimensions
    ensures r.host.Some? <==> host.Some? && host.value != ""
    ensures r.host.Some? ==> r.host == host
  {
    Metric(typeInstance, metricType, value, "kong", dimensions, if host.Some? && host.value != "" then host else None)
  }

  /** `metric_args` for a metric of the `metrics` table. */
  function MetricOf(m: KongConfig.MetricName, value: int, dimensions: map<string, string>, host: Option<string>): Metric
  {
    MetricArgs(KongConfig.TypeInstance(m), KongConfig.TypeOf(m), value, dimensions, host)
  }

  /** The values of a run of metrics, added up. */
  function ValueSum(ms: seq<Metric>): int
    decreases |ms|
  {
    if |ms| == 0 then 0 else ValueSum(ms[..|ms| - 1]) + ms[|ms| - 1].value
  }

  // ---------------------------------------------------------------------
  // Sums over sets

  /** Some member of a non-empty set, the same one whenever it is asked of the same set. */
  ghost function Pick<T>(s: set<T>): (x: T)
    requires s != {}
    ensures x in s
  {
    var x :| x in s; x
  }

  /** The sum of the weights of the members of `s`, whatever order they are added in. */
  ghost function SetSum<T>(s: set<T>, w: map<T, int>): int
    requires s <= w.Keys
    decreases s
  {
    if s == {} then 0 else var x := Pick(s); w[x] + SetSum(s - {x}, w)
  }

  /** Any member can be taken out first. */
  lemma {:induction false} SetSumRemove<T>(s: set<T>, w: map<T, int>, y: T)
    requires s <= w.Keys && y in s
    ensures SetSum(s, w) == w[y] + SetSum(s - {y}, w)
    decreases s
  {
    var x := Pick(s);
    if y != x {
      SetSumRemove(s - {x}, w, y);
      assert s - {x} - {y} == s - {y} - {x};
      SetSumRemove(s - {y}, w, x);
    }
  }

  /** Adding one new member adds its weight. */
  lemma SetSumAdd<T>(s: set<T>, w: map<T, int>, y: T)
    requires s <= w.Keys && y in w && y !in s
    ensures SetSum(s + {y}, w) == SetSum(s, w) + w[y]
  {
    SetSumRemove(s + {y}, w, y);
    assert s + {y} - {y} == s;
  }

  /** The sum over a disjoint union is the sum of the sums. */
  lemma {:induction false} SetSumUnion<T>(a: set<T>, b: set<T>, w: map<T, int>)
    requires a !! b && a + b <= w.Keys
    ensures SetSum(a + b, w) == SetSum(a, w) + SetSum(b, w)
    decreases a
  {
    if a == {} {
      assert a + b == b;
    } else {
      var x := Pick(a);
      SetSumRemove(a + b, w, x);
      assert (a + b) - {x} == (a - {x}) + b;
      SetSumUnion(a - {x}, b, w);
      SetSumRemove(a, w, x);
    }
  }

  // ---------------------------------------------------------------------
  // HTTP-method scope values

  /** Every context carries counter `key` (else `resource_metrics[h][metric]` raises). */
  ghost predicate Counted(rm: map<Hash, Record>, key: string)
  {
    forall h :: h in rm ==> key in rm[h].counters
  }

  /** Counter `key` of every context. */
  function CounterWeights(rm: map<Hash, Record>, key: string): (w: map<Hash, int>)
    requires Counted(rm, key)
    ensures w.Keys == rm.Keys
  {
    map h | h in rm :: rm[h].counters[key]
  }

  /** Counter `key` added up over the members of a group. */
  ghost function GroupTotal(rm: map<Hash, Record>, g: Group, key: string): int
    requires Counted(rm, key) && g <= rm.Keys
  {
    SetSum(g, CounterWeights(rm, key))
  }

  /** The totals of disjoint groups add up to the total of their union. */
  lemma {:induction false} GroupTotals(rm: map<Hash, Record>, gs: seq<Group>, key: string)
    requires Counted(rm, key) && Disjoint(gs) && Within(gs, rm.Keys)
    ensures Union(gs) <= rm.Keys
    ensures TotalsOf(rm, gs, key) == GroupTotal(rm, Union(gs), key)
    decreases |gs|
  {
    if |gs| > 0 {
      var n := |gs| - 1;
      GroupTotals(rm, gs[..n], key);
      UnionAppend(gs[..n], [gs[n]]);
      assert gs[..n] + [gs[n]] == gs;
      forall h | h in Union(gs[..n])
        ensures h !in gs[n]
      {
        UnionMembers(gs[..n], h);
        var i :| 0 <= i < n && h in gs[..n][i];
        assert gs[i] !! gs[n];
      }
      assert Union([gs[n]]) == gs[n] by {
        forall h ensures h in Union([gs[n]]) <==> h in gs[n] {
          UnionMembers([gs[n]], h);
        }
      }
      SetSumUnion(Union(gs[..n]), gs[n], CounterWeights(rm, key));
    }
  }

  /** The totals of a sequence of groups, added up. */
  ghost function TotalsOf(rm: map<Hash, Record>, gs: seq<Group>, key: string): int
    requires Counted(rm, key) && Within(gs, rm.Keys)
    decreases |gs|
  {
    if |gs| == 0 then 0 else TotalsOf(rm, gs[..|gs| - 1], key) + GroupTotal(rm, gs[|gs| - 1], key)
  }

  // ---------------------------------------------------------------------
  // Dimensions

  /** The six descriptors `dimensions_from_http_method_group` visits. */
  const DimOrder: seq<Dim> := [ApiId, ApiName, ServiceId, ServiceName, RouteId, HttpMethod]

  /** `will_report_<d>s`, as the grouper's plan holds it. */
  function Reports(p: Plan, d: Dim): bool
  {
    match d
    case ApiId => p.api.reportIds
    case ApiName => p.api.reportNames
    case ServiceId => p.service.reportIds
    case ServiceName => p.service.reportNames
    case RouteId => p.reportRoutes
    case HttpMethod => p.reportMethods
  }

  /** The `<d>s_whitelist` / `<d>s_blacklist` of a descriptor. */
  function DimFilter(p: Plan, d: Dim): Filter
  {
    match d
    case ApiId => p.api.ids
    case ApiName => p.api.names
    case ServiceId => p.service.ids
    case ServiceName => p.service.names
    case RouteId => p.routes
    case HttpMethod => p.methods
  }

  /** The pattern-list objects of a descriptor. */
  function DimLists(k: Knobs, d: Dim): ListPair
  {
    match d
    case ApiId => k.apiIds
    case ApiName => k.apiNames
    case ServiceId => k.serviceIds
    case ServiceName => k.serviceNames
    case RouteId => k.routeIds
    case HttpMethod => k.httpMethods
  }

  /** A descriptor that is reported, present in `r`, and a hit of its lists becomes a dimension. */
  predicate Shown(p: Plan, r: Record, d: Dim)
  {
    Reports(p, d) && ValueOf(r, d).Some? && Hit(DimFilter(p, d), ValueOf(r, d).value)
  }

  /** The extra dimensions, then each shown descriptor of `ds` in turn. */
  function Overlay(extra: map<string, string>, r: Record, p: Plan, ds: seq<Dim>): map<string, string>
    decreases |ds|
  {
    if |ds| == 0 then extra
    else
      var dims := Overlay(extra, r, p, ds[..|ds| - 1]);
      var d := ds[|ds| - 1];
      if Shown(p, r, d) then dims[DimToken(d) := ValueOf(r, d).value] else dims
  }

  /** The dimensions a group whose representative is `r` is reported under. */
  function Dimensions(extra: map<string, string>, r: Record, p: Plan): map<string, string>
  {
    Overlay(extra, r, p, DimOrder)
  }

  lemma TokensDiffer(d: Dim, d': Dim)
    ensures DimToken(d) == DimToken(d') ==> d == d'
  {
    if d != d' {
      assert DimToken(d) != DimToken(d') by {
        match d
        case ApiId => assert DimToken(d)[4] == 'i'; assert d' == ApiName ==> DimToken(d')[4] == 'n';
        case ApiName => assert |DimToken(d)| == 8;
        case ServiceId => assert DimToken(d)[8] == 'i'; assert d' == ServiceName ==> DimToken(d')[8] == 'n';
        case ServiceName => assert |DimToken(d)| == 12;
        case RouteId => assert DimToken(d)[0] == 'r';
        case HttpMethod => assert DimToken(d)[0] == 'h';
      }
    }
  }

  /**
   * The overlay holds the extra dimensions, overridden exactly by the shown
   * descriptors of `ds`, each with the representative's value.
   */
  lemma {:induction false} OverlayMeaning(extra: map<string, string>, r: Record, p: Plan, ds: seq<Dim>)
    ensures forall d :: d in ds && Shown(p, r, d) ==>
      DimToken(d) in Overlay(extra, r, p, ds) && Overlay(extra, r, p, ds)[DimToken(d)] == ValueOf(r, d).value
    ensures forall k :: k in Overlay(extra, r, p, ds) <==>
      k in extra || exists d :: d in ds && Shown(p, r, d) && DimToken(d) == k
    ensures forall k :: k in extra && (forall d :: d in ds && Shown(p, r, d) ==> DimToken(d) != k) ==>
      Overlay(extra, r, p, ds)[k] == extra[k]
    decreases |ds|
  {
    if |ds| > 0 {
      var init := ds[..|ds| - 1];
      var last := ds[|ds| - 1];
      OverlayMeaning(extra, r, p, init);
      assert forall d :: d in ds <==> d in init || d == last;
      forall d | d in init && Shown(p, r, d)
        ensures Overlay(extra, r, p, ds)[DimToken(d)] == ValueOf(r, d).value
      {
        TokensDiffer(d, last);
      }
    }
  }

  // ---------------------------------------------------------------------
  // Status-code buckets

  /** Every status code of a context that reached the status split is non-empty (else `code[0]` raises). */
  ghost predicate CodesNamed(rm: map<Hash, Record>)
  {
    forall h, c :: h in rm && rm[h].statuses.Some? && c in rm[h].statuses.value ==> c != ""
  }

  /**
   * The bucket a status code is filed under: with status-code groups on, a
   * code that is not a hit is filed under its class (`5xx`); otherwise a miss
   * is filed under `miss`; a hit is always filed under itself.
   */
  ghost function Classify(f: Filter, groups: bool, code: string): (b: string)
    requires groups && !Hit(f, code) ==> code != ""
    ensures Hit(f, code) ==> b == code
    ensures !Hit(f, code) && groups ==> |b| == 3 && b[0] == code[0] && b[1..] == "xx"
    ensures !Hit(f, code) && !groups ==> b == "miss"
  {
    if groups && !Hit(f, code) then [code[0]] + "xx"
    else if !Hit(f, code) then "miss"
    else code
  }

  /** The filing of kong/reporter.py lines 125-128, against the hits and misses of the context's codes. */
  function Bucket(code: string, hits: set<string>, misses: set<string>, groups: bool): string
    requires groups && code !in hits ==> code != ""
  {
    if groups && code !in hits then [code[0]] + "xx"
    else if code in misses then "miss"
    else code
  }

  /** Against exact hits and misses the filing is the classification. */
  lemma BucketIsClassify(f: Filter, groups: bool, codes: set<string>, hits: set<string>, misses: set<string>, code: string)
    requires code in codes && (groups && !Hit(f, code) ==> code != "")
    requires forall c :: c in hits <==> c in codes && Hit(f, c)
    requires forall c :: c in misses <==> c in codes && !Hit(f, c)
    ensures Bucket(code, hits, misses, groups) == Classify(f, groups, code)
  {
  }

  /**
   * The dimensions of one bucket: a `miss` carries no `status_code`, every
   * other bucket carries its name as `status_code`.
   */
  function StatusDims(dims: map<string, string>, bucket: string): (r: map<string, string>)
    ensures "status_code" in r <==> bucket != "miss"
    ensures bucket != "miss" ==> r["status_code"] == bucket
    ensures forall k :: k != "status_code" ==> (k in r <==> k in dims) && (k in r ==> r[k] == dims[k])
  {
    if bucket == "miss" then dims - {"status_code"} else dims["status_code" := bucket]
  }

  /** Each bucket's dimensions are copied from the previous bucket's: what that one set never leaks. */
  lemma StatusDimsOverwrite(dims: map<string, string>, b: string, b': string)
    ensures StatusDims(StatusDims(dims, b), b') == StatusDims(dims, b')
  {
  }

  // ---------------------------------------------------------------------
  // The HTTP-method scope metrics

  /** `reps[i]` is a member of `groups[i]`: the representative each group's dimensions were read from. */
  ghost predicate Represents(reps: seq<Hash>, groups: seq<Group>)
  {
    |reps| == |groups| && forall i :: 0 <= i < |groups| ==> reps[i] in groups[i]
  }

  /** The metrics of `calculate_http_method_scope_metrics`: one per group, in group order, holding the group's total. */
  ghost function HttpBlock(rm: map<Hash, Record>, groups: seq<Group>, reps: seq<Hash>, m: KongConfig.MetricName,
                           p: Plan, extra: map<string, string>, host: Option<string>): (ms: seq<Metric>)
    requires Counted(rm, KongConfig.Token(m)) && Within(groups, rm.Keys) && Represents(reps, groups)
    ensures |ms| == |groups|
  {
    seq(|groups|, i requires 0 <= i < |groups| =>
      MetricOf(m, GroupTotal(rm, groups[i], KongConfig.Token(m)), Dimensions(extra, rm[reps[i]], p), host))
  }

  /**
   * Over groups that partition the contexts, the values of an HTTP-method
   * scope metric add up to the metric over every context: no context is
   * counted twice or lost.
   */
  lemma HttpBlockTotal(rm: map<Hash, Record>, groups: seq<Group>, reps: seq<Hash>, m: KongConfig.MetricName,
                       p: Plan, extra: map<string, string>, host: Option<string>)
    requires Counted(rm, KongConfig.Token(m)) && Partition(groups, rm.Keys) && Represents(reps, groups)
    ensures Within(groups, rm.Keys)
    ensures ValueSum(HttpBlock(rm, groups, reps, m, p, extra, host)) == GroupTotal(rm, rm.Keys, KongConfig.Token(m))
  {
    forall i | 0 <= i < |groups|
      ensures groups[i] <= rm.Keys
    {
      UnionElement(groups, i);
    }
    BlockValues(rm, groups, reps, m, p, extra, host);
    GroupTotals(rm, groups, KongConfig.Token(m));
  }

  lemma {:induction false} BlockValues(rm: map<Hash, Record>, groups: seq<Group>, reps: seq<Hash>, m: KongConfig.MetricName,
                                       p: Plan, extra: map<string, string>, host: Option<string>)
    requires Counted(rm, KongConfig.Token(m)) && Within(groups, rm.Keys) && Represents(reps, groups)
    ensures ValueSum(HttpBlock(rm, groups, reps, m, p, extra, host)) == TotalsOf(rm, groups, KongConfig.Token(m))
    decreases |groups|
  {
    if |groups| > 0 {
      var n := |groups| - 1;
      HttpBlockPrefix(rm, groups, reps, m, p, extra, host);
      BlockValues(rm, groups[..n], reps[..n], m, p, extra, host);
    }
  }

  /** Dropping the last group drops the last metric, and that metric holds the group's total. */
  lemma HttpBlockPrefix(rm: map<Hash, Record>, groups: seq<Group>, reps: seq<Hash>, m: KongConfig.MetricName,
                        p: Plan, extra: map<string, string>, host: Option<string>)
    requires Counted(rm, KongConfig.Token(m)) && Within(groups, rm.Keys) && Represents(reps, groups) && |groups| > 0
    ensures Within(groups[..|groups| - 1], rm.Keys) && Represents(reps[..|groups| - 1], groups[..|groups| - 1])
    ensures HttpBlock(rm, groups, reps, m, p, extra, host)[..|groups| - 1]
         == HttpBlock(rm, groups[..|groups| - 1], reps[..|groups| - 1], m, p, extra, host)
    ensures HttpBlock(rm, groups, reps, m, p, extra, host)[|groups| - 1].value == GroupTotal(rm, groups[|groups| - 1], KongConfig.Token(m))
  {
    var n := |groups| - 1;
    assert HttpBlock(rm, groups, reps, m, p, extra, host)[..n] == HttpBlock(rm, groups[..n], reps[..n], m, p, extra, host);
  }

  /** The inner loop of `calculate_http_method_scope_metrics`: counter `key` summed over the group's members. */
  method SumGroup(rm: map<Hash, Record>, g: Group, key: string) returns (total: int)
    requires Counted(rm, key) && g <= rm.Keys
    ensures total == GroupTotal(rm, g, key)
  {
    ghost var w := CounterWeights(rm, key);
    total := 0;
    var left := g;
    while left != {}
      invariant left <= g && total == SetSum(g - left, w)
      decreases left
    {
      var h :| h in left;
      SetSumAdd(g - left, w, h);
      assert (g - left) + {h} == g - (left - {h});
      total := total + rm[h].counters[key];
      left := left - {h};
    }
    assert g - left == g;
  }

  lemma KnobHolds(p: Plan, k: Knobs, d: Dim)
    requires KnobsHold(p, k)
    ensures Holds(DimFilter(p, d), DimLists(k, d))
  {
  }

  /** One step of `dimensions_from_http_method_group`: the descriptor `d` of `source`, when shown. */
  method ShowDimension(source: Record, d: Dim, p: Plan, lists: ListPair, dims: map<string, string>)
    returns (r: map<string, string>)
    requires DimToken(d) in source.fields && Holds(DimFilter(p, d), lists)
    ensures r == if Shown(p, source, d) then dims[DimToken(d) := ValueOf(source, d).value] else dims
  {
    r := dims;
    if Reports(p, d) {
      var value := source.fields[DimToken(d)];
      if value.Some? {
        var hit, _ := FilterByPatternLists([value.value], lists.white, lists.black);
        HitsMembers([value.value], lists.white.patterns, lists.black.patterns, value.value);
        if |hit| > 0 {
          r := dims[DimToken(d) := value.value];
        }
      }
    }
  }

  /** `dimensions_from_http_method_group`: the extra dimensions and the shown descriptors of one member. */
  method GroupDimensions(rm: map<Hash, Record>, g: Group, p: Plan, k: Knobs, extra: map<string, string>)
    returns (dims: map<string, string>, ghost rep: Hash)
    requires Complete(rm) && g != {} && g <= rm.Keys && KnobsHold(p, k)
    ensures rep in g && dims == Dimensions(extra, rm[rep], p)
  {
    var h :| h in g;
    rep := h;
    var source := rm[h];
    dims := extra;
    for i := 0 to |DimOrder|
      invariant dims == Overlay(extra, source, p, DimOrder[..i])
    {
      var d := DimOrder[i];
      assert DimOrder[..i + 1][..i] == DimOrder[..i];
      KnobHolds(p, k, d);
      dims := ShowDimension(source, d, p, DimLists(k, d), dims);
    }
    assert DimOrder[..|DimOrder|] == DimOrder;
  }

  /** Extending the groups by one extends the block by that group's metric. */
  lemma HttpBlockNext(rm: map<Hash, Record>, groups: seq<Group>, reps: seq<Hash>, g: Group, rep: Hash,
                      m: KongConfig.MetricName, p: Plan, extra: map<string, string>, host: Option<string>)
    requires Counted(rm, KongConfig.Token(m)) && Within(groups, rm.Keys) && Represents(reps, groups)
    requires g <= rm.Keys && rep in g
    ensures Within(groups + [g], rm.Keys) && Represents(reps + [rep], groups + [g])
    ensures HttpBlock(rm, groups + [g], reps + [rep], m, p, extra, host) ==
            HttpBlock(rm, groups, reps, m, p, extra, host) +
            [MetricOf(m, GroupTotal(rm, g, KongConfig.Token(m)), Dimensions(extra, rm[rep], p), host)]
  {
  }

  /** `calculate_http_method_scope_metrics` over the groups of one report. */
  method HttpScopeMetrics(rm: map<Hash, Record>, groups: seq<Group>, m: KongConfig.MetricName, p: Plan, k: Knobs,
                          extra: map<string, string>, host: Option<string>)
    returns (ms: seq<Metric>, ghost reps: seq<Hash>)
    requires Complete(rm) && Counted(rm, KongConfig.Token(m)) && KnobsHold(p, k)
    requires NoneEmpty(groups) && Within(groups, rm.Keys)
    ensures Represents(reps, groups) && ms == HttpBlock(rm, groups, reps, m, p, extra, host)
  {
    ms, reps := [], [];
    for i := 0 to |groups|
      invariant Represents(reps, groups[..i])
      invariant ms == HttpBlock(rm, groups[..i], reps, m, p, extra, host)
    {
      var value := SumGroup(rm, groups[i], KongConfig.Token(m));
      var dims;
      ghost var rep;
      dims, rep := GroupDimensions(rm, groups[i], p, k, extra);
      assert groups[..i + 1] == groups[..i] + [groups[i]];
      HttpBlockNext(rm, groups[..i], reps, groups[i], rep, m, p, extra, host);
      ms, reps := ms + [MetricOf(m, value, dims, host)], reps + [rep];
    }
    assert groups[..|groups|] == groups;
  }

  // ---------------------------------------------------------------------
  // The status-code cache

  /** `sc_hits_cache` and `sc_misses_cache`. */
  datatype Caches = Caches(hits: set<string>, misses: set<string>)

  /** Every cached hit is a hit of the status-code lists, every cached miss is not. */
  ghost predicate CacheSound(c: Caches, f: Filter)
  {
    (forall x :: x in c.hits ==> Hit(f, x)) && (forall x :: x in c.misses ==> !Hit(f, x))
  }

  /**
   * `filter_status_codes_by_pattern_lists` over the caches `c`: the lists are
   * consulted only when some code is not cached yet, the caches only grow, and
   * the answer is exactly the hits and the misses among `codes`.
   */
  method FilterCodes(codes: set<string>, c: Caches, lists: ListPair, ghost f: Filter)
    returns (hits: set<string>, misses: set<string>, c': Caches)
    requires Holds(f, lists) && CacheSound(c, f)
    ensures CacheSound(c', f) && c.hits <= c'.hits && c.misses <= c'.misses
    ensures forall x :: x in hits <==> x in codes && Hit(f, x)
    ensures forall x :: x in misses <==> x in codes && !Hit(f, x)
    ensures (forall x :: x in codes ==> x in c.hits || x in c.misses) ==> c' == c
    ensures !(forall x :: x in codes ==> x in c.hits || x in c.misses) ==>
      (forall x :: x in c'.hits <==> x in c.hits || (x in codes && Hit(f, x))) &&
      (forall x :: x in c'.misses <==> x in c.misses || (x in codes && !Hit(f, x)))
  {
    c' := c;
    if !(forall x | x in codes :: x in c.hits || x in c.misses) {
      var list := ListOf(codes);
      var found, missed := FilterByPatternLists(list, lists.white, lists.black);
      forall x
        ensures x in found <==> x in codes && Hit(f, x)
        ensures x in missed <==> x in codes && !Hit(f, x)
      {
        HitsMembers(list, lists.white.patterns, lists.black.patterns, x);
      }
      c' := Caches(c.hits + (set x | x in found), c.misses + (set x | x in missed));
    }
    hits, misses := c'.hits * codes, c'.misses * codes;
  }

  // ---------------------------------------------------------------------
  // Status-code scope values

  /** Every context has decoded statuses (else `resource_metrics[h]['status_codes']` raises). */
  ghost predicate Tallied(rm: map<Hash, Record>)
  {
    forall h :: h in rm ==> rm[h].statuses.Some?
  }

  /** What the status split demands of the contexts: decoded statuses, and named codes when they are grouped. */
  ghost predicate Fileable(rm: map<Hash, Record>, groups: bool)
  {
    Tallied(rm) && (groups ==> CodesNamed(rm))
  }

  /** The codes of one statuses dict are fileable. */
  ghost predicate Named(st: map<string, map<string, int>>, groups: bool)
  {
    groups ==> forall c :: c in st ==> c != ""
  }

  /** Value `key` of one code's values, 0 when absent (a `defaultdict(int)` read). */
  function Val(vals: map<string, int>, key: string): int
  {
    if key in vals then vals[key] else 0
  }

  /** Value `key` of every code of a statuses dict. */
  function CodeWeights(st: map<string, map<string, int>>, key: string): (w: map<string, int>)
    ensures w.Keys == st.Keys
  {
    map c | c in st :: Val(st[c], key)
  }

  /** The codes among `cs` filed under `b`. */
  ghost function Filed(st: map<string, map<string, int>>, cs: set<string>, b: string, f: Filter, groups: bool): (r: set<string>)
    requires Named(st, groups) && cs <= st.Keys
    ensures r <= cs
  {
    set c | c in cs && Classify(f, groups, c) == b
  }

  /** Value `key` of one context, over its codes filed under `b`. */
  ghost function RecordBucket(st: map<string, map<string, int>>, b: string, key: string, f: Filter, groups: bool): int
    requires Named(st, groups)
  {
    SetSum(Filed(st, st.Keys, b, f, groups), CodeWeights(st, key))
  }

  /** The buckets a context's codes create: those of the codes with at least one value. */
  ghost function RecordBuckets(st: map<string, map<string, int>>, cs: set<string>, f: Filter, groups: bool): set<string>
    requires Named(st, groups) && cs <= st.Keys
  {
    set c | c in cs && st[c] != map[] :: Classify(f, groups, c)
  }

  lemma NamedOf(rm: map<Hash, Record>, groups: bool, h: Hash)
    requires Fileable(rm, groups) && h in rm
    ensures rm[h].statuses.Some? && Named(rm[h].statuses.value, groups)
  {
  }

  /** The per-context bucket values of every context. */
  ghost function BucketWeights(rm: map<Hash, Record>, b: string, key: string, f: Filter, groups: bool): (w: map<Hash, int>)
    requires Fileable(rm, groups)
    ensures w.Keys == rm.Keys
  {
    map h | h in rm :: RecordBucket(rm[h].statuses.value, b, key, f, groups)
  }

  /** The value the status split reports for bucket `b` of group `g`: over every member and every code filed under `b`. */
  ghost function BucketTotal(rm: map<Hash, Record>, g: Group, b: string, key: string, f: Filter, groups: bool): int
    requires Fileable(rm, groups) && g <= rm.Keys
  {
    SetSum(g, BucketWeights(rm, b, key, f, groups))
  }

  /** `b` is created by some member of `g`. */
  ghost predicate GroupBucket(rm: map<Hash, Record>, g: Group, b: string, f: Filter, groups: bool)
    requires Fileable(rm, groups) && g <= rm.Keys
  {
    exists h :: h in g && b in RecordBuckets(rm[h].statuses.value, rm[h].statuses.value.Keys, f, groups)
  }

  /** The metrics of one group's status split: one per bucket, in the order the buckets were created. */
  ghost function StatusBlock(rm: map<Hash, Record>, g: Group, order: seq<string>, m: KongConfig.MetricName,
                             dims: map<string, string>, f: Filter, groups: bool, host: Option<string>): (ms: seq<Metric>)
    requires Fileable(rm, groups) && g <= rm.Keys
    ensures |ms| == |order|
  {
    seq(|order|, i requires 0 <= i < |order| =>
      MetricOf(m, BucketTotal(rm, g, order[i], KongConfig.Token(m), f, groups), StatusDims(dims, order[i]), host))
  }

  /** `status_metric_values[b][key]`, 0 when absent. */
  function Tally(acc: map<string, map<string, int>>, b: string, key: string): int
  {
    if b in acc then Val(acc[b], key) else 0
  }

  /** `for m, v in values.items(): acc[b][m] += v`, `order` recording when `b` is first created. */
  method AddValues(acc: map<string, map<string, int>>, order: seq<string>, b: string, vals: map<string, int>)
    returns (acc': map<string, map<string, int>>, order': seq<string>)
    ensures forall b', key :: b' != b ==> Tally(acc', b', key) == Tally(acc, b', key)
    ensures forall key :: Tally(acc', b, key) == Tally(acc, b, key) + Val(vals, key)
    ensures forall b' :: b' in acc' <==> b' in acc || (b' == b && vals != map[])
    ensures order' == if b !in acc && vals != map[] then order + [b] else order
    ensures NoDuplicates(order) && (forall b' :: b' in order <==> b' in acc) ==>
              NoDuplicates(order') && forall b' :: b' in order' <==> b' in acc'
  {
    acc', order' := acc, order;
    var left := vals.Keys;
    while left != {}
      invariant left <= vals.Keys
      invariant forall b', key :: b' != b ==> Tally(acc', b', key) == Tally(acc, b', key)
      invariant forall key :: Tally(acc', b, key) == Tally(acc, b, key) + (if key in vals && key !in left then vals[key] else 0)
      invariant forall b' :: b' in acc' <==> b' in acc || (b' == b && left != vals.Keys)
      invariant order' == if b !in acc && left != vals.Keys then order + [b] else order
      decreases left
    {
      var key :| key in left;
      if b !in acc' {
        order' := order' + [b];
      }
      var inner := if b in acc' then acc'[b] else map[];
      acc' := acc'[b := inner[key := Val(inner, key) + vals[key]]];
      left := left - {key};
    }
    assert left == {} && (vals != map[] ==> vals.Keys != {});
  }

  /** Filing one more code adds its value to its own bucket, and creates that bucket when it has values. */
  lemma FiledAdd(st: map<string, map<string, int>>, done: set<string>, code: string, b: string, key: string,
                 f: Filter, groups: bool)
    requires Named(st, groups) && done <= st.Keys && code in st && code !in done
    ensures SetSum(Filed(st, done + {code}, b, f, groups), CodeWeights(st, key)) ==
            SetSum(Filed(st, done, b, f, groups), CodeWeights(st, key)) +
            (if Classify(f, groups, code) == b then Val(st[code], key) else 0)
    ensures b in RecordBuckets(st, done + {code}, f, groups) <==>
            b in RecordBuckets(st, done, f, groups) || (b == Classify(f, groups, code) && st[code] != map[])
  {
    if Classify(f, groups, code) == b {
      assert Filed(st, done + {code}, b, f, groups) == Filed(st, done, b, f, groups) + {code};
      SetSumAdd(Filed(st, done, b, f, groups), CodeWeights(st, key), code);
    } else {
      assert Filed(st, done + {code}, b, f, groups) == Filed(st, done, b, f, groups);
    }
  }

  /** The codes `done` are filed into `acc`, which started as `acc0`. */
  ghost predicate FiledSoFar(st: map<string, map<string, int>>, done: set<string>, acc0: map<string, map<string, int>>,
                             acc: map<string, map<string, int>>, key: string, f: Filter, groups: bool)
    requires Named(st, groups) && done <= st.Keys
  {
    forall b ::
      Tally(acc, b, key) == Tally(acc0, b, key) + SetSum(Filed(st, done, b, f, groups), CodeWeights(st, key)) &&
      (b in acc <==> b in acc0 || b in RecordBuckets(st, done, f, groups))
  }

  lemma FiledSoFarNext(st: map<string, map<string, int>>, done: set<string>, code: string,
                       acc0: map<string, map<string, int>>, acc: map<string, map<string, int>>,
                       acc': map<string, map<string, int>>, key: string, f: Filter, groups: bool)
    requires Named(st, groups) && done <= st.Keys && code in st && code !in done
    requires FiledSoFar(st, done, acc0, acc, key, f, groups)
    requires forall b', k :: b' != Classify(f, groups, code) ==> Tally(acc', b', k) == Tally(acc, b', k)
    requires forall k :: Tally(acc', Classify(f, groups, code), k) == Tally(acc, Classify(f, groups, code), k) + Val(st[code], k)
    requires forall b' :: b' in acc' <==> b' in acc || (b' == Classify(f, groups, code) && st[code] != map[])
    ensures FiledSoFar(st, done + {code}, acc0, acc', key, f, groups)
  {
    forall b | true
      ensures Tally(acc', b, key) == Tally(acc0, b, key) + SetSum(Filed(st, done + {code}, b, f, groups), CodeWeights(st, key))
      ensures b in acc' <==> b in acc0 || b in RecordBuckets(st, done + {code}, f, groups)
    {
      FiledAdd(st, done, code, b, key, f, groups);
    }
  }

  /** The inner loop of kong/reporter.py lines 124-130: every code of one context filed and added in. */
  method FileCodes(st: map<string, map<string, int>>, hits: set<string>, misses: set<string>, groups: bool,
                   acc: map<string, map<string, int>>, order: seq<string>, ghost f: Filter, ghost key: string)
    returns (acc': map<string, map<string, int>>, order': seq<string>)
    requires Named(st, groups)
    requires forall x :: x in hits <==> x in st && Hit(f, x)
    requires forall x :: x in misses <==> x in st && !Hit(f, x)
    requires NoDuplicates(order) && forall b :: b in order <==> b in acc
    ensures NoDuplicates(order') && forall b :: b in order' <==> b in acc'
    ensures forall b :: Tally(acc', b, key) == Tally(acc, b, key) + RecordBucket(st, b, key, f, groups)
    ensures forall b :: b in acc' <==> b in acc || b in RecordBuckets(st, st.Keys, f, groups)
  {
    acc', order' := acc, order;
    var left := st.Keys;
    ghost var done: set<string> := {};
    while left != {}
      invariant done + left == st.Keys && done !! left
      invariant NoDuplicates(order') && forall b :: b in order' <==> b in acc'
      invariant FiledSoFar(st, done, acc, acc', key, f, groups)
      decreases left
    {
      var code :| code in left;
      BucketIsClassify(f, groups, st.Keys, hits, misses, code);
      var b := Bucket(code, hits, misses, groups);
      ghost var before := acc';
      acc', order' := AddValues(acc', order', b, st[code]);
      FiledSoFarNext(st, done, code, acc, before, acc', key, f, groups);
      done, left := done + {code}, left - {code};
    }
    assert done == st.Keys;
  }

  /** The membership of the created buckets grows one context at a time. */
  lemma GroupBucketAdd(rm: map<Hash, Record>, seen: Group, h: Hash, b: string, f: Filter, groups: bool)
    requires Fileable(rm, groups) && seen <= rm.Keys && h in rm
    ensures GroupBucket(rm, seen + {h}, b, f, groups) <==>
            GroupBucket(rm, seen, b, f, groups) || b in RecordBuckets(rm[h].statuses.value, rm[h].statuses.value.Keys, f, groups)
  {
    if GroupBucket(rm, seen + {h}, b, f, groups) {
      var h' :| h' in seen + {h} && b in RecordBuckets(rm[h'].statuses.value, rm[h'].statuses.value.Keys, f, groups);
    }
  }

  /** The member loop of kong/reporter.py lines 121-130: every member's codes filed and added in. */
  method TallyGroup(rm: map<Hash, Record>, g: Group, key: string, groups: bool, lists: ListPair, c: Caches, ghost f: Filter)
    returns (acc: map<string, map<string, int>>, order: seq<string>, c': Caches)
    requires Fileable(rm, groups) && g <= rm.Keys && Holds(f, lists) && CacheSound(c, f)
    ensures CacheSound(c', f) && c.hits <= c'.hits && c.misses <= c'.misses
    ensures NoDuplicates(order) && forall b :: b in order <==> GroupBucket(rm, g, b, f, groups)
    ensures forall b :: Tally(acc, b, key) == BucketTotal(rm, g, b, key, f, groups)
  {
    acc, order, c' := map[], [], c;
    var left := g;
    ghost var seen: Group := {};
    while left != {}
      invariant seen + left == g && seen !! left
      invariant CacheSound(c', f) && c.hits <= c'.hits && c.misses <= c'.misses
      invariant NoDuplicates(order) && forall b :: b in order <==> b in acc
      invariant forall b :: Tally(acc, b, key) == SetSum(seen, BucketWeights(rm, b, key, f, groups))
      invariant forall b :: b in acc <==> GroupBucket(rm, seen, b, f, groups)
      decreases left
    {
      var h :| h in left;
      NamedOf(rm, groups, h);
      var st := rm[h].statuses.value;
      var hits, misses;
      hits, misses, c' := FilterCodes(st.Keys, c', lists, f);
      acc, order := FileCodes(st, hits, misses, groups, acc, order, f, key);
      forall b | true
        ensures Tally(acc, b, key) == SetSum(seen + {h}, BucketWeights(rm, b, key, f, groups))
        ensures b in acc <==> GroupBucket(rm, seen + {h}, b, f, groups)
      {
        SetSumAdd(seen, BucketWeights(rm, b, key, f, groups), h);
        GroupBucketAdd(rm, seen, h, b, f, groups);
      }
      seen, left := seen + {h}, left - {h};
    }
  }

  /** The bucket loop of kong/reporter.py lines 133-141: one metric per bucket, in creation order. */
  method EmitBuckets(acc: map<string, map<string, int>>, order: seq<string>, typeInstance: string,
                     metricType: KongConfig.MetricType, key: string, dims: map<string, string>, host: Option<string>)
    returns (ms: seq<Metric>)
    ensures |ms| == |order|
    ensures forall i :: 0 <= i < |order| ==>
              ms[i] == MetricArgs(typeInstance, metricType, Tally(acc, order[i], key), StatusDims(dims, order[i]), host)
  {
    ms := [];
    var current := dims;
    for i := 0 to |order|
      invariant |ms| == i
      invariant forall j :: 0 <= j < i ==>
                  ms[j] == MetricArgs(typeInstance, metricType, Tally(acc, order[j], key), StatusDims(dims, order[j]), host)
      invariant i == 0 ==> current == dims
      invariant i > 0 ==> current == StatusDims(dims, order[i - 1])
    {
      var b := order[i];
      if i > 0 {
        StatusDimsOverwrite(dims, order[i - 1], b);
      }
      current := StatusDims(current, b);
      ms := ms + [MetricArgs(typeInstance, metricType, Tally(acc, b, key), current, host)];
    }
  }

  /** One pass of the group loop of `calculate_status_code_scope_metrics`. */
  method StatusGroup(rm: map<Hash, Record>, g: Group, m: KongConfig.MetricName, p: Plan, k: Knobs,
                     extra: map<string, string>, groups: bool, lists: ListPair, c: Caches, ghost f: Filter,
                     host: Option<string>)
    returns (ms: seq<Metric>, c': Caches, order: seq<string>, ghost rep: Hash)
    requires Complete(rm) && Fileable(rm, groups) && g != {} && g <= rm.Keys
    requires KnobsHold(p, k) && Holds(f, lists) && CacheSound(c, f)
    ensures CacheSound(c', f) && c.hits <= c'.hits && c.misses <= c'.misses
    ensures rep in g && NoDuplicates(order) && forall b :: b in order <==> GroupBucket(rm, g, b, f, groups)
    ensures ms == StatusBlock(rm, g, order, m, Dimensions(extra, rm[rep], p), f, groups, host)
  {
    var acc, dims;
    acc, order, c' := TallyGroup(rm, g, KongConfig.Token(m), groups, lists, c, f);
    dims, rep := GroupDimensions(rm, g, p, k, extra);
    ms := EmitBuckets(acc, order, KongConfig.TypeInstance(m), KongConfig.TypeOf(m), KongConfig.Token(m), dims, host);
  }

  /** Each `orders[i]` lists the buckets group `i` creates, each once. */
  ghost predicate BucketsOrdered(rm: map<Hash, Record>, gs: seq<Group>, orders: seq<seq<string>>, f: Filter, groups: bool)
    requires Fileable(rm, groups) && Within(gs, rm.Keys)
  {
    |orders| == |gs| &&
    forall i :: 0 <= i < |gs| ==>
      NoDuplicates(orders[i]) && forall b :: b in orders[i] <==> GroupBucket(rm, gs[i], b, f, groups)
  }

  /** The metrics of `calculate_status_code_scope_metrics`: each group's buckets, group after group. */
  ghost function StatusMetrics(rm: map<Hash, Record>, gs: seq<Group>, reps: seq<Hash>, orders: seq<seq<string>>,
                               m: KongConfig.MetricName, p: Plan, extra: map<string, string>, f: Filter, groups: bool,
                               host: Option<string>): seq<Metric>
    requires Fileable(rm, groups) && Within(gs, rm.Keys) && Represents(reps, gs) && |orders| == |gs|
    decreases |gs|
  {
    if |gs| == 0 then []
    else
      var n := |gs| - 1;
      StatusMetrics(rm, gs[..n], reps[..n], orders[..n], m, p, extra, f, groups, host) +
      StatusBlock(rm, gs[n], orders[n], m, Dimensions(extra, rm[reps[n]], p), f, groups, host)
  }

  /** Extending the groups by one extends the report by that group's block. */
  lemma StatusMetricsNext(rm: map<Hash, Record>, gs: seq<Group>, reps: seq<Hash>, orders: seq<seq<string>>,
                          g: Group, rep: Hash, order: seq<string>, m: KongConfig.MetricName, p: Plan,
                          extra: map<string, string>, f: Filter, groups: bool, host: Option<string>)
    requires Fileable(rm, groups) && Within(gs, rm.Keys) && Represents(reps, gs) && |orders| == |gs|
    requires g <= rm.Keys && rep in g
    ensures Within(gs + [g], rm.Keys) && Represents(reps + [rep], gs + [g])
    ensures StatusMetrics(rm, gs + [g], reps + [rep], orders + [order], m, p, extra, f, groups, host) ==
            StatusMetrics(rm, gs, reps, orders, m, p, extra, f, groups, host) +
            StatusBlock(rm, g, order, m, Dimensions(extra, rm[rep], p), f, groups, host)
  {
    assert (gs + [g])[..|gs|] == gs && (reps + [rep])[..|gs|] == reps && (orders + [order])[..|gs|] == orders;
  }

  lemma BucketsOrderedNext(rm: map<Hash, Record>, gs: seq<Group>, orders: seq<seq<string>>, g: Group, order: seq<string>,
                           f: Filter, groups: bool)
    requires Fileable(rm, groups) && Within(gs, rm.Keys) && g <= rm.Keys && BucketsOrdered(rm, gs, orders, f, groups)
    requires NoDuplicates(order) && forall b :: b in order <==> GroupBucket(rm, g, b, f, groups)
    ensures Within(gs + [g], rm.Keys) && BucketsOrdered(rm, gs + [g], orders + [order], f, groups)
  {
  }

  /** `calculate_status_code_scope_metrics` over the groups of one report, threading the caches. */
  method StatusScopeMetrics(rm: map<Hash, Record>, gs: seq<Group>, m: KongConfig.MetricName, p: Plan, k: Knobs,
                            extra: map<string, string>, groups: bool, lists: ListPair, c: Caches, ghost f: Filter,
                            host: Option<string>)
    returns (ms: seq<Metric>, c': Caches, ghost reps: seq<Hash>, ghost orders: seq<seq<string>>)
    requires Complete(rm) && Fileable(rm, groups) && NoneEmpty(gs) && Within(gs, rm.Keys)
    requires KnobsHold(p, k) && Holds(f, lists) && CacheSound(c, f)
    ensures CacheSound(c', f) && c.hits <= c'.hits && c.misses <= c'.misses
    ensures Represents(reps, gs) && BucketsOrdered(rm, gs, orders, f, groups)
    ensures ms == StatusMetrics(rm, gs, reps, orders, m, p, extra, f, groups, host)
  {
    ms, c', reps, orders := [], c, [], [];
    for i := 0 to |gs|
      invariant CacheSound(c', f) && c.hits <= c'.hits && c.misses <= c'.misses
      invariant Represents(reps, gs[..i]) && BucketsOrdered(rm, gs[..i], orders, f, groups)
      invariant ms == StatusMetrics(rm, gs[..i], reps, orders, m, p, extra, f, groups, host)
    {
      var block, order;
      ghost var rep;
      block, c', order, rep := StatusGroup(rm, gs[i], m, p, k, extra, groups, lists, c', f, host);
      assert gs[..i + 1] == gs[..i] + [gs[i]];
      StatusMetricsNext(rm, gs[..i], reps, orders, gs[i], rep, order, m, p, extra, f, groups, host);
      BucketsOrderedNext(rm, gs[..i], orders, gs[i], order, f, groups);
      ms, reps, orders := ms + block, reps + [rep], orders + [order];
    }
    assert gs[..|gs|] == gs;
  }

  // ---------------------------------------------------------------------
  // Instance-wide metrics

  /**
   * `calculate_flat_metrics`: the store's value of the metric under the extra
   * dimensions; a metric missing from the store raises `KeyError` (None).
   */
  function FlatMetric(store: map<string, int>, m: KongConfig.MetricName, extra: map<string, string>,
                      host: Option<string>): (r: Option<Metric>)
    ensures r.Some? <==> KongConfig.Token(m) in store
    ensures r.Some? ==> r.value == MetricOf(m, store[KongConfig.Token(m)], extra, host)
  {
    if KongConfig.Token(m) in store then Some(MetricOf(m, store[KongConfig.Token(m)], extra, host)) else None
  }

  /** One flat metric per name, in order; None as soon as one is missing from the store. */
  function FlatMetrics(store: map<string, int>, ms: seq<KongConfig.MetricName>, extra: map<string, string>,
                       host: Option<string>): (r: Option<seq<Metric>>)
    ensures r.Some? <==> forall m :: m in ms ==> KongConfig.Token(m) in store
    ensures r.Some? ==> |r.value| == |ms|
    ensures r.Some? ==> forall i :: 0 <= i < |ms| ==> Some(r.value[i]) == FlatMetric(store, ms[i], extra, host)
    decreases |ms|
  {
    if |ms| == 0 then Some([])
    else
      var init := FlatMetrics(store, ms[..|ms| - 1], extra, host);
      var last := FlatMetric(store, ms[|ms| - 1], extra, host);
      assert forall m :: m in ms <==> m in ms[..|ms| - 1] || m == ms[|ms| - 1];
      if init.None? || last.None? then None
      else
        assert forall i :: 0 <= i < |ms| - 1 ==> (init.value + [last.value])[i] == init.value[i];
        Some(init.value + [last.value])
  }

  /**
   * The instance-wide loops of `update_and_report`: the enabled names of `ms`
   * in turn, stopping at the first one missing from the store.
   */
  method FlatReport(store: map<string, int>, ms: seq<KongConfig.MetricName>, enabled: set<KongConfig.MetricName>,
                    extra: map<string, string>, host: Option<string>) returns (r: Option<seq<Metric>>)
    ensures r == FlatMetrics(store, Enabled(ms, enabled), extra, host)
  {
    var metrics := [];
    for i := 0 to |ms|
      invariant Some(metrics) == FlatMetrics(store, Enabled(ms[..i], enabled), extra, host)
    {
      EnabledNext(ms, i, enabled);
      if ms[i] in enabled {
        var m := FlatMetric(store, ms[i], extra, host);
        if m.None? {
          assert ms[i] in Enabled(ms, enabled);
          return None;
        }
        FlatMetricsNext(store, Enabled(ms[..i], enabled), ms[i], extra, host);
        metrics := metrics + [m.value];
      } else {
        assert Enabled(ms[..i + 1], enabled) == Enabled(ms[..i], enabled);
      }
    }
    assert ms[..|ms|] == ms;
    r := Some(metrics);
  }

  // ---------------------------------------------------------------------
  // Which metrics a report holds

  /** The four metrics that are split by status code when status codes are reported. */
  const StatusScoped: seq<KongConfig.MetricName> :=
    [KongConfig.ResponseCount, KongConfig.UpstreamLatency, KongConfig.RequestSize, KongConfig.ResponseSize]

  /** `server_metrics`. */
  const ServerMetricNames: seq<KongConfig.MetricName> :=
    [KongConfig.ConnectionsHandled, KongConfig.ConnectionsAccepted, KongConfig.ConnectionsWaiting,
     KongConfig.ConnectionsActive, KongConfig.ConnectionsReading, KongConfig.ConnectionsWriting,
     KongConfig.TotalRequests]

  /** `database_metrics`. */
  const DatabaseMetricNames: seq<KongConfig.MetricName> := [KongConfig.DatabaseReachable]

  /** `http_metrics`: the latencies, and the status-scoped four when status codes are not reported. */
  function HttpFamily(statusCodes: bool): seq<KongConfig.MetricName>
  {
    [KongConfig.RequestLatency, KongConfig.KongLatency] + (if statusCodes then [] else StatusScoped)
  }

  /** `status_metrics`. */
  function StatusFamily(statusCodes: bool): seq<KongConfig.MetricName>
  {
    if statusCodes then StatusScoped else []
  }

  /** The names of `ms` that the configuration enables, in order. */
  function Enabled(ms: seq<KongConfig.MetricName>, enabled: set<KongConfig.MetricName>): (r: seq<KongConfig.MetricName>)
    ensures forall x :: x in r <==> x in ms && x in enabled
    ensures |r| <= |ms|
    decreases |ms|
  {
    if |ms| == 0 then []
    else Enabled(ms[..|ms| - 1], enabled) + (if ms[|ms| - 1] in enabled then [ms[|ms| - 1]] else [])
  }

  function Count(b: bool): int
  {
    if b then 1 else 0
  }

  /**
   * Every metric of the table is reported by exactly one family: the
   * latencies always per HTTP-method group, the status-scoped four per
   * HTTP-method group or per status code depending on `will_report_status_codes`,
   * and the rest as instance-wide values.
   */
  lemma FamiliesPartition(statusCodes: bool, m: KongConfig.MetricName)
    ensures Count(m in HttpFamily(statusCodes)) + Count(m in StatusFamily(statusCodes)) +
            Count(m in ServerMetricNames) + Count(m in DatabaseMetricNames) == 1
    ensures m in StatusFamily(statusCodes) <==> statusCodes && m in StatusScoped
    ensures m in HttpFamily(statusCodes) <==>
            m == KongConfig.RequestLatency || m == KongConfig.KongLatency || (!statusCodes && m in StatusScoped)
  {
  }

  /** The blocks of metrics, one after the other. */
  function Flatten(blocks: seq<seq<Metric>>): seq<Metric>
    decreases |blocks|
  {
    if |blocks| == 0 then [] else Flatten(blocks[..|blocks| - 1]) + blocks[|blocks| - 1]
  }

  // ---------------------------------------------------------------------
  // A whole report

  /** Each selected metric is a counter of every context, and each `repss[i]` represents the groups. */
  ghost predicate HttpReady(rm: map<Hash, Record>, gs: seq<Group>, sel: seq<KongConfig.MetricName>, repss: seq<seq<Hash>>)
    decreases |sel|
  {
    |repss| == |sel| &&
    (|sel| > 0 ==>
       HttpReady(rm, gs, sel[..|sel| - 1], repss[..|sel| - 1]) &&
       Counted(rm, KongConfig.Token(sel[|sel| - 1])) && Represents(repss[|sel| - 1], gs))
  }

  /** The HTTP-method scope part of a report: one block per selected metric. */
  ghost function HttpPart(rm: map<Hash, Record>, gs: seq<Group>, sel: seq<KongConfig.MetricName>, repss: seq<seq<Hash>>,
                          p: Plan, extra: map<string, string>, host: Option<string>): seq<Metric>
    requires Within(gs, rm.Keys) && HttpReady(rm, gs, sel, repss)
    decreases |sel|
  {
    if |sel| == 0 then []
    else
      var n := |sel| - 1;
      HttpPart(rm, gs, sel[..n], repss[..n], p, extra, host) + HttpBlock(rm, gs, repss[n], sel[n], p, extra, host)
  }

  /** Each `repss[i]` represents the groups and each `orderss[i]` lists their buckets. */
  ghost predicate StatusReady(rm: map<Hash, Record>, gs: seq<Group>, sel: seq<KongConfig.MetricName>, repss: seq<seq<Hash>>,
                              orderss: seq<seq<seq<string>>>, f: Filter, groups: bool)
    requires Within(gs, rm.Keys) && (|sel| > 0 ==> Fileable(rm, groups))
    decreases |sel|
  {
    |repss| == |sel| && |orderss| == |sel| &&
    (|sel| > 0 ==>
       StatusReady(rm, gs, sel[..|sel| - 1], repss[..|sel| - 1], orderss[..|sel| - 1], f, groups) &&
       Represents(repss[|sel| - 1], gs) && BucketsOrdered(rm, gs, orderss[|sel| - 1], f, groups))
  }

  /** The status-code scope part of a report: one run of blocks per selected metric. */
  ghost function StatusPart(rm: map<Hash, Record>, gs: seq<Group>, sel: seq<KongConfig.MetricName>, repss: seq<seq<Hash>>,
                            orderss: seq<seq<seq<string>>>, p: Plan, extra: map<string, string>, f: Filter, groups: bool,
                            host: Option<string>): seq<Metric>
    requires Within(gs, rm.Keys) && (|sel| > 0 ==> Fileable(rm, groups)) && StatusReady(rm, gs, sel, repss, orderss, f, groups)
    decreases |sel|
  {
    if |sel| == 0 then []
    else
      var n := |sel| - 1;
      StatusPart(rm, gs, sel[..n], repss[..n], orderss[..n], p, extra, f, groups, host) +
      StatusMetrics(rm, gs, repss[n], orderss[n], sel[n], p, extra, f, groups, host)
  }

  /** The report of `update_and_report`: every part in turn, or nothing when an instance-wide value is missing. */
  function Assemble(http: seq<Metric>, status: seq<Metric>, server: Option<seq<Metric>>, database: Option<seq<Metric>>): (r: Option<seq<Metric>>)
    ensures r.Some? <==> server.Some? && database.Some?
    ensures r.Some? ==> r.value == http + status + server.value + database.value
  {
    if server.None? || database.None? then None else Some(http + status + server.value + database.value)
  }

  lemma HttpPartNext(rm: map<Hash, Record>, gs: seq<Group>, sel: seq<KongConfig.MetricName>, repss: seq<seq<Hash>>,
                     m: KongConfig.MetricName, reps: seq<Hash>, p: Plan, extra: map<string, string>, host: Option<string>)
    requires Within(gs, rm.Keys) && HttpReady(rm, gs, sel, repss)
    requires Counted(rm, KongConfig.Token(m)) && Represents(reps, gs)
    ensures HttpReady(rm, gs, sel + [m], repss + [reps])
    ensures HttpPart(rm, gs, sel + [m], repss + [reps], p, extra, host) ==
            HttpPart(rm, gs, sel, repss, p, extra, host) + HttpBlock(rm, gs, reps, m, p, extra, host)
  {
    assert (sel + [m])[..|sel|] == sel && (repss + [reps])[..|sel|] == repss;
  }

  lemma StatusPartNext(rm: map<Hash, Record>, gs: seq<Group>, sel: seq<KongConfig.MetricName>, repss: seq<seq<Hash>>,
                       orderss: seq<seq<seq<string>>>, m: KongConfig.MetricName, reps: seq<Hash>, orders: seq<seq<string>>,
                       p: Plan, extra: map<string, string>, f: Filter, groups: bool, host: Option<string>)
    requires Within(gs, rm.Keys) && Fileable(rm, groups) && StatusReady(rm, gs, sel, repss, orderss, f, groups)
    requires Represents(reps, gs) && BucketsOrdered(rm, gs, orders, f, groups)
    ensures StatusReady(rm, gs, sel + [m], repss + [reps], orderss + [orders], f, groups)
    ensures StatusPart(rm, gs, sel + [m], repss + [reps], orderss + [orders], p, extra, f, groups, host) ==
            StatusPart(rm, gs, sel, repss, orderss, p, extra, f, groups, host) +
            StatusMetrics(rm, gs, reps, orders, m, p, extra, f, groups, host)
  {
    assert (sel + [m])[..|sel|] == sel && (repss + [reps])[..|sel|] == repss && (orderss + [orders])[..|sel|] == orderss;
  }

  lemma FlatMetricsNext(store: map<string, int>, ms: seq<KongConfig.MetricName>, m: KongConfig.MetricName,
                        extra: map<string, string>, host: Option<string>)
    requires FlatMetrics(store, ms, extra, host).Some? && FlatMetric(store, m, extra, host).Some?
    ensures FlatMetrics(store, ms + [m], extra, host) ==
            Some(FlatMetrics(store, ms, extra, host).value + [FlatMetric(store, m, extra, host).value])
  {
    assert (ms + [m])[..|ms|] == ms;
  }

  /** Selecting one more candidate extends the selection by it when it is enabled. */
  lemma EnabledNext(ms: seq<KongConfig.MetricName>, i: int, enabled: set<KongConfig.MetricName>)
    requires 0 <= i < |ms|
    ensures Enabled(ms[..i + 1], enabled) == Enabled(ms[..i], enabled) + (if ms[i] in enabled then [ms[i]] else [])
  {
    assert ms[..i + 1][..i] == ms[..i];
  }

  /** The HTTP-method scope part for the selection `sel` so far, with its representatives. */
  ghost predicate HttpSoFar(rm: map<Hash, Record>, gs: seq<Group>, sel: seq<KongConfig.MetricName>, repss: seq<seq<Hash>>,
                            metrics: seq<Metric>, p: Plan, extra: map<string, string>, host: Option<string>)
    requires Within(gs, rm.Keys)
  {
    HttpReady(rm, gs, sel, repss) && metrics == HttpPart(rm, gs, sel, repss, p, extra, host)
  }

  lemma HttpSoFarNext(rm: map<Hash, Record>, gs: seq<Group>, ms: seq<KongConfig.MetricName>, i: int,
                      enabled: set<KongConfig.MetricName>, repss: seq<seq<Hash>>, metrics: seq<Metric>, reps: seq<Hash>,
                      block: seq<Metric>, p: Plan, extra: map<string, string>, host: Option<string>)
    requires Within(gs, rm.Keys) && 0 <= i < |ms|
    requires HttpSoFar(rm, gs, Enabled(ms[..i], enabled), repss, metrics, p, extra, host)
    requires ms[i] in enabled ==>
             Counted(rm, KongConfig.Token(ms[i])) && Represents(reps, gs) && block == HttpBlock(rm, gs, reps, ms[i], p, extra, host)
    ensures ms[i] in enabled ==> HttpSoFar(rm, gs, Enabled(ms[..i + 1], enabled), repss + [reps], metrics + block, p, extra, host)
    ensures ms[i] !in enabled ==> HttpSoFar(rm, gs, Enabled(ms[..i + 1], enabled), repss, metrics, p, extra, host)
  {
    EnabledNext(ms, i, enabled);
    if ms[i] in enabled {
      HttpPartNext(rm, gs, Enabled(ms[..i], enabled), repss, ms[i], reps, p, extra, host);
    } else {
      assert Enabled(ms[..i + 1], enabled) == Enabled(ms[..i], enabled);
    }
  }

  /** The status-code scope part for the selection `sel` so far, with its representatives and bucket orders. */
  ghost predicate StatusSoFar(rm: map<Hash, Record>, gs: seq<Group>, sel: seq<KongConfig.MetricName>, repss: seq<seq<Hash>>,
                              orderss: seq<seq<seq<string>>>, metrics: seq<Metric>, p: Plan, extra: map<string, string>,
                              f: Filter, groups: bool, host: Option<string>)
    requires Within(gs, rm.Keys) && (|sel| > 0 ==> Fileable(rm, groups))
  {
    StatusReady(rm, gs, sel, repss, orderss, f, groups) &&
    metrics == StatusPart(rm, gs, sel, repss, orderss, p, extra, f, groups, host)
  }

  /** A non-empty selection of `ms[..i]` has an element enabled in `ms`. */
  lemma EnabledPrefix(ms: seq<KongConfig.MetricName>, i: int, enabled: set<KongConfig.MetricName>)
    requires 0 <= i <= |ms| && Enabled(ms[..i], enabled) != []
    ensures Enabled(ms, enabled) != []
  {
    var x := Enabled(ms[..i], enabled)[0];
    assert x in ms[..i] && x in enabled;
    assert x in Enabled(ms, enabled);
  }

  lemma StatusSoFarNext(rm: map<Hash, Record>, gs: seq<Group>, ms: seq<KongConfig.MetricName>, i: int,
                        enabled: set<KongConfig.MetricName>, repss: seq<seq<Hash>>, orderss: seq<seq<seq<string>>>,
                        metrics: seq<Metric>, reps: seq<Hash>, orders: seq<seq<string>>, block: seq<Metric>, p: Plan,
                        extra: map<string, string>, f: Filter, groups: bool, host: Option<string>)
    requires Within(gs, rm.Keys) && 0 <= i < |ms| && (Enabled(ms, enabled) != [] ==> Fileable(rm, groups))
    requires Enabled(ms[..i], enabled) != [] ==> Fileable(rm, groups)
    requires StatusSoFar(rm, gs, Enabled(ms[..i], enabled), repss, orderss, metrics, p, extra, f, groups, host)
    requires ms[i] in enabled ==>
             Fileable(rm, groups) && Represents(reps, gs) && BucketsOrdered(rm, gs, orders, f, groups) &&
             block == StatusMetrics(rm, gs, reps, orders, ms[i], p, extra, f, groups, host)
    ensures Enabled(ms[..i + 1], enabled) != [] ==> Fileable(rm, groups)
    ensures ms[i] in enabled ==>
            StatusSoFar(rm, gs, Enabled(ms[..i + 1], enabled), repss + [reps], orderss + [orders], metrics + block,
                        p, extra, f, groups, host)
    ensures ms[i] !in enabled ==>
            StatusSoFar(rm, gs, Enabled(ms[..i + 1], enabled), repss, orderss, metrics, p, extra, f, groups, host)
  {
    EnabledNext(ms, i, enabled);
    if Enabled(ms[..i + 1], enabled) != [] {
      EnabledPrefix(ms, i + 1, enabled);
    }
    if ms[i] in enabled {
      StatusPartNext(rm, gs, Enabled(ms[..i], enabled), repss, orderss, ms[i], reps, orders, p, extra, f, groups, host);
    } else {
      assert Enabled(ms[..i + 1], enabled) == Enabled(ms[..i], enabled);
    }
  }

  /** The HTTP-method scope loop of `update_and_report` over the candidates `ms`. */
  method HttpMethodScopeReport(rm: map<Hash, Record>, gs: seq<Group>, ms: seq<KongConfig.MetricName>,
                               enabled: set<KongConfig.MetricName>, p: Plan, k: Knobs, extra: map<string, string>,
                               host: Option<string>)
    returns (metrics: seq<Metric>, ghost repss: seq<seq<Hash>>)
    requires Complete(rm) && KnobsHold(p, k) && NoneEmpty(gs) && Within(gs, rm.Keys)
    requires forall m :: m in ms && m in enabled ==> Counted(rm, KongConfig.Token(m))
    ensures HttpSoFar(rm, gs, Enabled(ms, enabled), repss, metrics, p, extra, host)
  {
    metrics, repss := [], [];
    for i := 0 to |ms|
      invariant HttpSoFar(rm, gs, Enabled(ms[..i], enabled), repss, metrics, p, extra, host)
    {
      if ms[i] in enabled {
        var block;
        ghost var reps;
        block, reps := HttpScopeMetrics(rm, gs, ms[i], p, k, extra, host);
        HttpSoFarNext(rm, gs, ms, i, enabled, repss, metrics, reps, block, p, extra, host);
        metrics, repss := metrics + block, repss + [reps];
      } else {
        HttpSoFarNext(rm, gs, ms, i, enabled, repss, metrics, [], [], p, extra, host);
      }
    }
    assert ms[..|ms|] == ms;
  }

  /** The status-code scope loop of `update_and_report` over the candidates `ms`, threading the caches. */
  method StatusCodeScopeReport(rm: map<Hash, Record>, gs: seq<Group>, ms: seq<KongConfig.MetricName>,
                               enabled: set<KongConfig.MetricName>, p: Plan, k: Knobs, extra: map<string, string>,
                               groups: bool, lists: ListPair, c: Caches, ghost f: Filter, host: Option<string>)
    returns (metrics: seq<Metric>, c': Caches, ghost repss: seq<seq<Hash>>, ghost orderss: seq<seq<seq<string>>>)
    requires Complete(rm) && KnobsHold(p, k) && Holds(f, lists) && CacheSound(c, f)
    requires Enabled(ms, enabled) != [] ==> Fileable(rm, groups)
    requires NoneEmpty(gs) && Within(gs, rm.Keys)
    ensures CacheSound(c', f) && c.hits <= c'.hits && c.misses <= c'.misses
    ensures StatusSoFar(rm, gs, Enabled(ms, enabled), repss, orderss, metrics, p, extra, f, groups, host)
  {
    metrics, c', repss, orderss := [], c, [], [];
    for i := 0 to |ms|
      invariant CacheSound(c', f) && c.hits <= c'.hits && c.misses <= c'.misses
      invariant Enabled(ms[..i], enabled) != [] ==> Fileable(rm, groups)
      invariant StatusSoFar(rm, gs, Enabled(ms[..i], enabled), repss, orderss, metrics, p, extra, f, groups, host)
    {
      metrics, c', repss, orderss :=
        StatusCodeScopeStep(rm, gs, ms, i, enabled, p, k, extra, groups, lists, c', f, host, metrics, repss, orderss);
    }
    assert ms[..|ms|] == ms;
  }

  /** One candidate of the status-code scope loop: its metrics appended when it is enabled. */
  method StatusCodeScopeStep(rm: map<Hash, Record>, gs: seq<Group>, ms: seq<KongConfig.MetricName>, i: int,
                             enabled: set<KongConfig.MetricName>, p: Plan, k: Knobs, extra: map<string, string>,
                             groups: bool, lists: ListPair, c: Caches, ghost f: Filter, host: Option<string>,
                             metrics: seq<Metric>, ghost repss: seq<seq<Hash>>, ghost orderss: seq<seq<seq<string>>>)
    returns (metrics': seq<Metric>, c': Caches, ghost repss': seq<seq<Hash>>, ghost orderss': seq<seq<seq<string>>>)
    requires Complete(rm) && KnobsHold(p, k) && Holds(f, lists) && CacheSound(c, f)
    requires 0 <= i < |ms| && (Enabled(ms, enabled) != [] ==> Fileable(rm, groups))
    requires NoneEmpty(gs) && Within(gs, rm.Keys)
    requires Enabled(ms[..i], enabled) != [] ==> Fileable(rm, groups)
    requires StatusSoFar(rm, gs, Enabled(ms[..i], enabled), repss, orderss, metrics, p, extra, f, groups, host)
    ensures CacheSound(c', f) && c.hits <= c'.hits && c.misses <= c'.misses
    ensures Enabled(ms[..i + 1], enabled) != [] ==> Fileable(rm, groups)
    ensures StatusSoFar(rm, gs, Enabled(ms[..i + 1], enabled), repss', orderss', metrics', p, extra, f, groups, host)
  {
    if ms[i] in enabled {
      assert ms[i] in Enabled(ms, enabled);
      var block;
      ghost var reps, orders;
      block, c', reps, orders := StatusScopeMetrics(rm, gs, ms[i], p, k, extra, groups, lists, c, f, host);
      StatusSoFarNext(rm, gs, ms, i, enabled, repss, orderss, metrics, reps, orders, block, p, extra, f, groups, host);
      metrics', repss', orderss' := metrics + block, repss + [reps], orderss + [orders];
    } else {
      StatusSoFarNext(rm, gs, ms, i, enabled, repss, orderss, metrics, [], [], [], p, extra, f, groups, host);
      metrics', c', repss', orderss' := metrics, c, repss, orderss;
    }
  }

  /**
   * What `update_and_report` reports: the HTTP-method scope part for the
   * enabled metrics of the HTTP family, the status-code scope part for those
   * of the status family, then the enabled server and database metrics, or
   * nothing when one of those is missing from its store.
   */
  ghost predicate IsReport(report: Option<seq<Metric>>, rm: map<Hash, Record>, gs: seq<Group>, server: map<string, int>,
                           database: map<string, int>, willReportStatusCodes: bool, enabled: set<KongConfig.MetricName>,
                           repss: seq<seq<Hash>>, sreps: seq<seq<Hash>>, orderss: seq<seq<seq<string>>>, p: Plan,
                           extra: map<string, string>, f: Filter, groups: bool, host: Option<string>)
  {
    var http, status := Enabled(HttpFamily(willReportStatusCodes), enabled), Enabled(StatusFamily(willReportStatusCodes), enabled);
    Within(gs, rm.Keys) && (status != [] ==> Fileable(rm, groups)) &&
    HttpReady(rm, gs, http, repss) && StatusReady(rm, gs, status, sreps, orderss, f, groups) &&
    report == Assemble(HttpPart(rm, gs, http, repss, p, extra, host),
                       StatusPart(rm, gs, status, sreps, orderss, p, extra, f, groups, host),
                       FlatMetrics(server, Enabled(ServerMetricNames, enabled), extra, host),
                       FlatMetrics(database, Enabled(DatabaseMetricNames, enabled), extra, host))
  }

  /** `update_and_report` after regrouping, on the snapshot's values. */
  method Report(rm: map<Hash, Record>, gs: seq<Group>, server: map<string, int>, database: map<string, int>,
                willReportStatusCodes: bool, enabled: set<KongConfig.MetricName>, p: Plan, k: Knobs,
                extra: map<string, string>, groups: bool, lists: ListPair, c: Caches, ghost f: Filter, host: Option<string>)
    returns (report: Option<seq<Metric>>, c': Caches, ghost repss: seq<seq<Hash>>, ghost sreps: seq<seq<Hash>>,
             ghost orderss: seq<seq<seq<string>>>)
    requires Complete(rm) && KnobsHold(p, k) && Holds(f, lists) && CacheSound(c, f)
    requires NoneEmpty(gs) && Within(gs, rm.Keys)
    requires forall m :: m in HttpFamily(willReportStatusCodes) && m in enabled ==> Counted(rm, KongConfig.Token(m))
    requires Enabled(StatusFamily(willReportStatusCodes), enabled) != [] ==> Fileable(rm, groups)
    ensures CacheSound(c', f) && c.hits <= c'.hits && c.misses <= c'.misses
    ensures IsReport(report, rm, gs, server, database, willReportStatusCodes, enabled, repss, sreps, orderss, p, extra, f,
                     groups, host)
  {
    var metrics, statusMetrics;
    metrics, repss := HttpMethodScopeReport(rm, gs, HttpFamily(willReportStatusCodes), enabled, p, k, extra, host);
    statusMetrics, c', sreps, orderss :=
      StatusCodeScopeReport(rm, gs, StatusFamily(willReportStatusCodes), enabled, p, k, extra, groups, lists, c, f, host);
    var serverMetrics := FlatReport(server, ServerMetricNames, enabled, extra, host);
    var databaseMetrics := FlatReport(database, DatabaseMetricNames, enabled, extra, host);
    report := Assemble(metrics, statusMetrics, serverMetrics, databaseMetrics);
  }

  /** `update_http_method_scope_groups` on a snapshot: a fresh grouper's HTTP-method scoped groups. */
  method Regroup(state: KongState, config: KongConfig.Config, ghost p: Plan, ghost f: Filter)
    returns (groups: seq<Group>, ghost o: Order)
    requires state.Valid() && config.Valid() && p == PlanOf(config) && Complete(state.resourceMetrics)
    requires RoutedServices(state.resourceMetrics, p) && MethodsKnown(state.resourceMetrics, p)
    requires Holds(f, PairOf(config, KongConfig.StatusCodes))
    ensures KnobsHold(p, KnobsOf(config)) && Holds(f, PairOf(config, KongConfig.StatusCodes))
    ensures Fits(state.resourceMetrics, p, o) && Ordered(state.resourceMetrics, state.identity, p, o)
    ensures groups == Grouping(state.resourceMetrics, p, o)
    ensures Sound(state.resourceMetrics, state.identity) ==> Partition(groups, state.resourceMetrics.Keys)
    ensures IndicesLive(state.identity) ==> NoneEmpty(groups) && Within(groups, state.resourceMetrics.Keys)
  {
    StateIndexes(state.resourceMetrics, state.identity);
    var grouper := new Grouper(state, config);
    groups, o := grouper.HttpMethodScopedGroups();
  }

  /**
   * What one read leaves: the caches `c` grown to `c'` and still sound, the
   * groups of the grouper under some order it may pick (non-empty sets of
   * known contexts, which partition the contexts under the assumptions of
   * `Sound`), and the report those groups give.
   */
  ghost predicate ReadOutcome(rm: map<Hash, Record>, identity: map<Dim, Index<Option<string>>>, server: map<string, int>,
                              database: map<string, int>, willReportStatusCodes: bool, enabled: set<KongConfig.MetricName>,
                              extra: map<string, string>, groups: bool, host: Option<string>, p: Plan, f: Filter, c: Caches,
                              gs: seq<Group>, o: Order, report: Option<seq<Metric>>, c': Caches, repss: seq<seq<Hash>>,
                              sreps: seq<seq<Hash>>, orderss: seq<seq<seq<string>>>)
  {
    CacheSound(c', f) && c.hits <= c'.hits && c.misses <= c'.misses &&
    p.api.idDim in identity && p.api.nameDim in identity && p.service.idDim in identity && p.service.nameDim in identity &&
    Fits(rm, p, o) && Ordered(rm, identity, p, o) && gs == Grouping(rm, p, o) &&
    NoneEmpty(gs) && Within(gs, rm.Keys) && (Sound(rm, identity) ==> Partition(gs, rm.Keys)) &&
    IsReport(report, rm, gs, server, database, willReportStatusCodes, enabled, repss, sreps, orderss, p, extra, f, groups, host)
  }

  /** One read on a fetched snapshot: the groups, then the report and the grown caches. */
  method Round(state: KongState, config: KongConfig.Config, rm: map<Hash, Record>, ghost identity: map<Dim, Index<Option<string>>>,
               server: map<string, int>, database: map<string, int>, willReportStatusCodes: bool,
               enabled: set<KongConfig.MetricName>, extra: map<string, string>, groups: bool, host: Option<string>,
               p: Plan, ghost f: Filter, c: Caches)
    returns (gs: seq<Group>, ghost o: Order, report: Option<seq<Metric>>, c': Caches, ghost repss: seq<seq<Hash>>,
             ghost sreps: seq<seq<Hash>>, ghost orderss: seq<seq<seq<string>>>)
    requires state.Valid() && rm == state.resourceMetrics && identity == state.identity
    requires server == state.serverMetrics && database == state.databaseMetrics
    requires config.Valid() && p == PlanOf(config) && f == FilterOf(config, KongConfig.StatusCodes)
    requires willReportStatusCodes == config.flags.statusCodes && enabled == config.enabled
    requires extra == config.extraDimensions && groups == config.reportStatusCodeGroups && host == config.host
    requires CacheSound(c, f) && Complete(rm) && RoutedServices(rm, p) && MethodsKnown(rm, p) && IndicesLive(identity)
    requires forall m :: m in HttpFamily(willReportStatusCodes) && m in enabled ==> Counted(rm, KongConfig.Token(m))
    requires Enabled(StatusFamily(willReportStatusCodes), enabled) != [] ==> Fileable(rm, groups)
    ensures ReadOutcome(rm, identity, server, database, willReportStatusCodes, enabled, extra, groups, host, p, f, c,
                        gs, o, report, c', repss, sreps, orderss)
  {
    var knobs, lists := KnobsOf(config), PairOf(config, KongConfig.StatusCodes);
    ConfigAgrees(config);
    gs, o := Regroup(state, config, p, f);
    report, c', repss, sreps, orderss :=
      Report(rm, gs, server, database, willReportStatusCodes, enabled, p, knobs, extra, groups, lists, c, f, host);
  }

  /** The configuration's lists are valid and hold `plan` and `statusCodes`. */
  ghost predicate Agree(config: KongConfig.Config, plan: Plan, statusCodes: Filter)
    reads config, config.Lists()
  {
    config.Valid() && plan == PlanOf(config) && statusCodes == FilterOf(config, KongConfig.StatusCodes)
  }

  class Reporter {
    /** The KongState snapshot of the current report; none before the first. */
    var kongState: KongState?
    var httpMethodScopedGroups: seq<Group>
    var scHitsCache: set<string>
    var scMissesCache: set<string>
    const config: KongConfig.Config

    /** The grouping and dimension settings, and the status-code lists, as the configuration holds them. */
    const plan: Plan
    const statusCodes: Filter

    /** `__init__`, with the configuration `load_config_and_register_read` parses. */
    constructor (config: KongConfig.Config)
      requires config.Valid()
      ensures this.config == config && kongState == null && httpMethodScopedGroups == []
      ensures scHitsCache == {} && scMissesCache == {}
      ensures Agrees() && CachesSound()
    {
      assert Agree(config, PlanOf(config), FilterOf(config, KongConfig.StatusCodes));
      this.config := config;
      plan := PlanOf(config);
      statusCodes := FilterOf(config, KongConfig.StatusCodes);
      kongState := null;
      httpMethodScopedGroups := [];
      scHitsCache, scMissesCache := {}, {};
    }

    /** Valid pattern lists, holding what `plan` and `statusCodes` say. */
    ghost predicate Agrees()
      reads config, config.Lists()
    {
      Agree(config, plan, statusCodes)
    }

    /** The status-code caches agree with the status-code lists. */
    ghost predicate CachesSound()
      reads this
    {
      CacheSound(Caches(scHitsCache, scMissesCache), statusCodes)
    }

    lemma Lists()
      requires Agrees()
      ensures KnobsHold(plan, KnobsOf(config)) && Holds(statusCodes, PairOf(config, KongConfig.StatusCodes))
    {
      ConfigAgrees(config);
    }

    /** `update_http_method_scope_groups`: a fresh grouper over the current snapshot. */
    method UpdateHttpMethodScopeGroups() returns (ghost o: Order)
      modifies this`httpMethodScopedGroups
      requires kongState != null && kongState.Valid() && Agrees() && Complete(kongState.resourceMetrics)
      requires RoutedServices(kongState.resourceMetrics, plan) && MethodsKnown(kongState.resourceMetrics, plan)
      ensures Fits(old(kongState.resourceMetrics), plan, o)
      ensures Ordered(old(kongState.resourceMetrics), old(kongState.identity), plan, o)
      ensures httpMethodScopedGroups == Grouping(old(kongState.resourceMetrics), plan, o)
      ensures Sound(old(kongState.resourceMetrics), old(kongState.identity)) ==>
              Partition(httpMethodScopedGroups, old(kongState.resourceMetrics).Keys)
    {
      var groups;
      Lists();
      groups, o := Regroup(kongState, config, plan, statusCodes);
      SetGroups(groups);
    }

    /** The groups a regrouping leaves behind. */
    method SetGroups(groups: seq<Group>)
      modifies this`httpMethodScopedGroups
      ensures httpMethodScopedGroups == groups
    {
      httpMethodScopedGroups := groups;
    }

    /** `calculate_http_method_scope_metrics`. */
    method CalculateHttpMethodScopeMetrics(m: KongConfig.MetricName) returns (ms: seq<Metric>, ghost reps: seq<Hash>)
      requires kongState != null && Agrees() && Complete(kongState.resourceMetrics)
      requires Counted(kongState.resourceMetrics, KongConfig.Token(m))
      requires NoneEmpty(httpMethodScopedGroups) && Within(httpMethodScopedGroups, kongState.resourceMetrics.Keys)
      ensures Represents(reps, httpMethodScopedGroups)
      ensures ms == HttpBlock(kongState.resourceMetrics, httpMethodScopedGroups, reps, m, plan,
                              config.extraDimensions, config.host)
    {
      Lists();
      ms, reps := HttpScopeMetrics(kongState.resourceMetrics, httpMethodScopedGroups, m, plan, KnobsOf(config),
                                   config.extraDimensions, config.host);
    }

    /** `calculate_status_code_scope_metrics`. */
    method CalculateStatusCodeScopeMetrics(m: KongConfig.MetricName)
      returns (ms: seq<Metric>, ghost reps: seq<Hash>, ghost orders: seq<seq<string>>)
      modifies this`scHitsCache, this`scMissesCache
      requires kongState != null && Agrees() && CachesSound() && Complete(kongState.resourceMetrics)
      requires Fileable(kongState.resourceMetrics, config.reportStatusCodeGroups)
      requires NoneEmpty(httpMethodScopedGroups) && Within(httpMethodScopedGroups, kongState.resourceMetrics.Keys)
      ensures CachesSound() && old(scHitsCache) <= scHitsCache && old(scMissesCache) <= scMissesCache
      ensures Represents(reps, httpMethodScopedGroups)
      ensures BucketsOrdered(old(kongState.resourceMetrics), httpMethodScopedGroups, orders, statusCodes,
                             config.reportStatusCodeGroups)
      ensures ms == StatusMetrics(old(kongState.resourceMetrics), httpMethodScopedGroups, reps, orders, m, plan,
                                  config.extraDimensions, statusCodes, config.reportStatusCodeGroups, config.host)
    {
      Lists();
      var c;
      ms, c, reps, orders := StatusScopeMetrics(kongState.resourceMetrics, httpMethodScopedGroups, m, plan,
                                                KnobsOf(config), config.extraDimensions, config.reportStatusCodeGroups,
                                                PairOf(config, KongConfig.StatusCodes), Caches(scHitsCache, scMissesCache),
                                                statusCodes, config.host);
      SetCaches(c);
    }

    /** The caches a filtering pass leaves behind. */
    method SetCaches(c: Caches)
      modifies this`scHitsCache, this`scMissesCache
      ensures scHitsCache == c.hits && scMissesCache == c.misses
    {
      scHitsCache, scMissesCache := c.hits, c.misses;
    }

    /** `filter_status_codes_by_pattern_lists`. */
    method FilterStatusCodesByPatternLists(codes: set<string>) returns (hits: set<string>, misses: set<string>)
      modifies this`scHitsCache, this`scMissesCache
      requires Agrees() && CachesSound()
      ensures CachesSound() && old(scHitsCache) <= scHitsCache && old(scMissesCache) <= scMissesCache
      ensures forall x :: x in hits <==> x in codes && Hit(statusCodes, x)
      ensures forall x :: x in misses <==> x in codes && !Hit(statusCodes, x)
      ensures (forall x :: x in codes ==> x in old(scHitsCache) || x in old(scMissesCache)) ==>
              scHitsCache == old(scHitsCache) && scMissesCache == old(scMissesCache)
    {
      Lists();
      var c;
      hits, misses, c := FilterCodes(codes, Caches(scHitsCache, scMissesCache), PairOf(config, KongConfig.StatusCodes),
                                     statusCodes);
      SetCaches(c);
    }

    /** `dimensions_from_http_method_group`. */
    method DimensionsFromHttpMethodGroup(g: Group) returns (dims: map<string, string>, ghost rep: Hash)
      requires kongState != null && Agrees() && Complete(kongState.resourceMetrics)
      requires g != {} && g <= kongState.resourceMetrics.Keys
      ensures rep in g && dims == Dimensions(config.extraDimensions, kongState.resourceMetrics[rep], plan)
    {
      Lists();
      dims, rep := GroupDimensions(kongState.resourceMetrics, g, plan, KnobsOf(config), config.extraDimensions);
    }

    /**
     * `update_and_report` on a freshly fetched snapshot: regroup, then the
     * HTTP-method scope metrics, the status-code scope metrics and the
     * instance-wide metrics the configuration enables; a missing
     * instance-wide value aborts the report (None) after the caches grew.
     */
    method UpdateAndReport(state: KongState)
      returns (report: Option<seq<Metric>>, ghost o: Order, ghost repss: seq<seq<Hash>>, ghost sreps: seq<seq<Hash>>,
               ghost orderss: seq<seq<seq<string>>>)
      modifies this`kongState, this`httpMethodScopedGroups, this`scHitsCache, this`scMissesCache
      requires state.Valid() && Agrees() && CachesSound() && Complete(state.resourceMetrics)
      requires RoutedServices(state.resourceMetrics, plan) && MethodsKnown(state.resourceMetrics, plan)
      requires IndicesLive(state.identity)
      requires forall m :: m in HttpFamily(config.flags.statusCodes) && m in config.enabled ==>
                 Counted(state.resourceMetrics, KongConfig.Token(m))
      requires Enabled(StatusFamily(config.flags.statusCodes), config.enabled) != [] ==>
                 Fileable(state.resourceMetrics, config.reportStatusCodeGroups)
      ensures kongState == state
      ensures ReadOutcome(old(state.resourceMetrics), old(state.identity), old(state.serverMetrics),
                          old(state.databaseMetrics), old(config.flags.statusCodes), config.enabled, config.extraDimensions,
                          config.reportStatusCodeGroups, config.host, plan, statusCodes,
                          Caches(old(scHitsCache), old(scMissesCache)), httpMethodScopedGroups, o, report,
                          Caches(scHitsCache, scMissesCache), repss, sreps, orderss)
    {
      var gs, c;
      gs, o, report, c, repss, sreps, orderss :=
        Round(state, config, state.resourceMetrics, state.identity, state.serverMetrics, state.databaseMetrics,
              config.flags.statusCodes, config.enabled, config.extraDimensions, config.reportStatusCodeGroups, config.host,
              plan, statusCodes, Caches(scHitsCache, scMissesCache));
      Install(state, gs, c);
    }

    /** The state a read leaves behind: its snapshot, its groups and the grown caches. */
    method Install(state: KongState, gs: seq<Group>, c: Caches)
      modifies this`kongState, this`httpMethodScopedGroups, this`scHitsCache, this`scMissesCache
      ensures kongState == state && httpMethodScopedGroups == gs && scHitsCache == c.hits && scMissesCache == c.misses
    {
      kongState, httpMethodScopedGroups := state, gs;
      scHitsCache, scMissesCache := c.hits, c.misses;
    }
  }
}
