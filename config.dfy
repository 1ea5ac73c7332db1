/**
 * kong/config.py: turns the parsed plugin configuration into the
 * whitelist/blacklist pattern lists and the `will_report_*` behaviour flags
 * that the grouper and the reporter read.
 *
 * The collectdutil base class that parses descriptors is not part of this
 * model: its parsed attributes arrive as a Settings value.
 */
module KongConfig {
  import opened Wrappers
  import opened Text
  import Glob
  import opened Utils

  // ---------------------------------------------------------------------
  // The seven reportable dimensions and the metric table

  /** A dimension with a `report_*` flag and a `*_whitelist`/`*_blacklist` pair. */
  datatype Kind = HttpMethods | StatusCodes | ApiNames | ApiIds | ServiceNames | ServiceIds | RouteIds

  const AllKinds: set<Kind> := {HttpMethods, StatusCodes, ApiNames, ApiIds, ServiceNames, ServiceIds, RouteIds}

  /** The order in which `update_pattern_lists` visits the report flags. */
  const ReportOrder: seq<Kind> := [HttpMethods, RouteIds, ServiceNames, ServiceIds, ApiNames, ApiIds, StatusCodes]

  /** The metrics of the `metrics` table. */
  datatype MetricName =
    | ResponseCount | ResponseSize | RequestSize | KongLatency | UpstreamLatency | RequestLatency
    | TotalRequests | ConnectionsHandled | ConnectionsAccepted | ConnectionsWaiting | ConnectionsActive
    | ConnectionsReading | ConnectionsWriting | DatabaseReachable

  datatype MetricType = Counter | Gauge

  /** The metric's key in the decoded stores and in the configuration. */
  function Token(m: MetricName): string
  {
    match m
    case ResponseCount => "response_count"
    case ResponseSize => "response_size"
    case RequestSize => "request_size"
    case KongLatency => "kong_latency"
    case UpstreamLatency => "upstream_latency"
    case RequestLatency => "request_latency"
    case TotalRequests => "total_requests"
    case ConnectionsHandled => "connections_handled"
    case ConnectionsAccepted => "connections_accepted"
    case ConnectionsWaiting => "connections_waiting"
    case ConnectionsActive => "connections_active"
    case ConnectionsReading => "connections_reading"
    case ConnectionsWriting => "connections_writing"
    case DatabaseReachable => "database_reachable"
  }

  /** The collectd type instance a metric is emitted under. */
  function TypeInstance(m: MetricName): string
  {
    match m
    case ResponseCount => "kong.responses.count"
    case ResponseSize => "kong.responses.size"
    case RequestSize => "kong.requests.size"
    case KongLatency => "kong.kong.latency"
    case UpstreamLatency => "kong.upstream.latency"
    case RequestLatency => "kong.requests.latency"
    case TotalRequests => "kong.requests.count"
    case ConnectionsHandled => "kong.connections.handled"
    case ConnectionsAccepted => "kong.connections.accepted"
    case ConnectionsWaiting => "kong.connections.waiting"
    case ConnectionsActive => "kong.connections.active"
    case ConnectionsReading => "kong.connections.reading"
    case ConnectionsWriting => "kong.connections.writing"
    case DatabaseReachable => "kong.database.reachable"
  }

  /** Connection gauges and the database flag are gauges; everything else counts. */
  function TypeOf(m: MetricName): MetricType
  {
    match m
    case ConnectionsWaiting | ConnectionsActive | ConnectionsReading | ConnectionsWriting | DatabaseReachable => Gauge
    case _ => Counter
  }

  // ---------------------------------------------------------------------
  // Configured pattern-list values

  /**
   * A scalar as collectd delivers it. A number is a float, known here by its
   * truncation toward zero (`int(v)`) and its `str()` rendering.
   */
  datatype Item = Str(s: string) | Num(truncated: int, text: string) | Bool(b: bool)

  /** One element of a list setting: a scalar, or a list or tuple of scalars. */
  datatype Entry = Scalar(item: Item) | Several(items: seq<Item>)

  /** A `*_whitelist`/`*_blacklist` attribute as parsed: unset, a scalar, a tuple, or a list. */
  datatype Setting = Unset | Single(item: Item) | Tuple(items: seq<Item>) | List(entries: seq<Entry>)

  /** Python's truth value of a scalar: the empty string, a zero float and False are false. */
  predicate Falsy(item: Item)
  {
    match item
    case Str(s) => s == ""
    case Num(_, text) => text == "0.0" || text == "-0.0"
    case Bool(b) => !b
  }

  /** `val = getattr(...) or []`, then a non-list wrapped into a one-element list. */
  function Entries(setting: Setting): seq<Entry>
  {
    match setting
    case Unset => []
    case Single(item) => if Falsy(item) then [] else [Scalar(item)]
    case Tuple(items) => if |items| == 0 then [] else [Several(items)]
    case List(entries) => entries
  }

  /** A non-list entry is wrapped into a one-element list. */
  function EntryItems(e: Entry): seq<Item>
  {
    match e
    case Scalar(item) => [item]
    case Several(items) => items
  }

  /**
   * `text_type(v)`; in a status-code list a float is first truncated with
   * `int()`, so 200.0 becomes "200".
   */
  function Render(item: Item, statusList: bool): string
  {
    match item
    case Str(s) => s
    case Num(t, text) => if statusList then IntToString(t) else text
    case Bool(b) => if b then "True" else "False"
  }

  function RenderAll(items: seq<Item>, statusList: bool): (r: seq<string>)
    ensures |r| == |items|
  {
    seq(|items|, i requires 0 <= i < |items| => Render(items[i], statusList))
  }

  /** The elements the `pl.update(*value)` calls append, entry after entry. */
  function ElementsOf(entries: seq<Entry>, statusList: bool): seq<string>
    decreases |entries|
  {
    if |entries| == 0 then []
    else ElementsOf(entries[..|entries| - 1], statusList) + RenderAll(EntryItems(entries[|entries| - 1]), statusList)
  }

  /** The elements of the pattern list built from a setting. */
  function ConfiguredElements(setting: Setting, statusList: bool): seq<string>
  {
    ElementsOf(Entries(setting), statusList)
  }

  /** Repeated directives keep their configured order: elements distribute over concatenation. */
  lemma {:induction false} ElementsOfConcat(a: seq<Entry>, b: seq<Entry>, statusList: bool)
    ensures ElementsOf(a + b, statusList) == ElementsOf(a, statusList) + ElementsOf(b, statusList)
    decreases |b|
  {
    if |b| == 0 {
      assert a + b == a;
    } else {
      var bi, last := b[..|b| - 1], RenderAll(EntryItems(b[|b| - 1]), statusList);
      assert (a + b)[..|a + b| - 1] == a + bi;
      assert (a + b)[|a + b| - 1] == b[|b| - 1];
      calc {
        ElementsOf(a + b, statusList);
        ElementsOf(a + bi, statusList) + last;
        { ElementsOfConcat(a, bi, statusList); }
        ElementsOf(a, statusList) + ElementsOf(bi, statusList) + last;
        ElementsOf(a, statusList) + (ElementsOf(bi, statusList) + last);
      }
    }
  }

  /** A truthy scalar setting becomes a one-element list; a falsy one an empty list. */
  lemma ScalarWrapped(item: Item, statusList: bool)
    ensures ConfiguredElements(Single(item), statusList) == if Falsy(item) then [] else [Render(item, statusList)]
  {
    if !Falsy(item) {
      var es := Entries(Single(item));
      assert es[..0] == [];
      assert ElementsOf(es, statusList) == RenderAll([item], statusList);
      assert RenderAll([item], statusList)[0] == Render(item, statusList);
    }
  }

  /** A float status code renders as the decimal digits of its integer part. */
  lemma StatusFloatRendered(t: int, text: string)
    ensures Render(Num(t, text), true) == IntToString(t)
    ensures ParseInt(Render(Num(t, text), true)) == Some(t)
  {
    ParseIntToString(t);
  }

  // ---------------------------------------------------------------------
  // Defaults and behaviour flags

  /**
   * `update_pattern_lists` on one whitelist: a configured whitelist is kept;
   * an empty one stays empty unless its kind is reported, and then it
   * becomes `['*']`, which lets every string through.
   */
  function Defaulted(flag: bool, es: seq<string>): (r: seq<string>)
    ensures |es| > 0 ==> r == es
    ensures |r| > 0 <==> flag || |es| > 0
    ensures flag && |es| == 0 ==> r == ["*"] && forall ps, s :: CompiledFrom(ps, r) ==> Glob.AnyMatch(ps, s)
  {
    var r := if flag && |es| == 0 then ["*"] else es;
    assert flag && |es| == 0 ==> forall ps, s :: CompiledFrom(ps, r) ==> Glob.AnyMatch(ps, s) by {
      forall ps, s | flag && |es| == 0 && CompiledFrom(ps, r)
        ensures Glob.AnyMatch(ps, s)
      {
        assert ps[0] == Glob.Translate("*");
        Glob.StarListMatchesAll(ps, s);
      }
    }
    r
  }

  /** `will_report_<kind>` as `set_will_report_flags` derives it from the final whitelist. */
  function WillReportFrom(k: Kind, report: bool, statusCodeGroups: bool, whitelist: seq<string>): bool
  {
    if k == StatusCodes then report || statusCodeGroups || |whitelist| > 0 else |whitelist| > 0
  }

  /**
   * After defaulting, a kind is reported iff its flag is set or its configured
   * whitelist is non-empty (or, for status codes, status-code groups are on):
   * a non-empty whitelist turns reporting on even when the flag is off.
   */
  lemma WillReportAfterDefault(k: Kind, report: bool, statusCodeGroups: bool, configured: seq<string>)
    ensures WillReportFrom(k, report, statusCodeGroups, Defaulted(report, configured)) ==
            (report || |configured| > 0 || (k == StatusCodes && statusCodeGroups))
  {
  }

  /** The error `__init__` raises when both status-code switches are on. */
  const MutualExclusionMessage: string :=
    "Cannot simultaneously ReportStatusCodes and ReportStatusCodeGroups.  " +
    "Please specify desired StatusCodes and set ReportStatusCodeGroups to selectively report metrics."

  /** What the collectdutil base class hands over after parsing the plugin block. */
  datatype Settings = Settings(
    reported: set<Kind>,                // the kinds whose report_<kind> flag is on
    reportStatusCodeGroups: bool,
    whitelists: map<Kind, Setting>,     // the raw `*_whitelist` attributes; a missing kind is unset
    blacklists: map<Kind, Setting>,     // the raw `*_blacklist` attributes
    host: Option<string>,
    extraDimensions: map<string, string>,
    enabled: set<MetricName>)           // the metrics switched on

  /** The raw setting of one list, Unset when the configuration does not give it. */
  function SettingOf(lists: map<Kind, Setting>, k: Kind): Setting
  {
    if k in lists then lists[k] else Unset
  }

  /** The attribute a pattern list is stored under: `<kind>_whitelist` or `<kind>_blacklist`. */
  datatype ListName = ListName(kind: Kind, white: bool)

  /** The fourteen `*_list` descriptors `__init__` visits. */
  const ListNames: seq<ListName> := [
    ListName(HttpMethods, true), ListName(HttpMethods, false),
    ListName(StatusCodes, true), ListName(StatusCodes, false),
    ListName(ApiNames, true), ListName(ApiNames, false),
    ListName(ApiIds, true), ListName(ApiIds, false),
    ListName(ServiceNames, true), ListName(ServiceNames, false),
    ListName(ServiceIds, true), ListName(ServiceIds, false),
    ListName(RouteIds, true), ListName(RouteIds, false)]

  /** The raw setting behind one list attribute. */
  function SettingFor(s: Settings, n: ListName): Setting
  {
    SettingOf(if n.white then s.whitelists else s.blacklists, n.kind)
  }

  /** The elements `__init__` gives a list: status-code lists truncate floats. */
  function BuiltElements(s: Settings, n: ListName): seq<string>
  {
    ConfiguredElements(SettingFor(s, n), n.kind == StatusCodes)
  }

  /** The elements a list ends with: a reported kind's empty whitelist defaults to `*`. */
  function FinalElements(s: Settings, n: ListName): seq<string>
  {
    if n.white then Defaulted(n.kind in s.reported, BuiltElements(s, n)) else BuiltElements(s, n)
  }

  /** `PatternList()` followed by one `update(*value)` per entry of the setting. */
  method BuildPatternList(setting: Setting, statusList: bool) returns (pl: PatternList)
    ensures fresh(pl) && pl.Valid()
    ensures pl.elements == ConfiguredElements(setting, statusList)
  {
    var entries := Entries(setting);
    pl := new PatternList([]);
    var i := 0;
    while i < |entries|
      invariant 0 <= i <= |entries|
      invariant fresh(pl) && pl.Valid()
      invariant pl.elements == ElementsOf(entries[..i], statusList)
    {
      assert entries[..i + 1][..i] == entries[..i];
      pl.Update(RenderAll(EntryItems(entries[i]), statusList));
      i := i + 1;
    }
    assert entries[..i] == entries;
  }

  /**
   * The loop of `__init__` over the list descriptors: one fresh pattern list
   * per attribute. `owner` names the attribute each list was built for, so
   * different attributes hold different lists.
   */
  method BuildPatternLists(s: Settings) returns (lists: map<ListName, PatternList>, ghost owner: map<PatternList, ListName>)
    ensures forall n :: n in lists
    ensures forall n :: n in lists ==>
      fresh(lists[n]) && lists[n].Valid() && lists[n].elements == BuiltElements(s, n) &&
      lists[n] in owner && owner[lists[n]] == n
  {
    lists, owner := map[], map[];
    var i := 0;
    while i < |ListNames|
      invariant 0 <= i <= |ListNames|
      invariant forall n :: n in ListNames[..i] ==> n in lists
      invariant forall n :: n in lists ==>
        fresh(lists[n]) && lists[n].Valid() && lists[n].elements == BuiltElements(s, n) &&
        lists[n] in owner && owner[lists[n]] == n
    {
      var n := ListNames[i];
      assert ListNames[..i + 1] == ListNames[..i] + [n];
      var pl := BuildPatternList(SettingFor(s, n), n.kind == StatusCodes);
      lists := lists[n := pl];
      owner := owner[pl := n];
      i := i + 1;
    }
    assert ListNames[..i] == ListNames;
    forall n ensures n in lists {
      ListNameListed(n);
    }
  }

  /** `__init__` visits every list attribute. */
  lemma ListNameListed(n: ListName)
    ensures n in ListNames
  {
    var i := 2 * (match n.kind
      case HttpMethods => 0 case StatusCodes => 1 case ApiNames => 2 case ApiIds => 3
      case ServiceNames => 4 case ServiceIds => 5 case RouteIds => 6) + (if n.white then 0 else 1);
    assert ListNames[i] == n;
  }

  /** The `will_report_*` attributes `set_will_report_flags` computes. */
  datatype WillReportFlags = WillReportFlags(
    httpMethods: bool, statusCodes: bool, apiNames: bool, apiIds: bool,
    serviceNames: bool, serviceIds: bool, routeIds: bool, apis: bool, services: bool)
  {
    /** `will_report_<kind>`. */
    function WillReport(k: Kind): bool
    {
      match k
      case HttpMethods => httpMethods
      case StatusCodes => statusCodes
      case ApiNames => apiNames
      case ApiIds => apiIds
      case ServiceNames => serviceNames
      case ServiceIds => serviceIds
      case RouteIds => routeIds
    }
  }

  class Config {
    const reported: set<Kind>
    const reportStatusCodeGroups: bool
    const host: Option<string>
    const extraDimensions: map<string, string>
    const enabled: set<MetricName>

    /** The fourteen `<kind>_whitelist` / `<kind>_blacklist` attributes. */
    const lists: map<ListName, PatternList>

    /** The attribute each pattern list is stored under. */
    ghost const owner: map<PatternList, ListName>

    /** The `will_report_*` behaviour flags. */
    var flags: WillReportFlags

    /** Every attribute is set. */
    ghost predicate Complete()
    {
      forall n :: n in lists
    }

    /** `<kind>_whitelist`. */
    function Whitelist(k: Kind): PatternList
      requires Complete()
    {
      lists[ListName(k, true)]
    }

    /** `<kind>_blacklist`. */
    function Blacklist(k: Kind): PatternList
      requires Complete()
    {
      lists[ListName(k, false)]
    }

    ghost function Whitelists(): set<object>
    {
      set n | n in lists && n.white :: lists[n]
    }

    /** Every pattern list the configuration owns. */
    ghost function Lists(): set<object>
    {
      set n | n in lists :: lists[n]
    }

    /** Each list is owned by its own attribute, so the fourteen are distinct; each is valid. */
    ghost predicate Valid()
      reads Lists()
    {
      Complete() &&
      forall n :: n in lists ==> lists[n] in owner && owner[lists[n]] == n && lists[n].Valid()
    }

    /** The behaviour flags agree with the current whitelists. */
    ghost predicate FlagsSet()
      reads this, Lists()
      requires Complete()
    {
      flags.httpMethods == (|Whitelist(HttpMethods).elements| > 0) &&
      flags.statusCodes == (StatusCodes in reported || reportStatusCodeGroups || |Whitelist(StatusCodes).elements| > 0) &&
      flags.apiNames == (|Whitelist(ApiNames).elements| > 0) &&
      flags.apiIds == (|Whitelist(ApiIds).elements| > 0) &&
      flags.serviceNames == (|Whitelist(ServiceNames).elements| > 0) &&
      flags.serviceIds == (|Whitelist(ServiceIds).elements| > 0) &&
      flags.routeIds == (|Whitelist(RouteIds).elements| > 0) &&
      flags.apis == (flags.apiNames || flags.apiIds) &&
      flags.services == (flags.serviceNames || flags.serviceIds)
    }

    /** The flag of every kind, read off FlagsSet. */
    lemma WillReportOf(k: Kind)
      requires Complete() && FlagsSet()
      ensures flags.WillReport(k) == WillReportFrom(k, k in reported, reportStatusCodeGroups, Whitelist(k).elements)
    {
    }

    /**
     * The first part of `Config.__init__` past the base class: the fourteen
     * pattern lists, built from the parsed attributes. Load completes it.
     */
    constructor (s: Settings)
      ensures Valid()
      ensures forall o :: o in Lists() ==> fresh(o)
      ensures reported == s.reported && reportStatusCodeGroups == s.reportStatusCodeGroups
      ensures host == s.host && extraDimensions == s.extraDimensions && enabled == s.enabled
      ensures forall n :: n in lists ==> lists[n].elements == BuiltElements(s, n)
    {
      reported := s.reported;
      reportStatusCodeGroups := s.reportStatusCodeGroups;
      host := s.host;
      extraDimensions := s.extraDimensions;
      enabled := s.enabled;
      var built;
      ghost var own;
      built, own := BuildPatternLists(s);
      lists := built;
      owner := own;
      flags := WillReportFlags(false, false, false, false, false, false, false, false, false);
    }

    /** Different attributes hold different pattern lists. */
    lemma ListsDistinct(n: ListName, n': ListName)
      requires Valid()
      ensures n != n' ==> lists[n] != lists[n']
    {
    }

    /** One step of `update_pattern_lists`: `*` for a reported kind whose whitelist is empty. */
    method DefaultWhitelist(k: Kind)
      requires Valid()
      modifies Whitelist(k)
      ensures Valid()
      ensures Whitelist(k).elements == Defaulted(k in reported, old(Whitelist(k).elements))
    {
      var whitelist := Whitelist(k);
      if k in reported && |whitelist.elements| == 0 {
        whitelist.Update(["*"]);
      }
    }

    /** `update_pattern_lists`: each reported kind whose whitelist is empty gets `*`. */
    method UpdatePatternLists()
      requires Valid()
      modifies Whitelists()
      ensures Valid()
      ensures forall n :: n in lists ==>
        lists[n].elements == if n.white then Defaulted(n.kind in reported, old(lists[n].elements)) else old(lists[n].elements)
    {
      var i := 0;
      while i < |ReportOrder|
        invariant 0 <= i <= |ReportOrder|
        invariant Valid()
        invariant forall k :: Whitelist(k).elements ==
                    (if k in ReportOrder[..i] then Defaulted(k in reported, old(Whitelist(k).elements))
                     else old(Whitelist(k).elements))
        invariant forall k :: Blacklist(k).elements == old(Blacklist(k).elements)
      {
        var k := ReportOrder[i];
        assert ReportOrder[..i + 1] == ReportOrder[..i] + [k];
        DefaultWhitelist(k);
        forall k' ensures Whitelist(k').elements ==
          (if k' in ReportOrder[..i + 1] then Defaulted(k' in reported, old(Whitelist(k').elements))
           else old(Whitelist(k').elements))
          && Blacklist(k').elements == old(Blacklist(k').elements)
        {
          ListsDistinct(ListName(k', true), ListName(k, true));
          ListsDistinct(ListName(k', false), ListName(k, true));
        }
        i := i + 1;
      }
      assert ReportOrder[..i] == ReportOrder;
      forall n | n in lists
        ensures lists[n].elements == if n.white then Defaulted(n.kind in reported, old(lists[n].elements)) else old(lists[n].elements)
      {
        assert n == ListName(n.kind, n.white);
        KindOrdered(n.kind);
      }
    }

    /** The rest of `__init__` once the mutual-exclusion check has passed. */
    method Configure()
      requires Valid()
      modifies Lists(), this`flags
      ensures Valid() && FlagsSet()
      ensures forall n :: n in lists ==>
        lists[n].elements == if n.white then Defaulted(n.kind in reported, old(lists[n].elements)) else old(lists[n].elements)
    {
      assert forall o :: o in Whitelists() ==> o in Lists();
      UpdatePatternLists();
      SetWillReportFlags();
    }

    /** `set_will_report_flags`: the behaviour flags from the final whitelists. */
    method SetWillReportFlags()
      requires Complete()
      modifies this`flags
      ensures FlagsSet()
    {
      var apiNames := |Whitelist(ApiNames).elements| > 0;
      var apiIds := |Whitelist(ApiIds).elements| > 0;
      var serviceNames := |Whitelist(ServiceNames).elements| > 0;
      var serviceIds := |Whitelist(ServiceIds).elements| > 0;
      flags := WillReportFlags(
        httpMethods := |Whitelist(HttpMethods).elements| > 0,
        statusCodes := StatusCodes in reported || reportStatusCodeGroups || |Whitelist(StatusCodes).elements| > 0,
        apiNames := apiNames, apiIds := apiIds, serviceNames := serviceNames, serviceIds := serviceIds,
        routeIds := |Whitelist(RouteIds).elements| > 0,
        apis := apiNames || apiIds, services := serviceNames || serviceIds);
    }
  }

  /** `update_pattern_lists` visits every kind. */
  lemma KindOrdered(k: Kind)
    ensures k in ReportOrder
  {
    match k
    case HttpMethods => assert ReportOrder[0] == k;
    case RouteIds => assert ReportOrder[1] == k;
    case ServiceNames => assert ReportOrder[2] == k;
    case ServiceIds => assert ReportOrder[3] == k;
    case ApiNames => assert ReportOrder[4] == k;
    case ApiIds => assert ReportOrder[5] == k;
    case StatusCodes => assert ReportOrder[6] == k;
  }

  /**
   * `Config(config)`: the TypeError when both ReportStatusCodes and
   * ReportStatusCodeGroups are on, otherwise the configured object.
   */
  method Load(s: Settings) returns (r: Result<Config, string>)
    ensures r.Err? <==> StatusCodes in s.reported && s.reportStatusCodeGroups
    ensures r.Err? ==> r.error == MutualExclusionMessage
    ensures r.Ok? ==> fresh(r.value) && r.value.Valid() && r.value.Complete() && r.value.FlagsSet()
    ensures r.Ok? ==> r.value.reported == s.reported && r.value.reportStatusCodeGroups == s.reportStatusCodeGroups
    ensures r.Ok? ==> r.value.host == s.host && r.value.extraDimensions == s.extraDimensions && r.value.enabled == s.enabled
    ensures r.Ok? ==> forall n :: n in r.value.lists ==> r.value.lists[n].elements == FinalElements(s, n)
    ensures r.Ok? ==> forall k ::
      r.value.flags.WillReport(k) == (k in s.reported || |BuiltElements(s, ListName(k, true))| > 0 || (k == StatusCodes && s.reportStatusCodeGroups))
  {
    var c := new Config(s);
    if StatusCodes in s.reported && s.reportStatusCodeGroups {
      return Err(MutualExclusionMessage);
    }
    c.Configure();
    forall k ensures c.flags.WillReport(k) ==
      (k in s.reported || |BuiltElements(s, ListName(k, true))| > 0 || (k == StatusCodes && s.reportStatusCodeGroups))
    {
      c.WillReportOf(k);
      WillReportAfterDefault(k, k in s.reported, s.reportStatusCodeGroups, BuiltElements(s, ListName(k, true)));
    }
    r := Ok(c);
  }
}
