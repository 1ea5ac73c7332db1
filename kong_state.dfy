/**
 * kong/kong_state.py: decoding of the snapshot served by the Kong
 * `signalfx` endpoint into per-context metric records and the reverse
 * indices that later group them.
 */
module KongState {
  import opened Wrappers
  import opened Text

  // ---------------------------------------------------------------------
  // Hashes, dimensions and the token tables

  /** `md5(resource_context).hexdigest()`, kept symbolic (and so injective). */
  datatype Hash = Md5Of(raw: string)

  /** The six context descriptors that own an index set (`<descriptor>s`). */
  datatype Dim = ApiId | ApiName | ServiceId | ServiceName | RouteId | HttpMethod

  const AllDims: set<Dim> := {ApiId, ApiName, ServiceId, ServiceName, RouteId, HttpMethod}

  function DimToken(d: Dim): string
  {
    match d
    case ApiId => "api_id"
    case ApiName => "api_name"
    case ServiceId => "service_id"
    case ServiceName => "service_name"
    case RouteId => "route_id"
    case HttpMethod => "http_method"
  }

  /** The index a context descriptor feeds, if `descriptor + 's'` names one. */
  function IndexedDim(descriptor: string): (r: Option<Dim>)
    ensures r.Some? ==> DimToken(r.value) == descriptor
  {
    if descriptor == "api_id" then Some(ApiId)
    else if descriptor == "api_name" then Some(ApiName)
    else if descriptor == "service_id" then Some(ServiceId)
    else if descriptor == "service_name" then Some(ServiceName)
    else if descriptor == "route_id" then Some(RouteId)
    else if descriptor == "http_method" then Some(HttpMethod)
    else None
  }

  const SupportedSfxVersions: set<int> := {1}

  const V1ContextTokens: seq<string> :=
    ["sfx_ver", "api_id", "api_name", "service_id", "service_name", "route_id", "http_method"]
  const V1MetricTokens: seq<string> :=
    ["response_count", "request_latency", "kong_latency", "upstream_latency", "request_size", "response_size"]
  const V1StatusTokens: seq<string> :=
    ["status_code", "response_count", "upstream_latency", "request_size", "response_size"]

  /** `context_tokens`, indexed by encoding version. */
  function ContextTokens(ver: int): Option<seq<string>>
  {
    if ver == 1 then Some(V1ContextTokens) else None
  }

  /** `metric_tokens`, indexed by encoding version. */
  function MetricTokens(ver: int): Option<seq<string>>
  {
    if ver == 1 then Some(V1MetricTokens) else None
  }

  /** `status_tokens`, indexed by encoding version. */
  function StatusTokens(ver: int): Option<seq<string>>
  {
    if ver == 1 then Some(V1StatusTokens) else None
  }

  const ServerTokens: seq<string> := ["connections_handled", "connections_accepted", "connections_waiting",
                                      "connections_active", "connections_reading", "connections_writing",
                                      "total_requests"]

  const DatabaseTokens: seq<string> := ["database_reachable"]

  /** Context fields are separated by U+001F; a field that is exactly U+0000 means "no value". */
  const ContextSeparator: char := '\U{1F}'
  const NoValue: string := ['\U{0}']

  /** The exceptions decoding can raise. */
  datatype Error =
    | ValueError(literal: string)      // int() of something that is not an integer
    | KeyError(version: int)           // context_tokens[ver] for an unknown version
    | UnsupportedVersion(sfxVer: int)  // the KongException for an unknown metric encoding version
    | TypeError                        // int() of None, a list or a dict

  // ---------------------------------------------------------------------
  // Contexts

  /** A decoded context: the raw string and its (descriptor, value) pairs in order. */
  datatype Context = Context(raw: string, items: seq<(string, Option<string>)>)

  function FieldValue(v: string): Option<string>
  {
    if v == NoValue then None else Some(v)
  }

  function Min(a: int, b: int): int { if a < b then a else b }

  /** `zip(tokens, values)` with NUL fields read as None. */
  function ZipFields(tokens: seq<string>, values: seq<string>): (items: seq<(string, Option<string>)>)
    ensures |items| == Min(|tokens|, |values|)
  {
    seq(Min(|tokens|, |values|), i requires 0 <= i < Min(|tokens|, |values|) => (tokens[i], FieldValue(values[i])))
  }

  /** What `load_resource_context` caches for a raw context string it has not seen. */
  function DecodeContext(raw: string): Result<Context, Error>
  {
    var values := Split(raw, ContextSeparator);
    match ParseInt(values[0])
    case None => Err(ValueError(values[0]))
    case Some(ver) =>
      match ContextTokens(ver)
      case None => Err(KeyError(ver))
      case Some(tokens) => Ok(Context(raw, ZipFields(tokens, values)))
  }

  /** The dict built from `items`, later pairs overriding earlier ones. */
  function ItemsMap(items: seq<(string, Option<string>)>): map<string, Option<string>>
    decreases |items|
  {
    if |items| == 0 then map[]
    else ItemsMap(items[..|items| - 1])[items[|items| - 1].0 := items[|items| - 1].1]
  }

  predicate HasPair(items: seq<(string, Option<string>)>, token: string, v: Option<string>)
  {
    exists i :: 0 <= i < |items| && items[i] == (token, v)
  }

  predicate DistinctTokens(items: seq<(string, Option<string>)>)
  {
    forall i, j :: 0 <= i < j < |items| ==> items[i].0 != items[j].0
  }

  /** With distinct descriptors, the dict holds exactly the pairs. */
  lemma {:induction false} ItemsMapPairs(items: seq<(string, Option<string>)>, token: string, v: Option<string>)
    requires DistinctTokens(items)
    ensures (token in ItemsMap(items) && ItemsMap(items)[token] == v) <==> HasPair(items, token, v)
    decreases |items|
  {
    if |items| > 0 {
      var init := items[..|items| - 1];
      var last := items[|items| - 1];
      ItemsMapPairs(init, token, v);
      if HasPair(items, token, v) && last.0 != token {
        var i :| 0 <= i < |items| && items[i] == (token, v);
        assert init[i] == (token, v);
      }
      if HasPair(items, token, v) && last.0 == token {
        var i :| 0 <= i < |items| && items[i] == (token, v);
        assert i == |items| - 1;
      }
      if HasPair(init, token, v) {
        var i :| 0 <= i < |init| && init[i] == (token, v);
        assert items[i] == (token, v);
      }
    }
  }

  lemma ContextTokensDistinct(ctx: Context)
    requires DecodeContext(ctx.raw) == Ok(ctx)
    ensures DistinctTokens(ctx.items)
  {
    ContextTokensDistinct1();
  }

  // ---------------------------------------------------------------------
  // Records of `resource_metrics`

  /**
   * `resource_metrics[h]`: the context's descriptor values (`fields`, next
   * to `resource_context` kept as `raw`), the counters and, once decoded,
   * the `status_codes` dict.
   */
  datatype Record = Record(raw: string, fields: map<string, Option<string>>, counters: map<string, int>,
                           statuses: Option<map<string, map<string, int>>>)

  /** `decoded_context.copy()`. */
  function CopyOf(c: Context): Record
  {
    Record(c.raw, ItemsMap(c.items), map[], None)
  }

  /** `record[DimToken(d)]` if the key is present. */
  function Field(r: Record, d: Dim): Option<Option<string>>
  {
    if DimToken(d) in r.fields then Some(r.fields[DimToken(d)]) else None
  }

  /** Record `r` has descriptor `d` with value `v`. */
  predicate HasField(r: Record, d: Dim, v: Option<string>)
  {
    Field(r, d) == Some(v)
  }

  // ---------------------------------------------------------------------
  // Counters and status records

  datatype Metrics = Metrics(counters: map<string, int>, statuses: map<string, map<string, int>>)

  /** `{token: int(val) for token, val in zip(tokens, values)}`, failing at the first bad value. */
  function ParseInts(tokens: seq<string>, values: seq<string>): Result<map<string, int>, Error>
    requires |tokens| == |values|
    decreases |tokens|
  {
    if |tokens| == 0 then Ok(map[])
    else
      var n := |tokens| - 1;
      match ParseInts(tokens[..n], values[..n])
      case Err(e) => Err(e)
      case Ok(m) =>
        match ParseInt(values[n])
        case None => Err(ValueError(values[n]))
        case Some(x) => Ok(m[tokens[n] := x])
  }

  /** `zip` truncates both sides to the shorter one. */
  function ZipInts(tokens: seq<string>, values: seq<string>): Result<map<string, int>, Error>
  {
    var n := Min(|tokens|, |values|);
    ParseInts(tokens[..n], values[..n])
  }

  const StatusSeparator: char := ':'

  function StatusCode(rec: string): string
  {
    Split(rec, StatusSeparator)[0]
  }

  /** One `sc:a:b:c:d` record: its code and its fields zipped from `status_tokens[ver][1:]`. */
  function StatusFields(rec: string, fieldTokens: seq<string>): Result<map<string, int>, Error>
  {
    ZipInts(fieldTokens, Split(rec, StatusSeparator)[1..])
  }

  /** The `statuses` dict built from the status records, a repeated code replacing its entry. */
  function ParseStatuses(recs: seq<string>, fieldTokens: seq<string>): Result<map<string, map<string, int>>, Error>
    decreases |recs|
  {
    if |recs| == 0 then Ok(map[])
    else
      var n := |recs| - 1;
      match ParseStatuses(recs[..n], fieldTokens)
      case Err(e) => Err(e)
      case Ok(m) =>
        match StatusFields(recs[n], fieldTokens)
        case Err(e) => Err(e)
        case Ok(f) => Ok(m[StatusCode(recs[n]) := f])
  }

  /** How many status records have their code indexed before decoding stops. */
  function Attempted(recs: seq<string>, fieldTokens: seq<string>): (k: nat)
    ensures k <= |recs|
    ensures ParseStatuses(recs, fieldTokens).Ok? ==> k == |recs|
    decreases |recs|
  {
    if |recs| == 0 then 0
    else if ParseStatuses(recs[..|recs| - 1], fieldTokens).Err? then Attempted(recs[..|recs| - 1], fieldTokens)
    else |recs|
  }

  function Codes(recs: seq<string>): (cs: seq<string>)
    ensures |cs| == |recs|
  {
    seq(|recs|, i requires 0 <= i < |recs| => StatusCode(recs[i]))
  }

  /** The message a KongException carries. */
  function KongMessage(ver: int): string
  {
    "Unsupported sfx version: " + IntToString(ver) + "."
  }

  /** What `decode_resource_metrics(encoded, h, ver)` returns or raises. */
  function DecodeMetrics(encoded: string, ver: int): Result<Metrics, Error>
  {
    if ver !in SupportedSfxVersions then Err(UnsupportedVersion(ver))
    else
      var values := Split(encoded, ',');
      var metTokens := MetricTokens(ver).value;
      var statusIdx := Min(|metTokens|, |values|);
      match ZipInts(metTokens, values)
      case Err(e) => Err(e)
      case Ok(counters) =>
        match ParseStatuses(values[statusIdx..], StatusTokens(ver).value[1..])
        case Err(e) => Err(e)
        case Ok(statuses) => Ok(Metrics(counters, statuses))
  }

  /** The codes `decode_resource_metrics` adds to `status_codes`, even when it then fails. */
  function IndexedCodes(encoded: string, ver: int): seq<string>
  {
    if ver !in SupportedSfxVersions then []
    else
      var values := Split(encoded, ',');
      var metTokens := MetricTokens(ver).value;
      var statusIdx := Min(|metTokens|, |values|);
      if ZipInts(metTokens, values).Err? then []
      else
        var recs := values[statusIdx..];
        Codes(recs[..Attempted(recs, StatusTokens(ver).value[1..])])
  }

  // ---------------------------------------------------------------------
  // Properties of decoding

  /** The two stages of a supported decode: the counters, then the status records after them. */
  lemma DecodeMetricsStages(encoded: string, ver: int)
    requires ver in SupportedSfxVersions
    ensures var values := Split(encoded, ',');
      var toks := MetricTokens(ver).value;
      var recs := values[Min(|toks|, |values|)..];
      var ft := StatusTokens(ver).value[1..];
      (ZipInts(toks, values).Err? ==>
         DecodeMetrics(encoded, ver) == Err(ZipInts(toks, values).error) && IndexedCodes(encoded, ver) == []) &&
      (ZipInts(toks, values).Ok? ==>
         IndexedCodes(encoded, ver) == Codes(recs[..Attempted(recs, ft)]) &&
         (ParseStatuses(recs, ft).Err? ==> DecodeMetrics(encoded, ver) == Err(ParseStatuses(recs, ft).error)) &&
         (ParseStatuses(recs, ft).Ok? ==>
            DecodeMetrics(encoded, ver) == Ok(Metrics(ZipInts(toks, values).value, ParseStatuses(recs, ft).value))))
  {
  }

  /** The decoded status dict has exactly the codes that were indexed. */
  lemma {:induction false} ParseStatusesKeys(recs: seq<string>, fieldTokens: seq<string>)
    requires ParseStatuses(recs, fieldTokens).Ok?
    ensures ParseStatuses(recs, fieldTokens).value.Keys == set c | c in Codes(recs)
    decreases |recs|
  {
    if |recs| > 0 {
      var n := |recs| - 1;
      ParseStatusesKeys(recs[..n], fieldTokens);
      assert Codes(recs) == Codes(recs[..n]) + [StatusCode(recs[n])];
    }
  }

  /** A successful decode reports a status entry for exactly the codes it indexed. */
  lemma StatusKeysIndexed(encoded: string, ver: int)
    requires DecodeMetrics(encoded, ver).Ok?
    ensures DecodeMetrics(encoded, ver).value.statuses.Keys == set c | c in IndexedCodes(encoded, ver)
  {
    var values := Split(encoded, ',');
    var recs := values[Min(|MetricTokens(ver).value|, |values|)..];
    var ft := StatusTokens(ver).value[1..];
    ParseStatusesKeys(recs, ft);
    assert recs[..Attempted(recs, ft)] == recs;
  }

  /** Rendering of a context value: None as NUL. */
  function Render(v: Option<string>): string
  {
    if v.None? then NoValue else v.value
  }

  /** A value that survives encoding: not NUL itself and free of the separator. */
  predicate Encodable(v: Option<string>)
  {
    v.Some? ==> v.value != NoValue && ContextSeparator !in v.value
  }

  /** The six identity descriptors in encoding order. */
  const DimOrder: seq<Dim> := [ApiId, ApiName, ServiceId, ServiceName, RouteId, HttpMethod]

  /** How the Kong side encodes a version-1 context. */
  function EncodeContext(vs: seq<Option<string>>): string
  {
    Join(["1"] + seq(|vs|, i requires 0 <= i < |vs| => Render(vs[i])), ContextSeparator)
  }

  function Rendered(vs: seq<Option<string>>): (r: seq<string>)
    ensures |r| == |vs|
  {
    seq(|vs|, i requires 0 <= i < |vs| => Render(vs[i]))
  }

  lemma DimTokensInOrder()
    ensures forall i :: 0 <= i < 6 ==> V1ContextTokens[i + 1] == DimToken(DimOrder[i])
  {
  }

  lemma ContextTokensDistinct1()
    ensures DistinctStrings(V1ContextTokens)
  {
    assert V1ContextTokens[0][0] == 's' && V1ContextTokens[1][..5] == "api_i" && V1ContextTokens[2][..5] == "api_n";
    assert V1ContextTokens[3][..9] == "service_i" && V1ContextTokens[4][..9] == "service_n";
    assert V1ContextTokens[5][0] == 'r' && V1ContextTokens[6][0] == 'h';
  }

  lemma DecodeEncodedContext(vs: seq<Option<string>>)
    requires forall i :: 0 <= i < |vs| ==> Encodable(vs[i])
    ensures DecodeContext(EncodeContext(vs)) ==
      Ok(Context(EncodeContext(vs), ZipFields(V1ContextTokens, ["1"] + Rendered(vs))))
  {
    var parts := ["1"] + Rendered(vs);
    assert forall i :: 0 <= i < |parts| ==> ContextSeparator !in parts[i];
    assert EncodeContext(vs) == Join(parts, ContextSeparator);
    JoinSplit(parts, ContextSeparator);
    assert ParseInt("1") == Some(1);
  }

  /** The decoded pairs of an encoded context: the version, then the six values in order. */
  lemma EncodedContextItems(vs: seq<Option<string>>)
    requires |vs| == 6 && forall i :: 0 <= i < 6 ==> Encodable(vs[i])
    ensures var items := ZipFields(V1ContextTokens, ["1"] + Rendered(vs));
      |items| == 7 && items[0] == ("sfx_ver", Some("1")) && DistinctTokens(items) &&
      (forall i :: 0 <= i < 7 ==> items[i].0 == V1ContextTokens[i]) &&
      forall i :: 0 <= i < 6 ==> items[i + 1] == (DimToken(DimOrder[i]), vs[i])
  {
    var parts := ["1"] + Rendered(vs);
    var items := ZipFields(V1ContextTokens, parts);
    ContextTokensDistinct1();
    DimTokensInOrder();
    forall i | 0 <= i < 6
      ensures items[i + 1] == (DimToken(DimOrder[i]), vs[i])
    {
      assert parts[i + 1] == Render(vs[i]);
    }
  }

  /** A record built from distinct pairs holds each pair under its descriptor. */
  lemma RecordFields(items: seq<(string, Option<string>)>, vs: seq<Option<string>>)
    requires |items| == 7 && |vs| == 6 && items[0] == ("sfx_ver", Some("1")) && DistinctTokens(items)
    requires forall i :: 0 <= i < 7 ==> items[i].0 == V1ContextTokens[i]
    requires forall i :: 0 <= i < 6 ==> items[i + 1] == (DimToken(DimOrder[i]), vs[i])
    ensures ItemsMap(items).Keys == set t | t in V1ContextTokens
    ensures ItemsMap(items)["sfx_ver"] == Some("1")
    ensures forall i :: 0 <= i < 6 ==> DimToken(DimOrder[i]) in ItemsMap(items) && ItemsMap(items)[DimToken(DimOrder[i])] == vs[i]
  {
    ItemsMapKeys(items);
    forall t | t in V1ContextTokens
      ensures t in (set i | 0 <= i < |items| :: items[i].0)
    {
      var i :| 0 <= i < 7 && V1ContextTokens[i] == t;
      assert items[i].0 == t;
    }
    ItemsMapPairs(items, "sfx_ver", Some("1"));
    forall i | 0 <= i < 6
      ensures DimToken(DimOrder[i]) in ItemsMap(items) && ItemsMap(items)[DimToken(DimOrder[i])] == vs[i]
    {
      assert items[i + 1] == (DimToken(DimOrder[i]), vs[i]);
      ItemsMapPairs(items, DimToken(DimOrder[i]), vs[i]);
    }
  }

  /**
   * Decoding an encoded version-1 context gives back each of the six
   * values under its descriptor, NUL again as None.
   */
  lemma ContextRoundTrip(vs: seq<Option<string>>)
    requires |vs| == 6 && forall i :: 0 <= i < 6 ==> Encodable(vs[i])
    ensures DecodeContext(EncodeContext(vs)).Ok?
    ensures var r := CopyOf(DecodeContext(EncodeContext(vs)).value);
      r.raw == EncodeContext(vs) && r.fields.Keys == (set t | t in V1ContextTokens) &&
      r.fields["sfx_ver"] == Some("1") && forall i :: 0 <= i < 6 ==> Field(r, DimOrder[i]) == Some(vs[i])
  {
    DecodeEncodedContext(vs);
    var items := ZipFields(V1ContextTokens, ["1"] + Rendered(vs));
    EncodedContextItems(vs);
    RecordFields(items, vs);
  }

  lemma {:induction false} ItemsMapKeys(items: seq<(string, Option<string>)>)
    ensures ItemsMap(items).Keys == set i | 0 <= i < |items| :: items[i].0
    decreases |items|
  {
    if |items| > 0 {
      var init := items[..|items| - 1];
      ItemsMapKeys(init);
      assert (set i | 0 <= i < |items| :: items[i].0) == (set i | 0 <= i < |init| :: init[i].0) + {items[|items| - 1].0};
    }
  }

  /** A decoded context with fewer or more fields than descriptors is truncated to the shorter. */
  lemma ContextTruncated(raw: string)
    requires DecodeContext(raw).Ok?
    ensures var values := Split(raw, ContextSeparator);
      var items := DecodeContext(raw).value.items;
      |items| == Min(7, |values|) &&
      forall i :: 0 <= i < |items| ==> items[i] == (ContextTokens(1).value[i], FieldValue(values[i]))
  {
  }

  /**
   * The version field, the text before the first separator, decides the
   * outcome: a field `int()` rejects raises `ValueError` with that text, an
   * integer with no token table raises `KeyError`, and version 1 decodes,
   * whatever follows the field.
   */
  lemma ContextErrors(first: string, rest: string)
    requires ContextSeparator !in first
    ensures ParseInt(first).None? ==>
      DecodeContext(first) == Err(ValueError(first)) &&
      DecodeContext(first + [ContextSeparator] + rest) == Err(ValueError(first))
    ensures ParseInt(first).Some? && ContextTokens(ParseInt(first).value).None? ==>
      DecodeContext(first) == Err(KeyError(ParseInt(first).value)) &&
      DecodeContext(first + [ContextSeparator] + rest) == Err(KeyError(ParseInt(first).value))
    ensures ParseInt(first) == Some(1) ==>
      DecodeContext(first).Ok? && DecodeContext(first + [ContextSeparator] + rest).Ok?
  {
    SplitFree(first, ContextSeparator);
    SplitPrefix(first, rest, ContextSeparator);
  }

  /** Examples: `v1` and the empty string are not integers, and version 2 has no token table. */
  lemma ContextErrorExamples()
    ensures DecodeContext("v1") == Err(ValueError("v1"))
    ensures DecodeContext("2") == Err(KeyError(2))
    ensures DecodeContext("") == Err(ValueError(""))
  {
    SplitFree("v1", ContextSeparator);
    assert ParseInt("v1") == None by { assert !IsDigit('v'); }
    SplitFree("2", ContextSeparator);
    SplitFree("", ContextSeparator);
    assert ParseInt("2") == Some(2);
  }

  /** A status record for the Kong side to encode. */
  datatype StatusRec = StatusRec(code: string, values: seq<int>)

  function IntStrings(ns: seq<int>): (r: seq<string>)
    ensures |r| == |ns|
  {
    seq(|ns|, i requires 0 <= i < |ns| => IntToString(ns[i]))
  }

  function EncodeStatus(r: StatusRec): string
  {
    Join([r.code] + IntStrings(r.values), StatusSeparator)
  }

  function EncodeStatuses(recs: seq<StatusRec>): (r: seq<string>)
    ensures |r| == |recs|
  {
    seq(|recs|, i requires 0 <= i < |recs| => EncodeStatus(recs[i]))
  }

  /** How the Kong side encodes six counters followed by status records. */
  function EncodeMetrics(counters: seq<int>, recs: seq<StatusRec>): string
  {
    Join(IntStrings(counters) + EncodeStatuses(recs), ',')
  }

  /** `dict(zip(tokens, values))`. */
  function ZipMap<V>(tokens: seq<string>, values: seq<V>): map<string, V>
    requires |tokens| == |values|
    decreases |tokens|
  {
    if |tokens| == 0 then map[]
    else ZipMap(tokens[..|tokens| - 1], values[..|values| - 1])[tokens[|tokens| - 1] := values[|values| - 1]]
  }

  /** The statuses dict that the records should decode to, later codes winning. */
  function StatusMap(recs: seq<StatusRec>, fieldTokens: seq<string>): map<string, map<string, int>>
    requires |fieldTokens| == 4 && forall i :: 0 <= i < |recs| ==> EncodableStatus(recs[i])
    decreases |recs|
  {
    if |recs| == 0 then map[]
    else
      var last := recs[|recs| - 1];
      assert EncodableStatus(last);
      StatusMap(recs[..|recs| - 1], fieldTokens)[last.code := ZipMap(fieldTokens, last.values)]
  }

  predicate DistinctStrings(ts: seq<string>)
  {
    forall i, j :: 0 <= i < j < |ts| ==> ts[i] != ts[j]
  }

  /** With distinct tokens, the zipped dict maps each token to its value and has no other key. */
  lemma {:induction false} ZipMapAt<V>(tokens: seq<string>, values: seq<V>)
    requires |tokens| == |values| && DistinctStrings(tokens)
    ensures ZipMap(tokens, values).Keys == set t | t in tokens
    ensures forall i :: 0 <= i < |tokens| ==> ZipMap(tokens, values)[tokens[i]] == values[i]
    decreases |tokens|
  {
    if |tokens| > 0 {
      var n := |tokens| - 1;
      ZipMapAt(tokens[..n], values[..n]);
      assert tokens == tokens[..n] + [tokens[n]];
      forall i | 0 <= i < n
        ensures tokens[..n][i] == tokens[i] && values[..n][i] == values[i]
      {
      }
    }
  }

  lemma {:induction false} ParseIntsOfStrings(tokens: seq<string>, ns: seq<int>)
    requires |tokens| == |ns|
    ensures ParseInts(tokens, IntStrings(ns)) == Ok(ZipMap(tokens, ns))
    decreases |tokens|
  {
    if |tokens| > 0 {
      var n := |tokens| - 1;
      ParseIntsOfStrings(tokens[..n], ns[..n]);
      assert IntStrings(ns)[..n] == IntStrings(ns[..n]);
      ParseIntToString(ns[n]);
    }
  }

  predicate IsIntChar(c: char) { IsDigit(c) || c == '-' }

  lemma IntToStringChars(n: int)
    ensures forall c :: c in IntToString(n) ==> IsIntChar(c)
  {
    var s := IntToString(n);
    if n < 0 {
      assert s == "-" + NatToString(-n);
    }
  }

  lemma {:induction false} JoinFree(parts: seq<string>, sep: char, c: char)
    requires c != sep && forall i :: 0 <= i < |parts| ==> c !in parts[i]
    ensures c !in Join(parts, sep)
    decreases |parts|
  {
    if |parts| > 1 {
      JoinFree(parts[1..], sep, c);
    }
  }

  /** A code without separators that the Kong side can encode. */
  predicate EncodableStatus(r: StatusRec)
  {
    ',' !in r.code && StatusSeparator !in r.code && |r.values| == 4
  }

  lemma StatusRoundTrip(r: StatusRec, fieldTokens: seq<string>)
    requires EncodableStatus(r) && |fieldTokens| == 4
    ensures StatusCode(EncodeStatus(r)) == r.code
    ensures StatusFields(EncodeStatus(r), fieldTokens) == Ok(ZipMap(fieldTokens, r.values))
    ensures ',' !in EncodeStatus(r)
  {
    var parts := [r.code] + IntStrings(r.values);
    forall i | 0 <= i < |parts|
      ensures StatusSeparator !in parts[i] && ',' !in parts[i]
    {
      if i > 0 {
        IntToStringChars(r.values[i - 1]);
      }
    }
    JoinSplit(parts, StatusSeparator);
    JoinFree(parts, StatusSeparator, ',');
    assert parts[1..] == IntStrings(r.values);
    ParseIntsOfStrings(fieldTokens, r.values);
    assert fieldTokens[..4] == fieldTokens;
    assert IntStrings(r.values)[..4] == IntStrings(r.values);
  }

  lemma {:induction false} StatusesRoundTrip(recs: seq<StatusRec>, fieldTokens: seq<string>)
    requires |fieldTokens| == 4 && forall i :: 0 <= i < |recs| ==> EncodableStatus(recs[i])
    ensures ParseStatuses(EncodeStatuses(recs), fieldTokens) == Ok(StatusMap(recs, fieldTokens))
    ensures Codes(EncodeStatuses(recs)) == seq(|recs|, i requires 0 <= i < |recs| => recs[i].code)
    decreases |recs|
  {
    if |recs| > 0 {
      var n := |recs| - 1;
      StatusesRoundTrip(recs[..n], fieldTokens);
      assert EncodeStatuses(recs)[..n] == EncodeStatuses(recs[..n]);
      StatusRoundTrip(recs[n], fieldTokens);
      forall i | 0 <= i < |recs|
        ensures Codes(EncodeStatuses(recs))[i] == recs[i].code
      {
        StatusRoundTrip(recs[i], fieldTokens);
      }
    }
  }

  /**
   * Decoding six encoded counters and encoded status records gives the
   * counters under `metric_tokens[1]` and one status dict per code, with
   * the four values under `status_tokens[1][1:]`; every code is indexed.
   */
  lemma MetricsRoundTrip(counters: seq<int>, recs: seq<StatusRec>)
    requires |counters| == 6 && forall i :: 0 <= i < |recs| ==> EncodableStatus(recs[i])
    ensures DecodeMetrics(EncodeMetrics(counters, recs), 1) ==
        Ok(Metrics(ZipMap(V1MetricTokens, counters), StatusMap(recs, V1StatusTokens[1..])))
    ensures IndexedCodes(EncodeMetrics(counters, recs), 1) == seq(|recs|, i requires 0 <= i < |recs| => recs[i].code)
  {
    var ft := V1StatusTokens[1..];
    var parts := IntStrings(counters) + EncodeStatuses(recs);
    forall i | 0 <= i < |parts|
      ensures ',' !in parts[i]
    {
      if i < 6 {
        IntToStringChars(counters[i]);
      } else {
        StatusRoundTrip(recs[i - 6], ft);
      }
    }
    if |parts| == 0 {
      assert false;
    }
    JoinSplit(parts, ',');
    var values := Split(EncodeMetrics(counters, recs), ',');
    assert values == parts;
    assert values[..6] == IntStrings(counters);
    assert values[6..] == EncodeStatuses(recs);
    ParseIntsOfStrings(V1MetricTokens, counters);
    assert V1MetricTokens[..6] == V1MetricTokens;
    StatusesRoundTrip(recs, ft);
    assert EncodeStatuses(recs)[..|recs|] == EncodeStatuses(recs);
  }

  /**
   * Every version other than 1 raises the `KongException` before anything is
   * decoded or indexed, whatever the encoded text.
   */
  lemma MetricsErrors(encoded: string, ver: int)
    requires ver != 1
    ensures DecodeMetrics(encoded, ver) == Err(UnsupportedVersion(ver))
    ensures IndexedCodes(encoded, ver) == []
    ensures KongMessage(ver) == "Unsupported sfx version: " + IntToString(ver) + "."
  {
  }

  /** Counters that `int()` accepts decode to a map. */
  lemma {:induction false} ParseIntsOk(tokens: seq<string>, values: seq<string>)
    requires |tokens| == |values| && forall i :: 0 <= i < |values| ==> ParseInt(values[i]).Some?
    ensures ParseInts(tokens, values).Ok?
    decreases |tokens|
  {
    if |tokens| > 0 {
      var n := |tokens| - 1;
      ParseIntsOk(tokens[..n], values[..n]);
    }
  }

  /**
   * The first of the six counters that `int()` rejects is the one the
   * `ValueError` names, and no status code is indexed.
   */
  lemma CounterError(encoded: string, k: nat)
    requires k < 6 && k < |Split(encoded, ',')|
    requires forall i :: 0 <= i < k ==> ParseInt(Split(encoded, ',')[i]).Some?
    requires ParseInt(Split(encoded, ',')[k]).None?
    ensures DecodeMetrics(encoded, 1) == Err(ValueError(Split(encoded, ',')[k]))
    ensures IndexedCodes(encoded, 1) == []
  {
    var values := Split(encoded, ',');
    var toks := V1MetricTokens;
    ParseIntsOk(toks[..k], values[..k]);
    assert toks[..k + 1][..k] == toks[..k] && values[..k + 1][..k] == values[..k];
    assert ParseInts(toks[..k + 1], values[..k + 1]) == Err(ValueError(values[k]));
    ParseIntsSticks(toks, values, k + 1);
    DecodeMetricsStages(encoded, 1);
  }

  /** Examples: version 2 and its message; an empty text and a non-integer second counter. */
  lemma MetricsErrorExamples()
    ensures DecodeMetrics("1,2,3", 2) == Err(UnsupportedVersion(2)) && KongMessage(2) == "Unsupported sfx version: 2."
    ensures DecodeMetrics("", 1) == Err(ValueError(""))
    ensures DecodeMetrics("1,x", 1) == Err(ValueError("x"))
  {
    MetricsErrors("1,2,3", 2);
    assert NatToString(2) == "2";
    assert IntToString(2) == "2";
    assert "Unsupported sfx version: " + "2" + "." == "Unsupported sfx version: 2.";
    SplitFree("", ',');
    assert ParseInt("") == None;
    CounterError("", 0);
    SplitPrefix("1", "x", ',');
    SplitFree("x", ',');
    assert "1" + [','] + "x" == "1,x";
    assert Split("1,x", ',') == ["1", "x"];
    assert ParseInt("1") == Some(1);
    assert ParseInt("x") == None by { assert !IsDigit('x'); }
    CounterError("1,x", 1);
  }

  // ---------------------------------------------------------------------
  // Index sets

  /** A `defaultdict(set)` from values to context hashes. */
  type Index<K> = map<K, set<Hash>>

  /** `index[k]`, an absent key reading as the empty set. */
  function Lookup<K>(ix: Index<K>, k: K): set<Hash>
  {
    if k in ix then ix[k] else {}
  }

  /** `index[k].add(h)`. */
  function Add<K>(ix: Index<K>, k: K, h: Hash): (r: Index<K>)
    ensures r.Keys == ix.Keys + {k}
  {
    ix[k := Lookup(ix, k) + {h}]
  }

  lemma AddLookup<K>(ix: Index<K>, k: K, h: Hash, k': K)
    ensures Lookup(Add(ix, k, h), k') == Lookup(ix, k') + (if k' == k then {h} else {})
  {
  }

  /** Each descriptor named after a dimension feeds that dimension's index. */
  lemma IndexedDimOf(d: Dim)
    ensures IndexedDim(DimToken(d)) == Some(d)
  {
  }

  /** `status_codes[c].add(h)` for each code in turn. */
  function AddCodes(ix: Index<string>, h: Hash, codes: seq<string>): Index<string>
    decreases |codes|
  {
    if |codes| == 0 then ix else Add(AddCodes(ix, h, codes[..|codes| - 1]), codes[|codes| - 1], h)
  }

  lemma {:induction false} AddCodesLookup(ix: Index<string>, h: Hash, codes: seq<string>, c: string)
    ensures Lookup(AddCodes(ix, h, codes), c) == Lookup(ix, c) + (if c in codes then {h} else {})
    decreases |codes|
  {
    if |codes| > 0 {
      var init := codes[..|codes| - 1];
      AddCodesLookup(ix, h, init, c);
      AddLookup(AddCodes(ix, h, init), codes[|codes| - 1], h, c);
      assert codes == init + [codes[|codes| - 1]];
    }
  }

  /** The identity indices after `load_resource_context` adds `h` under each indexed descriptor value. */
  function IndexItems(ix: map<Dim, Index<Option<string>>>, h: Hash, items: seq<(string, Option<string>)>)
    : (r: map<Dim, Index<Option<string>>>)
    ensures r.Keys == ix.Keys
    decreases |items|
  {
    if |items| == 0 then ix
    else IndexPair(IndexItems(ix, h, items[..|items| - 1]), h, items[|items| - 1])
  }

  /** One pair of the index loop: `getattr(self, descriptor + 's')[value].add(h)` when that index exists. */
  function IndexPair(ix: map<Dim, Index<Option<string>>>, h: Hash, pair: (string, Option<string>))
    : (r: map<Dim, Index<Option<string>>>)
    ensures r.Keys == ix.Keys
  {
    var d := IndexedDim(pair.0);
    if d.Some? && d.value in ix then ix[d.value := Add(ix[d.value], pair.1, h)] else ix
  }

  lemma HasPairSnoc(items: seq<(string, Option<string>)>, token: string, v: Option<string>)
    requires |items| > 0
    ensures HasPair(items, token, v) <==>
            HasPair(items[..|items| - 1], token, v) || items[|items| - 1] == (token, v)
  {
    var init := items[..|items| - 1];
    if HasPair(init, token, v) {
      var i :| 0 <= i < |init| && init[i] == (token, v);
      assert items[i] == init[i];
    }
    if HasPair(items, token, v) && items[|items| - 1] != (token, v) {
      var i :| 0 <= i < |items| && items[i] == (token, v);
      assert init[i] == items[i];
    }
  }

  lemma {:induction false} IndexItemsLookup(ix: map<Dim, Index<Option<string>>>, h: Hash,
                                            items: seq<(string, Option<string>)>, d: Dim, v: Option<string>)
    requires d in ix
    ensures Lookup(IndexItems(ix, h, items)[d], v) ==
            Lookup(ix[d], v) + (if HasPair(items, DimToken(d), v) then {h} else {})
    decreases |items|
  {
    if |items| > 0 {
      var init := items[..|items| - 1];
      var last := items[|items| - 1];
      IndexItemsLookup(ix, h, init, d, v);
      HasPairSnoc(items, DimToken(d), v);
      var prev := IndexItems(ix, h, init);
      var dl := IndexedDim(last.0);
      if dl == Some(d) {
        AddLookup(prev[d], last.1, h, v);
      } else if last.0 == DimToken(d) {
        IndexedDimOf(d);
      }
    }
  }

  // ---------------------------------------------------------------------
  // Invariants of the decoded state

  /** Every record sits under the hash of its own raw context and holds that context's fields. */
  ghost predicate RecordsDecoded(rm: map<Hash, Record>)
  {
    forall h :: h in rm ==>
      h == Md5Of(rm[h].raw) && DecodeContext(rm[h].raw).Ok? &&
      rm[h].fields == ItemsMap(DecodeContext(rm[h].raw).value.items)
  }

  /** The same, stated against the cache the records were copied from. */
  ghost predicate RecordsCached(rm: map<Hash, Record>, entries: map<string, (Hash, Context)>)
  {
    forall h :: h in rm ==>
      h == Md5Of(rm[h].raw) && rm[h].raw in entries && rm[h].fields == ItemsMap(entries[rm[h].raw].1.items)
  }

  /** `index_d[v]` is exactly the set of records whose descriptor `d` has value `v`, None included. */
  ghost predicate IdentityExact(rm: map<Hash, Record>, identity: map<Dim, Index<Option<string>>>)
  {
    forall d, v, h :: d in identity ==> (h in Lookup(identity[d], v) <==> h in rm && HasField(rm[h], d, v))
  }

  /** Every decoded status code of a record is indexed, and only records are indexed. */
  ghost predicate StatusSound(rm: map<Hash, Record>, codes: Index<string>)
  {
    (forall h, c :: h in rm && rm[h].statuses.Some? && c in rm[h].statuses.value ==> h in Lookup(codes, c)) &&
    (forall c, h :: h in Lookup(codes, c) ==> h in rm)
  }

  /** `h in status_codes[c]` iff `c` is among the decoded status codes of record `h`. */
  ghost predicate StatusExact(rm: map<Hash, Record>, codes: Index<string>)
  {
    forall c, h :: h in Lookup(codes, c) <==> h in rm && rm[h].statuses.Some? && c in rm[h].statuses.value
  }

  /** Each cached entry is the hash and the decoding of its key. */
  ghost predicate CacheValid(entries: map<string, (Hash, Context)>)
  {
    forall raw {:trigger DecodeContext(raw)} :: raw in entries ==>
      DecodeContext(raw).Ok? && entries[raw] == (Md5Of(raw), DecodeContext(raw).value)
  }

  /** Records copied from a valid cache hold their decoded contexts. */
  lemma CachedRecordsDecoded(rm: map<Hash, Record>, entries: map<string, (Hash, Context)>)
    requires CacheValid(entries) && RecordsCached(rm, entries)
    ensures RecordsDecoded(rm)
  {
  }

  /** The cache only grows, so records stay justified by it. */
  lemma RecordsCachedGrow(rm: map<Hash, Record>, entries: map<string, (Hash, Context)>, entries': map<string, (Hash, Context)>)
    requires RecordsCached(rm, entries)
    requires forall raw :: raw in entries ==> raw in entries' && entries'[raw] == entries[raw]
    ensures RecordsCached(rm, entries')
  {
  }

  lemma IdentityAt(rm: map<Hash, Record>, identity: map<Dim, Index<Option<string>>>, d: Dim, v: Option<string>, h: Hash)
    requires IdentityExact(rm, identity) && d in identity
    ensures h in Lookup(identity[d], v) <==> h in rm && HasField(rm[h], d, v)
  {
  }

  /** A record under `h` in records justified by the cache is the copy of `raw`'s entry when `h` is its hash. */
  lemma CachedRecordAt(rm: map<Hash, Record>, entries: map<string, (Hash, Context)>, raw: string)
    requires RecordsCached(rm, entries) && raw in entries && Md5Of(raw) in rm
    ensures rm[Md5Of(raw)].fields == CopyOf(entries[raw].1).fields
  {
  }

  /** Loading a cached context into its record and its indices keeps the identity indices exact. */
  lemma LoadKeepsIdentity(rm: map<Hash, Record>, identity: map<Dim, Index<Option<string>>>,
                          entries: map<string, (Hash, Context)>, raw: string)
    requires raw in entries && DistinctTokens(entries[raw].1.items)
    requires RecordsCached(rm, entries) && IdentityExact(rm, identity)
    ensures IdentityExact(rm[Md5Of(raw) := CopyOf(entries[raw].1)], IndexItems(identity, Md5Of(raw), entries[raw].1.items))
  {
    var h := Md5Of(raw);
    var ctx := entries[raw].1;
    var rm' := rm[h := CopyOf(ctx)];
    var identity' := IndexItems(identity, h, ctx.items);
    forall d, v, h' | d in identity'
      ensures h' in Lookup(identity'[d], v) <==> h' in rm' && HasField(rm'[h'], d, v)
    {
      IndexItemsLookup(identity, h, ctx.items, d, v);
      ItemsMapPairs(ctx.items, DimToken(d), v);
      IdentityAt(rm, identity, d, v, h');
      if h in rm {
        CachedRecordAt(rm, entries, raw);
        assert Field(rm[h], d) == Field(CopyOf(ctx), d);
      }
    }
  }

  /** Loading a cached context keeps the records justified and the identity indices exact. */
  lemma LoadKeepsIndices(rm: map<Hash, Record>, identity: map<Dim, Index<Option<string>>>, codes: Index<string>,
                         entries: map<string, (Hash, Context)>, raw: string)
    requires raw in entries && entries[raw].0 == Md5Of(raw) && entries[raw].1.raw == raw
    requires DistinctTokens(entries[raw].1.items)
    requires RecordsCached(rm, entries) && IdentityExact(rm, identity) && StatusSound(rm, codes)
    ensures var h := Md5Of(raw);
      var rm' := rm[h := CopyOf(entries[raw].1)];
      RecordsCached(rm', entries) && IdentityExact(rm', IndexItems(identity, h, entries[raw].1.items)) &&
      StatusSound(rm', codes)
  {
    LoadKeepsIdentity(rm, identity, entries, raw);
  }

  /** Storing decoded metrics into a record leaves its descriptors, and so the identity indices, alone. */
  lemma CompleteKeepsIdentity(rm: map<Hash, Record>, identity: map<Dim, Index<Option<string>>>,
                              entries: map<string, (Hash, Context)>, h: Hash, rec: Record)
    requires h in rm && rec.raw == rm[h].raw && rec.fields == rm[h].fields
    requires RecordsCached(rm, entries) && IdentityExact(rm, identity)
    ensures RecordsCached(rm[h := rec], entries) && IdentityExact(rm[h := rec], identity)
  {
    forall d, v, h' | d in identity
      ensures h' in Lookup(identity[d], v) <==> h' in rm[h := rec] && HasField(rm[h := rec][h'], d, v)
    {
      assert h' in Lookup(identity[d], v) <==> h' in rm && HasField(rm[h'], d, v);
      if h' == h {
        assert Field(rec, d) == Field(rm[h], d);
      }
    }
  }

  /** Storing a status dict whose codes are all indexed for `h` keeps status soundness. */
  lemma CompleteKeepsStatus(rm: map<Hash, Record>, codes: Index<string>, h: Hash, rec: Record)
    requires h in rm && StatusSound(rm, codes)
    requires rec.statuses.Some? && forall c :: c in rec.statuses.value ==> h in Lookup(codes, c)
    ensures StatusSound(rm[h := rec], codes)
  {
  }

  /** Indexing more codes for a record keeps status soundness. */
  lemma AddCodesKeepsSound(rm: map<Hash, Record>, codes: Index<string>, h: Hash, cs: seq<string>)
    requires h in rm && StatusSound(rm, codes)
    ensures StatusSound(rm, AddCodes(codes, h, cs))
  {
    forall c, h' | h' in Lookup(AddCodes(codes, h, cs), c)
      ensures h' in rm
    {
      AddCodesLookup(codes, h, cs, c);
    }
    forall h', c | h' in rm && rm[h'].statuses.Some? && c in rm[h'].statuses.value
      ensures h' in Lookup(AddCodes(codes, h, cs), c)
    {
      AddCodesLookup(codes, h, cs, c);
    }
  }

  // ---------------------------------------------------------------------
  // Failure of a whole snapshot

  /** The exception processing one `(context, counters)` entry raises, if any. */
  function EntryFailure(raw: string, encoded: string): (r: Option<Error>)
    ensures r.None? <==> DecodeContext(raw).Ok? && DecodeMetrics(encoded, 1).Ok?
  {
    match DecodeContext(raw)
    case Err(e) => Some(e)
    case Ok(_) =>
      match DecodeMetrics(encoded, 1)
      case Err(e) => Some(e)
      case Ok(_) => None
  }

  /** The exception `update_resource_metrics` propagates: that of the first entry `fail` rejects. */
  function FirstFailure(sfx: seq<(string, string)>, fail: (string, string) -> Option<Error>): Option<Error>
    decreases |sfx|
  {
    if |sfx| == 0 then None
    else
      var prev := FirstFailure(sfx[..|sfx| - 1], fail);
      if prev.Some? then prev else fail(sfx[|sfx| - 1].0, sfx[|sfx| - 1].1)
  }

  lemma {:induction false} FirstFailureSticks(sfx: seq<(string, string)>, fail: (string, string) -> Option<Error>, k: nat)
    requires k <= |sfx| && FirstFailure(sfx[..k], fail).Some?
    ensures FirstFailure(sfx, fail) == FirstFailure(sfx[..k], fail)
    decreases |sfx| - k
  {
    if k < |sfx| {
      assert sfx[..k + 1][..k] == sfx[..k];
      FirstFailureSticks(sfx, fail, k + 1);
    } else {
      assert sfx[..k] == sfx;
    }
  }

  lemma FirstFailureNext(sfx: seq<(string, string)>, fail: (string, string) -> Option<Error>, i: nat)
    requires i < |sfx| && FirstFailure(sfx[..i], fail).None?
    ensures FirstFailure(sfx[..i + 1], fail) == fail(sfx[i].0, sfx[i].1)
  {
    assert sfx[..i + 1][..i] == sfx[..i];
  }

  /**
   * The record processing one entry leaves in `resource_metrics`: the
   * complete record on success, the bare copy of the context when only the
   * counters fail to decode. (When the context itself does not decode,
   * nothing is stored under its hash and this value is not used.)
   */
  function CompleteRecord(raw: string, encoded: string): Record
  {
    var c := DecodeContext(raw);
    var m := DecodeMetrics(encoded, 1);
    Record(raw, if c.Ok? then ItemsMap(c.value.items) else map[],
           if m.Ok? then m.value.counters else map[], if m.Ok? then Some(m.value.statuses) else None)
  }

  /** The freshly loaded copy, updated with the decoded metrics, is the complete record. */
  lemma CompletedIsComplete(raw: string, encoded: string, record: Record, completed: Record)
    requires DecodeContext(raw).Ok? && DecodeMetrics(encoded, 1).Ok?
    requires record == CopyOf(DecodeContext(raw).value)
    requires completed == record.(counters := record.counters + DecodeMetrics(encoded, 1).value.counters,
                                  statuses := Some(DecodeMetrics(encoded, 1).value.statuses))
    ensures EntryFailure(raw, encoded).None? && completed == CompleteRecord(raw, encoded)
  {
    var m := DecodeMetrics(encoded, 1).value;
    assert record.counters + m.counters == m.counters;
  }

  lemma OverwriteTwice<K, V>(m: map<K, V>, k: K, a: V, b: V)
    ensures m[k := a][k := b] == m[k := b]
  {
  }

  function HashesOf(sfx: seq<(string, string)>): set<Hash>
  {
    set i | 0 <= i < |sfx| :: Md5Of(sfx[i].0)
  }

  /**
   * After the first `i` entries of `sfx`: `rm` holds `rec` of each of them
   * under its hash, and the records of `rm0` they do not replace.
   */
  ghost predicate Stored(rm0: map<Hash, Record>, rm: map<Hash, Record>, sfx: seq<(string, string)>, i: nat,
                         rec: (string, string) -> Record)
    requires i <= |sfx|
  {
    (forall h :: h in rm ==> h in rm0 || h in HashesOf(sfx[..i])) &&
    (forall j :: 0 <= j < i ==> Md5Of(sfx[j].0) in rm && rm[Md5Of(sfx[j].0)] == rec(sfx[j].0, sfx[j].1)) &&
    (forall h :: h in rm0 && h !in HashesOf(sfx[..i]) ==> h in rm && rm[h] == rm0[h])
  }

  /** With distinct contexts, entry `i` is not among the hashes of the entries before it. */
  lemma NextNotStored(sfx: seq<(string, string)>, i: nat)
    requires DistinctContexts(sfx) && i < |sfx|
    ensures Md5Of(sfx[i].0) !in HashesOf(sfx[..i])
    ensures HashesOf(sfx[..i + 1]) == HashesOf(sfx[..i]) + {Md5Of(sfx[i].0)}
  {
    forall j | 0 <= j < i
      ensures Md5Of(sfx[..i][j].0) != Md5Of(sfx[i].0)
    {
      assert sfx[..i][j] == sfx[j];
    }
    assert sfx[..i + 1] == sfx[..i] + [sfx[i]];
  }

  /** Storing the record of entry `i` extends what is stored. */
  lemma StoredNext(rm0: map<Hash, Record>, rm: map<Hash, Record>, sfx: seq<(string, string)>, i: nat,
                   rec: (string, string) -> Record)
    requires DistinctContexts(sfx) && i < |sfx| && Stored(rm0, rm, sfx, i, rec)
    ensures Stored(rm0, rm[Md5Of(sfx[i].0) := rec(sfx[i].0, sfx[i].1)], sfx, i + 1, rec)
  {
    NextNotStored(sfx, i);
    var h := Md5Of(sfx[i].0);
    var rm' := rm[h := rec(sfx[i].0, sfx[i].1)];
    forall j | 0 <= j < i + 1
      ensures Md5Of(sfx[j].0) in rm' && rm'[Md5Of(sfx[j].0)] == rec(sfx[j].0, sfx[j].1)
    {
      if j < i {
        assert sfx[j].0 != sfx[i].0;
      }
    }
  }

  /** Without a failure, no entry fails. */
  lemma {:induction false} NoFailureEachEntry(sfx: seq<(string, string)>, fail: (string, string) -> Option<Error>)
    requires FirstFailure(sfx, fail).None?
    ensures forall i :: 0 <= i < |sfx| ==> fail(sfx[i].0, sfx[i].1).None?
    decreases |sfx|
  {
    if |sfx| > 0 {
      var init := sfx[..|sfx| - 1];
      NoFailureEachEntry(init, fail);
      forall i | 0 <= i < |sfx|
        ensures fail(sfx[i].0, sfx[i].1).None?
      {
        if i < |init| {
          assert init[i] == sfx[i];
        }
      }
    }
  }

  predicate DistinctContexts(sfx: seq<(string, string)>)
  {
    forall i, j :: 0 <= i < j < |sfx| ==> sfx[i].0 != sfx[j].0
  }

  lemma {:induction false} ParseIntsSticks(tokens: seq<string>, values: seq<string>, k: nat)
    requires k <= Min(|tokens|, |values|) && ParseInts(tokens[..k], values[..k]).Err?
    ensures ZipInts(tokens, values) == ParseInts(tokens[..k], values[..k])
    decreases Min(|tokens|, |values|) - k
  {
    var n := Min(|tokens|, |values|);
    if k < n {
      assert tokens[..k + 1][..k] == tokens[..k] && values[..k + 1][..k] == values[..k];
      ParseIntsSticks(tokens, values, k + 1);
    }
  }

  lemma {:induction false} ParseStatusesSticks(recs: seq<string>, fieldTokens: seq<string>, k: nat)
    requires k <= |recs| && ParseStatuses(recs[..k], fieldTokens).Err?
    ensures ParseStatuses(recs, fieldTokens) == ParseStatuses(recs[..k], fieldTokens)
    decreases |recs| - k
  {
    if k < |recs| {
      assert recs[..k + 1][..k] == recs[..k];
      ParseStatusesSticks(recs, fieldTokens, k + 1);
    } else {
      assert recs[..k] == recs;
    }
  }

  lemma {:induction false} AttemptedAfterFailure(recs: seq<string>, fieldTokens: seq<string>, k: nat)
    requires 0 < k <= |recs| && ParseStatuses(recs[..k - 1], fieldTokens).Ok?
    requires ParseStatuses(recs[..k], fieldTokens).Err?
    ensures Attempted(recs, fieldTokens) == k
    decreases |recs| - k
  {
    if k < |recs| {
      assert recs[..k + 1][..k] == recs[..k];
      ParseStatusesSticks(recs[..k + 1], fieldTokens, k);
      assert recs[..k + 1][..k] == recs[..k];
      AttemptedTail(recs, fieldTokens, k);
    } else {
      assert recs[..k] == recs;
      assert recs[..k - 1] == recs[..|recs| - 1];
    }
  }

  lemma {:induction false} AttemptedTail(recs: seq<string>, fieldTokens: seq<string>, k: nat)
    requires 0 < k <= |recs| && ParseStatuses(recs[..k - 1], fieldTokens).Ok?
    requires ParseStatuses(recs[..k], fieldTokens).Err?
    ensures Attempted(recs, fieldTokens) == k
    decreases |recs| - k
  {
    var n := |recs|;
    if k == n {
      assert recs[..k] == recs && recs[..k - 1] == recs[..n - 1];
    } else {
      assert recs[..n - 1][..k] == recs[..k] && recs[..n - 1][..k - 1] == recs[..k - 1];
      AttemptedTail(recs[..n - 1], fieldTokens, k);
      ParseStatusesSticks(recs[..n - 1], fieldTokens, k);
    }
  }

  /** Indexing the code of record `k` extends the codes indexed for the records before it. */
  lemma AddCodesNext(ix: Index<string>, h: Hash, recs: seq<string>, k: nat)
    requires k < |recs|
    ensures AddCodes(ix, h, Codes(recs[..k + 1])) == Add(AddCodes(ix, h, Codes(recs[..k])), StatusCode(recs[k]), h)
  {
    var cs := Codes(recs[..k + 1]);
    assert recs[..k + 1][..k] == recs[..k];
    assert cs[..k] == Codes(recs[..k]);
  }

  /** One more status record: its fields' error, or the dict with its code set to them. */
  lemma ParseStatusesNext(recs: seq<string>, fieldTokens: seq<string>, k: nat, m: map<string, map<string, int>>)
    requires k < |recs| && ParseStatuses(recs[..k], fieldTokens) == Ok(m)
    ensures ParseStatuses(recs[..k + 1], fieldTokens) ==
      match StatusFields(recs[k], fieldTokens)
      case Err(e) => Err(e)
      case Ok(f) => Ok(m[StatusCode(recs[k]) := f])
  {
    assert recs[..k + 1][..k] == recs[..k];
  }

  /** Decoding stops at record `k - 1`, the first that fails: its error, and `k` codes indexed. */
  lemma StatusesFailAt(recs: seq<string>, fieldTokens: seq<string>, k: nat)
    requires 0 < k <= |recs| && ParseStatuses(recs[..k - 1], fieldTokens).Ok?
    requires ParseStatuses(recs[..k], fieldTokens).Err?
    ensures ParseStatuses(recs, fieldTokens) == ParseStatuses(recs[..k], fieldTokens)
    ensures recs[..Attempted(recs, fieldTokens)] == recs[..k]
  {
    ParseStatusesSticks(recs, fieldTokens, k);
    AttemptedAfterFailure(recs, fieldTokens, k);
  }

  /** A new record without decoded statuses keeps the status index exact. */
  lemma LoadKeepsExact(rm: map<Hash, Record>, codes: Index<string>, h: Hash, rec: Record)
    requires StatusExact(rm, codes) && h !in rm && rec.statuses.None?
    ensures StatusExact(rm[h := rec], codes)
  {
  }

  /** Completing a record that had no decoded statuses keeps the status index exact. */
  lemma FreshStep(rm: map<Hash, Record>, codes: Index<string>, h: Hash, rec: Record, cs: seq<string>)
    requires StatusExact(rm, codes) && (h in rm ==> rm[h].statuses.None?)
    requires rec.statuses.Some? && rec.statuses.value.Keys == set c | c in cs
    ensures StatusExact(rm[h := rec], AddCodes(codes, h, cs))
  {
    forall c, h'
      ensures h' in Lookup(AddCodes(codes, h, cs), c) <==>
              h' in rm[h := rec] && rm[h := rec][h'].statuses.Some? && c in rm[h := rec][h'].statuses.value
    {
      AddCodesLookup(codes, h, cs, c);
    }
  }

  lemma {:induction false} FillFromSticks(store: map<string, int>, input: map<string, Scalar>, tokens: seq<string>, k: nat)
    requires k <= |tokens| && FillFrom(store, input, tokens[..k]).1.Some?
    ensures FillFrom(store, input, tokens) == FillFrom(store, input, tokens[..k])
    decreases |tokens| - k
  {
    if k < |tokens| {
      assert tokens[..k + 1][..k] == tokens[..k];
      FillFromSticks(store, input, tokens, k + 1);
    } else {
      assert tokens[..k] == tokens;
    }
  }

  // ---------------------------------------------------------------------
  // Server and database sections

  /**
   * A JSON value as the endpoint may serve it. A finite number with a
   * fraction or exponent is a float, known here by its truncation toward
   * zero; an array or object is known only by its kind.
   */
  datatype Scalar = JInt(i: int) | JFloat(truncated: int) | JBool(b: bool) | JText(s: string) | JNull | JArray | JObject

  /** Python's `int(v)` on a JSON value: a float truncates, None, a list and a dict raise `TypeError`. */
  function ToInt(v: Scalar): Result<int, Error>
  {
    match v
    case JInt(i) => Ok(i)
    case JFloat(t) => Ok(t)
    case JBool(b) => Ok(if b then 1 else 0)
    case JText(s) => if ParseInt(s).Some? then Ok(ParseInt(s).value) else Err(ValueError(s))
    case JNull | JArray | JObject => Err(TypeError)
  }

  /** `for token in tokens: if token in input: store[token] = int(input[token])`: the store and the exception. */
  function FillFrom(store: map<string, int>, input: map<string, Scalar>, tokens: seq<string>): (map<string, int>, Option<Error>)
    decreases |tokens|
  {
    if |tokens| == 0 then (store, None)
    else
      var (m, e) := FillFrom(store, input, tokens[..|tokens| - 1]);
      var t := tokens[|tokens| - 1];
      if e.Some? || t !in input then (m, e)
      else match ToInt(input[t])
        case Err(err) => (m, Some(err))
        case Ok(n) => (m[t := n], None)
  }

  /**
   * Without an exception, the store gains exactly the known tokens present
   * in the input, converted; every other key keeps its value.
   */
  lemma {:induction false} FillFromExact(store: map<string, int>, input: map<string, Scalar>, tokens: seq<string>)
    requires FillFrom(store, input, tokens).1.None?
    ensures var m := FillFrom(store, input, tokens).0;
      m.Keys == store.Keys + (set t | t in tokens && t in input) &&
      (forall t :: t in tokens && t in input ==> ToInt(input[t]).Ok? && m[t] == ToInt(input[t]).value) &&
      (forall k :: k in store && k !in (set t | t in tokens && t in input) ==> m[k] == store[k])
    decreases |tokens|
  {
    if |tokens| > 0 {
      var init := tokens[..|tokens| - 1];
      FillFromExact(store, input, init);
      assert tokens == init + [tokens[|tokens| - 1]];
    }
  }

  /** An exception is some known, present token whose value `int()` rejects. */
  lemma {:induction false} FillFromFails(store: map<string, int>, input: map<string, Scalar>, tokens: seq<string>)
    requires FillFrom(store, input, tokens).1.Some?
    ensures exists t :: t in tokens && t in input && ToInt(input[t]) == Err(FillFrom(store, input, tokens).1.value)
    decreases |tokens|
  {
    var init := tokens[..|tokens| - 1];
    var t := tokens[|tokens| - 1];
    if FillFrom(store, input, init).1.Some? {
      FillFromFails(store, input, init);
      var t' :| t' in init && t' in input && ToInt(input[t']) == Err(FillFrom(store, input, init).1.value);
      assert t' in tokens;
    } else {
      assert t in tokens;
    }
  }

  // ---------------------------------------------------------------------
  // The state

  /** The class-level `decoded_contexts` cache, shared by every `KongState`. */
  class ContextCache {
    var entries: map<string, (Hash, Context)>

    ghost predicate Valid()
      reads this
    {
      CacheValid(entries)
    }

    constructor ()
      ensures Valid() && entries == map[]
    {
      entries := map[];
    }

    /** The cache-miss branch of `load_resource_context`: split, read the version, zip with its tokens. */
    static method DecodeNewContext(resourceContext: string) returns (r: Result<Context, Error>)
      ensures r == DecodeContext(resourceContext)
    {
      var contextValues := Split(resourceContext, ContextSeparator);
      var sfxVer := ParseInt(contextValues[0]);
      if sfxVer.None? {
        return Err(ValueError(contextValues[0]));
      }
      var tokens := ContextTokens(sfxVer.value);
      if tokens.None? {
        return Err(KeyError(sfxVer.value));
      }
      var items: seq<(string, Option<string>)> := [];
      var i := 0;
      while i < |tokens.value| && i < |contextValues|
        invariant 0 <= i <= Min(|tokens.value|, |contextValues|)
        invariant |items| == i
        invariant forall k :: 0 <= k < i ==> items[k] == (tokens.value[k], FieldValue(contextValues[k]))
      {
        var value := if contextValues[i] == NoValue then None else Some(contextValues[i]);
        assert value == FieldValue(contextValues[i]);
        items := items + [(tokens.value[i], value)];
        i := i + 1;
      }
      assert items == ZipFields(tokens.value, contextValues);
      r := Ok(Context(resourceContext, items));
    }

    /** The cache lookup of `load_resource_context`, decoding and storing the context on a miss. */
    method Decode(resourceContext: string) returns (r: Result<(Hash, Context), Error>)
      requires Valid()
      modifies this
      ensures Valid()
      ensures r.Ok? <==> DecodeContext(resourceContext).Ok?
      ensures r.Ok? ==> r.value == (Md5Of(resourceContext), DecodeContext(resourceContext).value)
      ensures r.Ok? ==> resourceContext in entries && entries[resourceContext] == r.value
      ensures r.Err? ==> r.error == DecodeContext(resourceContext).error
      ensures entries ==
        if resourceContext in old(entries) || r.Err? then old(entries)
        else old(entries)[resourceContext := (Md5Of(resourceContext), DecodeContext(resourceContext).value)]
      ensures forall raw :: raw in old(entries) ==> raw in entries && entries[raw] == old(entries)[raw]
    {
      if resourceContext in entries {
        return Ok(entries[resourceContext]);
      }
      var decoded := DecodeNewContext(resourceContext);
      if decoded.Err? {
        return Err(decoded.error);
      }
      r := Ok((Md5Of(resourceContext), decoded.value));
      entries := entries[resourceContext := r.value];
    }
  }

  class KongState {
    var resourceMetrics: map<Hash, Record>
    /** `api_ids`, `api_names`, `service_ids`, `service_names`, `route_ids`, `http_methods`. */
    var identity: map<Dim, Index<Option<string>>>
    var statusCodes: Index<string>
    var serverMetrics: map<string, int>
    var databaseMetrics: map<string, int>
    const decodedContexts: ContextCache

    ghost predicate Valid()
      reads this, decodedContexts
    {
      decodedContexts.Valid() && identity.Keys == AllDims &&
      RecordsCached(resourceMetrics, decodedContexts.entries) && IdentityExact(resourceMetrics, identity) &&
      StatusSound(resourceMetrics, statusCodes)
    }

    /** A fresh state over the shared cache: every store and index empty. */
    constructor (cache: ContextCache)
      requires cache.Valid()
      ensures Valid() && decodedContexts == cache
      ensures resourceMetrics == map[] && statusCodes == map[] && serverMetrics == map[] && databaseMetrics == map[]
      ensures forall d :: d in identity ==> identity[d] == map[]
    {
      resourceMetrics := map[];
      identity := map d | d in AllDims :: map[];
      statusCodes := map[];
      serverMetrics := map[];
      databaseMetrics := map[];
      decodedContexts := cache;
      new;
      assert forall d :: d in identity ==> identity[d] == map[];
      assert forall d, v :: d in identity ==> Lookup(identity[d], v) == {};
    }

    /** The index loop of `load_resource_context`: `h` added under each indexed descriptor's value. */
    method IndexContext(contextHash: Hash, items: seq<(string, Option<string>)>)
      modifies this
      ensures identity == IndexItems(old(identity), contextHash, items)
      ensures resourceMetrics == old(resourceMetrics) && statusCodes == old(statusCodes)
      ensures serverMetrics == old(serverMetrics) && databaseMetrics == old(databaseMetrics)
    {
      var k := 0;
      while k < |items|
        invariant 0 <= k <= |items|
        invariant identity == IndexItems(old(identity), contextHash, items[..k])
        invariant resourceMetrics == old(resourceMetrics) && statusCodes == old(statusCodes)
        invariant serverMetrics == old(serverMetrics) && databaseMetrics == old(databaseMetrics)
      {
        var (descriptor, value) := items[k];
        assert items[..k + 1][..k] == items[..k];
        assert IndexItems(old(identity), contextHash, items[..k + 1]) == IndexPair(identity, contextHash, items[k]);
        var d := IndexedDim(descriptor);
        if d.Some? && d.value in identity {
          identity := identity[d.value := Add(identity[d.value], value, contextHash)];
        }
        k := k + 1;
      }
      assert items[..k] == items;
    }

    /**
     * `load_resource_context`: decode (or take from the cache) the context,
     * make its record a fresh copy of the decoded context and index it.
     */
    method LoadResourceContext(resourceContext: string) returns (r: Result<Hash, Error>)
      requires Valid()
      modifies this, decodedContexts
      ensures Valid()
      ensures r.Ok? <==> DecodeContext(resourceContext).Ok?
      ensures r.Ok? ==> r.value == Md5Of(resourceContext)
      ensures r.Err? ==> r.error == DecodeContext(resourceContext).error
      ensures decodedContexts.entries ==
        if resourceContext in old(decodedContexts.entries) || r.Err? then old(decodedContexts.entries)
        else old(decodedContexts.entries)[resourceContext := (Md5Of(resourceContext), DecodeContext(resourceContext).value)]
      ensures r.Ok? ==> resourceMetrics == old(resourceMetrics)[r.value := CopyOf(DecodeContext(resourceContext).value)]
      ensures r.Ok? ==> identity == IndexItems(old(identity), r.value, DecodeContext(resourceContext).value.items)
      ensures r.Err? ==> resourceMetrics == old(resourceMetrics) && identity == old(identity)
      ensures statusCodes == old(statusCodes) && serverMetrics == old(serverMetrics) && databaseMetrics == old(databaseMetrics)
    {
      var cached := decodedContexts.Decode(resourceContext);
      if cached.Err? {
        return Err(cached.error);
      }
      var (contextHash, decodedContext) := cached.value;
      RecordsCachedGrow(resourceMetrics, old(decodedContexts.entries), decodedContexts.entries);
      ContextTokensDistinct(decodedContext);
      LoadKeepsIndices(resourceMetrics, identity, statusCodes, decodedContexts.entries, resourceContext);
      resourceMetrics := resourceMetrics[contextHash := CopyOf(decodedContext)];
      IndexContext(contextHash, decodedContext.items);
      r := Ok(contextHash);
    }

    /** `zip(tokens, values)` with `int()` on each value, stopping at the first that fails. */
    static method ParseZipped(tokens: seq<string>, values: seq<string>) returns (r: Result<map<string, int>, Error>)
      ensures r == ZipInts(tokens, values)
    {
      var fields: map<string, int> := map[];
      var i := 0;
      while i < |tokens| && i < |values|
        invariant 0 <= i <= Min(|tokens|, |values|)
        invariant ParseInts(tokens[..i], values[..i]) == Ok(fields)
      {
        assert tokens[..i + 1][..i] == tokens[..i] && values[..i + 1][..i] == values[..i];
        var n := ParseInt(values[i]);
        if n.None? {
          ParseIntsSticks(tokens, values, i + 1);
          return Err(ValueError(values[i]));
        }
        fields := fields[tokens[i] := n.value];
        i := i + 1;
      }
      r := Ok(fields);
    }

    /**
     * The status-record loop of `decode_resource_metrics`: each record's
     * code is indexed for `contextHash` before its values are parsed.
     */
    method DecodeStatuses(remaining: seq<string>, fieldTokens: seq<string>, contextHash: Hash)
      returns (r: Result<map<string, map<string, int>>, Error>)
      modifies this
      ensures r == ParseStatuses(remaining, fieldTokens)
      ensures statusCodes == AddCodes(old(statusCodes), contextHash, Codes(remaining[..Attempted(remaining, fieldTokens)]))
      ensures resourceMetrics == old(resourceMetrics) && identity == old(identity)
      ensures serverMetrics == old(serverMetrics) && databaseMetrics == old(databaseMetrics)
    {
      var statuses: map<string, map<string, int>> := map[];
      var j := 0;
      while j < |remaining|
        invariant 0 <= j <= |remaining|
        invariant ParseStatuses(remaining[..j], fieldTokens) == Ok(statuses)
        invariant statusCodes == AddCodes(old(statusCodes), contextHash, Codes(remaining[..j]))
        invariant resourceMetrics == old(resourceMetrics) && identity == old(identity)
        invariant serverMetrics == old(serverMetrics) && databaseMetrics == old(databaseMetrics)
      {
        ParseStatusesNext(remaining, fieldTokens, j, statuses);
        AddCodesNext(old(statusCodes), contextHash, remaining, j);
        var statusValues := Split(remaining[j], StatusSeparator);
        var sc := statusValues[0];
        statusCodes := Add(statusCodes, sc, contextHash);
        var fields := ParseZipped(fieldTokens, statusValues[1..]);
        if fields.Err? {
          StatusesFailAt(remaining, fieldTokens, j + 1);
          return Err(fields.error);
        }
        statuses := statuses[sc := fields.value];
        j := j + 1;
      }
      assert remaining[..j] == remaining;
      r := Ok(statuses);
    }

    /** `decode_resource_metrics`: the counters and the status dict of one entry. */
    method DecodeResourceMetrics(encodedMetrics: string, contextHash: Hash, ver: int) returns (r: Result<Metrics, Error>)
      requires Valid() && contextHash in resourceMetrics
      modifies this
      ensures Valid()
      ensures r == DecodeMetrics(encodedMetrics, ver)
      ensures statusCodes == AddCodes(old(statusCodes), contextHash, IndexedCodes(encodedMetrics, ver))
      ensures resourceMetrics == old(resourceMetrics) && identity == old(identity)
      ensures serverMetrics == old(serverMetrics) && databaseMetrics == old(databaseMetrics)
    {
      if ver !in SupportedSfxVersions {
        return Err(UnsupportedVersion(ver));
      }
      var metricValues := Split(encodedMetrics, ',');
      var metTokens := MetricTokens(ver).value;
      var statusIdx := |metTokens|;
      DecodeMetricsStages(encodedMetrics, ver);
      var counters := ParseZipped(metTokens, metricValues);
      if counters.Err? {
        return Err(counters.error);
      }
      var remaining := metricValues[Min(statusIdx, |metricValues|)..];
      var statuses := DecodeStatuses(remaining, StatusTokens(ver).value[1..], contextHash);
      AddCodesKeepsSound(resourceMetrics, old(statusCodes), contextHash, IndexedCodes(encodedMetrics, ver));
      if statuses.Err? {
        return Err(statuses.error);
      }
      r := Ok(Metrics(counters.value, statuses.value));
    }

    /** `resource_metrics[h].update(decode_resource_metrics(encoded, h))`. */
    method CompleteEntry(encoded: string, contextHash: Hash) returns (failure: Option<Error>)
      requires Valid() && contextHash in resourceMetrics
      modifies this
      ensures Valid()
      ensures failure.None? <==> DecodeMetrics(encoded, 1).Ok?
      ensures failure.Some? ==> failure.value == DecodeMetrics(encoded, 1).error
      ensures failure.None? ==>
        var rec := old(resourceMetrics)[contextHash];
        var m := DecodeMetrics(encoded, 1).value;
        resourceMetrics == old(resourceMetrics)[contextHash := rec.(counters := rec.counters + m.counters, statuses := Some(m.statuses))]
      ensures failure.None? && StatusExact(old(resourceMetrics), old(statusCodes)) && old(resourceMetrics)[contextHash].statuses.None? ==>
        StatusExact(resourceMetrics, statusCodes)
      ensures serverMetrics == old(serverMetrics) && databaseMetrics == old(databaseMetrics)
    {
      var metrics := DecodeResourceMetrics(encoded, contextHash, 1);
      if metrics.Err? {
        return Some(metrics.error);
      }
      var m := metrics.value;
      StatusKeysIndexed(encoded, 1);
      forall c | c in m.statuses
        ensures contextHash in Lookup(statusCodes, c)
      {
        AddCodesLookup(old(statusCodes), contextHash, IndexedCodes(encoded, 1), c);
      }
      var record := resourceMetrics[contextHash];
      var completed := record.(counters := record.counters + m.counters, statuses := Some(m.statuses));
      CompleteKeepsIdentity(resourceMetrics, identity, decodedContexts.entries, contextHash, completed);
      CompleteKeepsStatus(resourceMetrics, statusCodes, contextHash, completed);
      if StatusExact(old(resourceMetrics), old(statusCodes)) && record.statuses.None? {
        FreshStep(old(resourceMetrics), old(statusCodes), contextHash, completed, IndexedCodes(encoded, 1));
      }
      resourceMetrics := resourceMetrics[contextHash := completed];
      failure := None;
    }

    /** One iteration of `update_resource_metrics`: load, decode, then complete the record. */
    method UpdateEntry(resourceContext: string, encoded: string) returns (failure: Option<Error>)
      requires Valid()
      modifies this, decodedContexts
      ensures Valid()
      ensures failure == EntryFailure(resourceContext, encoded)
      ensures failure.None? ==>
        resourceMetrics == old(resourceMetrics)[Md5Of(resourceContext) := CompleteRecord(resourceContext, encoded)]
      ensures failure.None? && Md5Of(resourceContext) !in old(resourceMetrics) && StatusExact(old(resourceMetrics), old(statusCodes)) ==>
        StatusExact(resourceMetrics, statusCodes)
      ensures serverMetrics == old(serverMetrics) && databaseMetrics == old(databaseMetrics)
    {
      var loaded := LoadResourceContext(resourceContext);
      if loaded.Err? {
        return Some(loaded.error);
      }
      var contextHash := loaded.value;
      var record := resourceMetrics[contextHash];
      if contextHash !in old(resourceMetrics) && StatusExact(old(resourceMetrics), old(statusCodes)) {
        LoadKeepsExact(old(resourceMetrics), statusCodes, contextHash, record);
      }
      ghost var loadedMetrics := resourceMetrics;
      failure := CompleteEntry(encoded, contextHash);
      if failure.None? {
        var m := DecodeMetrics(encoded, 1).value;
        var completed := record.(counters := record.counters + m.counters, statuses := Some(m.statuses));
        CompletedIsComplete(resourceContext, encoded, record, completed);
        OverwriteTwice(old(resourceMetrics), contextHash, record, completed);
      }
    }

    /**
     * Entry `i` of `update_resource_metrics`, extending what the entries
     * before it stored. `fail` and `rec` stand for EntryFailure and
     * CompleteRecord: they agree with them wherever those are applied.
     */
    method StoreEntry(ghost rm0: map<Hash, Record>, ghost wasEmpty: bool, sfx: seq<(string, string)>, i: nat,
                      ghost fail: (string, string) -> Option<Error>, ghost rec: (string, string) -> Record)
      returns (failure: Option<Error>)
      requires Valid() && DistinctContexts(sfx) && i < |sfx|
      requires forall a, b {:trigger EntryFailure(a, b)} :: fail(a, b) == EntryFailure(a, b)
      requires forall a, b {:trigger CompleteRecord(a, b)} :: rec(a, b) == CompleteRecord(a, b)
      requires FirstFailure(sfx[..i], fail).None? && Stored(rm0, resourceMetrics, sfx, i, rec)
      requires wasEmpty ==> rm0 == map[] && StatusExact(resourceMetrics, statusCodes)
      modifies this, decodedContexts
      ensures Valid()
      ensures failure == FirstFailure(sfx[..i + 1], fail)
      ensures failure.None? ==> Stored(rm0, resourceMetrics, sfx, i + 1, rec)
      ensures failure.None? && wasEmpty ==> StatusExact(resourceMetrics, statusCodes)
      ensures serverMetrics == old(serverMetrics) && databaseMetrics == old(databaseMetrics)
    {
      NextNotStored(sfx, i);
      StoredNext(rm0, resourceMetrics, sfx, i, rec);
      FirstFailureNext(sfx, fail, i);
      failure := UpdateEntry(sfx[i].0, sfx[i].1);
    }

    /** The loop of `update_resource_metrics`, over any `fail` and `rec` as in StoreEntry. */
    method UpdateEach(sfx: seq<(string, string)>, ghost fail: (string, string) -> Option<Error>,
                      ghost rec: (string, string) -> Record)
      returns (failure: Option<Error>)
      requires Valid() && DistinctContexts(sfx)
      requires forall a, b {:trigger EntryFailure(a, b)} :: fail(a, b) == EntryFailure(a, b)
      requires forall a, b {:trigger CompleteRecord(a, b)} :: rec(a, b) == CompleteRecord(a, b)
      modifies this, decodedContexts
      ensures Valid()
      ensures failure == FirstFailure(sfx, fail)
      ensures failure.None? ==> Stored(old(resourceMetrics), resourceMetrics, sfx, |sfx|, rec)
      ensures failure.None? && old(resourceMetrics) == map[] && old(statusCodes) == map[] ==>
        StatusExact(resourceMetrics, statusCodes)
      ensures serverMetrics == old(serverMetrics) && databaseMetrics == old(databaseMetrics)
    {
      ghost var wasEmpty := resourceMetrics == map[] && statusCodes == map[];
      for i := 0 to |sfx|
        invariant Valid()
        invariant FirstFailure(sfx[..i], fail) == None
        invariant Stored(old(resourceMetrics), resourceMetrics, sfx, i, rec)
        invariant wasEmpty ==> StatusExact(resourceMetrics, statusCodes)
        invariant serverMetrics == old(serverMetrics) && databaseMetrics == old(databaseMetrics)
      {
        failure := StoreEntry(old(resourceMetrics), wasEmpty, sfx, i, fail, rec);
        if failure.Some? {
          FirstFailureSticks(sfx, fail, i + 1);
          return;
        }
      }
      assert sfx[..|sfx|] == sfx;
      failure := None;
    }

    /**
     * `update_resource_metrics`: every entry in document order, stopping at
     * the first exception.
     */
    method UpdateResourceMetrics(sfx: seq<(string, string)>) returns (failure: Option<Error>)
      requires Valid() && DistinctContexts(sfx)
      modifies this, decodedContexts
      ensures Valid()
      ensures failure == FirstFailure(sfx, EntryFailure)
      ensures failure.None? ==>
        resourceMetrics.Keys == old(resourceMetrics).Keys + HashesOf(sfx) &&
        (forall i :: 0 <= i < |sfx| ==>
           Md5Of(sfx[i].0) in resourceMetrics && resourceMetrics[Md5Of(sfx[i].0)] == CompleteRecord(sfx[i].0, sfx[i].1)) &&
        (forall h :: h in old(resourceMetrics) && h !in HashesOf(sfx) ==> resourceMetrics[h] == old(resourceMetrics)[h])
      ensures failure.None? && old(resourceMetrics) == map[] && old(statusCodes) == map[] ==>
        StatusExact(resourceMetrics, statusCodes)
      ensures serverMetrics == old(serverMetrics) && databaseMetrics == old(databaseMetrics)
    {
      failure := UpdateEach(sfx, EntryFailure, CompleteRecord);
      assert sfx[..|sfx|] == sfx;
    }

    /** `update_server_metrics`: the known server tokens present in `server`, through `int()`. */
    method UpdateServerMetrics(server: map<string, Scalar>) returns (failure: Option<Error>)
      modifies this
      ensures (serverMetrics, failure) == FillFrom(old(serverMetrics), server, ServerTokens)
      ensures resourceMetrics == old(resourceMetrics) && identity == old(identity) && statusCodes == old(statusCodes)
      ensures databaseMetrics == old(databaseMetrics)
    {
      failure := None;
      var i := 0;
      while i < |ServerTokens|
        invariant 0 <= i <= |ServerTokens|
        invariant (serverMetrics, failure) == FillFrom(old(serverMetrics), server, ServerTokens[..i])
        invariant resourceMetrics == old(resourceMetrics) && identity == old(identity) && statusCodes == old(statusCodes)
        invariant databaseMetrics == old(databaseMetrics)
      {
        var token := ServerTokens[i];
        assert ServerTokens[..i + 1][..i] == ServerTokens[..i];
        if token in server {
          var n := ToInt(server[token]);
          if n.Err? {
            failure := Some(n.error);
            FillFromSticks(old(serverMetrics), server, ServerTokens, i + 1);
            return;
          }
          serverMetrics := serverMetrics[token := n.value];
        }
        i := i + 1;
      }
      assert ServerTokens[..i] == ServerTokens;
    }

    /** `update_database_metrics`: the known database tokens present in `database`, through `int()`. */
    method UpdateDatabaseMetrics(database: map<string, Scalar>) returns (failure: Option<Error>)
      modifies this
      ensures (databaseMetrics, failure) == FillFrom(old(databaseMetrics), database, DatabaseTokens)
      ensures resourceMetrics == old(resourceMetrics) && identity == old(identity) && statusCodes == old(statusCodes)
      ensures serverMetrics == old(serverMetrics)
    {
      failure := None;
      var i := 0;
      while i < |DatabaseTokens|
        invariant 0 <= i <= |DatabaseTokens|
        invariant (databaseMetrics, failure) == FillFrom(old(databaseMetrics), database, DatabaseTokens[..i])
        invariant resourceMetrics == old(resourceMetrics) && identity == old(identity) && statusCodes == old(statusCodes)
        invariant serverMetrics == old(serverMetrics)
      {
        var token := DatabaseTokens[i];
        assert DatabaseTokens[..i + 1][..i] == DatabaseTokens[..i];
        if token in database {
          var n := ToInt(database[token]);
          if n.Err? {
            failure := Some(n.error);
            FillFromSticks(old(databaseMetrics), database, DatabaseTokens, i + 1);
            return;
          }
          databaseMetrics := databaseMetrics[token := n.value];
        }
        i := i + 1;
      }
      assert DatabaseTokens[..i] == DatabaseTokens;
    }

    /**
     * `update_from_sfx` on the decoded snapshot's three sections: the
     * resource entries, then the server section, then the database section,
     * the first exception skipping whatever comes after it.
     */
    method UpdateFromSfx(sfx: seq<(string, string)>, server: map<string, Scalar>, database: map<string, Scalar>)
      returns (failure: Option<Error>)
      requires Valid() && DistinctContexts(sfx)
      modifies this, decodedContexts
      ensures Valid()
      ensures FirstFailure(sfx, EntryFailure).Some? ==>
        failure == FirstFailure(sfx, EntryFailure) &&
        serverMetrics == old(serverMetrics) && databaseMetrics == old(databaseMetrics)
      ensures FirstFailure(sfx, EntryFailure).None? ==>
        resourceMetrics.Keys == old(resourceMetrics).Keys + HashesOf(sfx) &&
        (forall i :: 0 <= i < |sfx| ==>
           Md5Of(sfx[i].0) in resourceMetrics && resourceMetrics[Md5Of(sfx[i].0)] == CompleteRecord(sfx[i].0, sfx[i].1)) &&
        (forall h :: h in old(resourceMetrics) && h !in HashesOf(sfx) ==> resourceMetrics[h] == old(resourceMetrics)[h])
      ensures FirstFailure(sfx, EntryFailure).None? ==>
        serverMetrics == FillFrom(old(serverMetrics), server, ServerTokens).0
      ensures FirstFailure(sfx, EntryFailure).None? && FillFrom(old(serverMetrics), server, ServerTokens).1.Some? ==>
        failure == FillFrom(old(serverMetrics), server, ServerTokens).1 && databaseMetrics == old(databaseMetrics)
      ensures FirstFailure(sfx, EntryFailure).None? && FillFrom(old(serverMetrics), server, ServerTokens).1.None? ==>
        (databaseMetrics, failure) == FillFrom(old(databaseMetrics), database, DatabaseTokens)
      ensures failure.None? && old(resourceMetrics) == map[] && old(statusCodes) == map[] ==>
        StatusExact(resourceMetrics, statusCodes)
    {
      failure := UpdateResourceMetrics(sfx);
      if failure.Some? {
        return;
      }
      failure := UpdateServerMetrics(server);
      if failure.Some? {
        return;
      }
      failure := UpdateDatabaseMetrics(database);
    }
  }
}
