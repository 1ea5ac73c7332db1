# collectd-kong, modelled in Dafny

This project models the core of the collectd-kong plugin. The plugin reads the
snapshot that Kong's `signalfx` plugin serves and reports per-group metrics to
collectd:

- **Glob filtering (`Glob`, `Utils`).** `PatternList` is an append-only list of
  fnmatch globs. `matches` returns the distinct arguments that some glob fully
  matches. `filter_by_pattern_lists` splits candidates into hits and misses:
  a hit matches the whitelist and does not match the blacklist.
- **Configuration (`KongConfig`).** `Config` builds the fourteen pattern lists
  from the parsed settings. It raises the mutual-exclusion `TypeError`, gives
  a reported kind with an empty whitelist the default `*`, and derives the
  `will_report_*` flags.
- **Snapshot decoding (`KongState`, `Text`).**
  - A context string is split on `0x1F` into a version and six descriptors; a
    NUL field stands for None.
  - A counter string is split on `,` into six counters, followed by
    `code:rc:ul:rqs:rss` status records.
  - Decoding fills `resource_metrics`, the class-level `decoded_contexts`
    cache and the seven reverse indices. The server and database stores are
    filled from their dictionaries.
- **Grouping (`KongGrouper`).** The grouper partitions the context hashes,
  first by API or by service then route, then by HTTP method. Each hit value
  gets its own group and the misses fall into a catch-all.
- **Reporting (`KongReporter`).**
  - One metric per group holds the group's counter total, tagged with the
    descriptors of a representative member that pass their filters.
  - When status codes are reported, each group instead gets one metric per
    status-code bucket: the exact code, `Nxx` or `miss`. A hit/miss cache
    persists on the reporter.
  - Last come the instance-wide server and database metrics.

Imperative source code stays imperative. `PatternList`, `Config`, `KongState`
(with its `ContextCache`), `Grouper` and `Reporter` are classes whose methods
update fields. Each loop is a method with invariants, proved against a
specification function.

- **Set iteration order.** Python leaves it unspecified. The methods pick
  elements with `:|`, and each result is stated for the order the run picked.
  Ghost out-parameters (`Order`, `ScopeOrder`, bucket orders) return that
  order, and the partition and sum properties are proved for every order.
- **md5.** The context hash is the constructor `Md5Of(raw)`, so different raw
  strings never collide.

Module map:

| module | file | source |
|---|---|---|
| Wrappers | wrappers.dfy | Option / Result |
| Text | text.dfy | `str.split`, `int()`, `str()` as the plugin uses them |
| Glob | glob.dfy | `fnmatch.translate` + `re.match` |
| Utils | utils.dfy | kong/utils.py |
| KongConfig | config.dfy | kong/config.py |
| KongState | kong_state.dfy | kong/kong_state.py |
| KongGrouper | grouper.dfy | kong/grouper.py |
| KongReporter | reporter.dfy | kong/reporter.py |

## Model

| member | source | states |
|---|---|---|
| Text.Split | kong/kong_state.py:97 | splitting always yields at least one piece, so the version field `context_values[0]` always exists |
| Text.SplitJoin | kong/kong_state.py:97 | joining the pieces of a split with the separator gives back the original string |
| Text.JoinSplit | kong/kong_state.py:120 | splitting a join of separator-free pieces gives back exactly those pieces |
| Text.SplitFree | kong/kong_state.py:130 | a string without the separator splits into itself alone |
| Text.SplitPrefix | kong/kong_state.py:120 | a separator-free prefix, the separator, then a rest split into the prefix followed by the split of the rest |
| Text.NatToString | kong/config.py:77 | `str(n)` of a natural number is a non-empty run of decimal digits |
| Text.NatToStringValue | kong/config.py:77 | the digits `str(n)` writes have the value `n` |
| Text.TrimDigits | kong/kong_state.py:125 | `int()`'s whitespace stripping leaves a rendered integer unchanged |
| Text.ParseIntToString | kong/kong_state.py:125 | `int(str(n)) == n` for every integer `n` |
| Text.ParseNegative | kong/kong_state.py:125 | `int(str(n)) == n` for a negative `n`: the sign, then the magnitude's digits |
| Text.ParseNatural | kong/kong_state.py:125 | `int(str(n)) == n` for a non-negative `n` |
| Glob.ScanClose | kong/utils.py:40 | the scan stops at the first `]` at or after the start, or at the end of the pattern when there is none |
| Glob.ClassClose | kong/utils.py:40 | the class a `[` opens ends after that bracket and no later than the end of the pattern |
| Glob.AnyMatchExists | kong/utils.py:26-29 | a list of patterns matches a string iff the pattern at some position matches it |
| Glob.StarMatchesAll | kong/config.py:96-97 | the default whitelist element `*` matches every string, the empty one included |
| Glob.StarListMatchesAll | kong/config.py:96-97 | a list holding `*` matches every string |
| Glob.LiteralMatchesOnlyItself | kong/utils.py:38-41 | a pattern without `*`, `?` or `[` matches exactly the string it spells: the match is full and case-sensitive |
| Glob.TranslateLiteralPrefix | kong/utils.py:40 | a pattern text without `*`, `?` or `[` compiles character by character, whatever text follows it |
| Glob.StarThen | kong/utils.py:40-41 | a leading `*` lets the rest of the pattern match any suffix of the string |
| Glob.LiteralThenStar | kong/utils.py:40-41 | a literal followed by `*` matches exactly the strings that start with the literal |
| Glob.StarsMatchOccurrence | kong/utils.py:40-41 | `*lit*` with a literal `lit` matches exactly the strings in which `lit` occurs |
| Glob.AnchoredAtBothEnds | kong/utils.py:38-41 | example: `one` does not match `__one__`, while `*one*` does |
| Glob.ScanCloseAt | kong/utils.py:40 | the class closes at the first `]` after its start |
| Glob.SingleItems | kong/utils.py:40 | a class body without `-` has one single-character member per character, in order |
| Glob.InPlainClass | kong/utils.py:40 | a class body without `-` holds exactly its own characters |
| Glob.ClassTranslation | kong/utils.py:40 | `[b]rest`, for a non-empty body `b` without `]`, `-` or a leading `!`, compiles to the class of `b`'s characters followed by `rest`'s tokens |
| Glob.NegatedTranslation | kong/utils.py:40 | `[!b]rest`, for a non-empty body `b` without `]` or `-`, compiles to the negated class of `b`'s characters followed by `rest`'s tokens |
| Glob.ClassMatches | kong/utils.py:40-41 | `[b]rest` matches `c` followed by `s` iff `c` is a character of `b` and `rest` matches `s` |
| Glob.NegatedClassMatches | kong/utils.py:40-41 | `[!b]rest` matches `c` followed by `s` iff `c` is not a character of `b` and `rest` matches `s` |
| Glob.ClassExactly | kong/utils.py:40-41 | `[b]` alone matches exactly the one-character strings whose character is in `b` |
| Glob.ClassExample | kong/utils.py:38-41 | example: `[45]*` matches `404` but not `200`, and `[!2]??` matches `301` |
| Glob.Class45 | kong/utils.py:38-41 | example: `[45]*` matches `404` but not `200` |
| Glob.Negated2 | kong/utils.py:38-41 | example: `[!2]??` matches `301` |
| Utils.SelectedMembers | kong/utils.py:15-30 | `matches` returns a string iff it is an argument and is reported: cached as a match, or not cached as a miss and fully matched by some pattern |
| Utils.SelectedDistinct | kong/utils.py:15-30 | `matches` returns each string at most once |
| Utils.SelectedFirstSeenOrder | kong/utils.py:15-30 | the returned strings come in the order of their first appearance among the arguments |
| Utils.NoPatternsMatchNothing | kong/utils.py:26-30 | a pattern list with no patterns matches nothing |
| Utils.PatternList.constructor | kong/utils.py:9-13 | `elements` are the arguments in order, `patterns` their compilations one for one, and both caches are empty |
| Utils.PatternList.ToPatterns | kong/utils.py:32-36 | one compiled pattern per element, in element order |
| Utils.PatternList.ToPattern | kong/utils.py:38-41 | `*` compiles to a pattern matching every string; an element without `*`, `?` or `[` to one matching only itself; `*lit*` to one matching exactly the strings containing `lit`; a plain class `[b]` to one matching exactly the one-character strings of `b`'s characters |
| Utils.PatternList.Update | kong/utils.py:43-45 | elements are extended by the arguments in order, the old patterns stay a prefix, patterns still compile the elements one for one, and the caches stay empty |
| Utils.PatternList.Matches | kong/utils.py:15-30 | the result is the distinct reported arguments in first-seen order, computed without writing either cache |
| Utils.HitsMissesPartition | kong/utils.py:56-63 | hits and misses together hold every argument exactly as often as it was given (as multisets) |
| Utils.HitsMembers | kong/utils.py:59 | an argument is among the hits iff the whitelist matches it and the blacklist does not, and among the misses otherwise |
| Utils.HitsOfConcat | kong/utils.py:58-62 | both outputs keep input order: splitting a concatenation concatenates the splits |
| Utils.EmptyWhitelistAllMiss | kong/utils.py:59 | with an empty whitelist there are no hits and every argument is a miss |
| Utils.StarBlacklistAllMiss | kong/utils.py:59 | with `*` on the blacklist there are no hits and every argument is a miss |
| Utils.FilterByPatternLists | kong/utils.py:53-63 | the hits are the arguments that pass white-and-not-black, in input order, and the misses are the others, in input order |
| KongConfig.RenderAll | kong/config.py:77-79 | one rendered string per configured value of an entry |
| KongConfig.ElementsOfConcat | kong/config.py:73-80 | repeated directives keep their configured order: the elements of concatenated entries are the concatenated elements |
| KongConfig.ScalarWrapped | kong/config.py:70-71 | a truthy scalar setting becomes a one-element list and a falsy one an empty list |
| KongConfig.StatusFloatRendered | kong/config.py:76-77 | a float status code renders as the decimal digits of its integer part, which `int()` reads back as that integer |
| KongConfig.Defaulted | kong/config.py:95-97 | a configured whitelist is kept; the result is non-empty iff the kind is reported or the whitelist was configured; an unconfigured reported kind gets `['*']`, whose compiled list lets every string through |
| KongConfig.WillReportAfterDefault | kong/config.py:99-108 | after defaulting, a kind is reported iff its flag is set or its configured whitelist is non-empty (for status codes also when status-code groups are on) |
| KongConfig.BuildPatternList | kong/config.py:72-80 | a fresh valid list whose elements are the setting's values, rendered, in configured order |
| KongConfig.BuildPatternLists | kong/config.py:69-81 | every list attribute gets its own fresh list, holding the elements built from its setting |
| KongConfig.ListNameListed | kong/config.py:69 | the list loop visits every one of the fourteen list attributes |
| KongConfig.Config.WillReportOf | kong/config.py:99-110 | each kind's `will_report` flag is the one derived from its final whitelist and its switches |
| KongConfig.Config.constructor | kong/config.py:66-81 | the fourteen lists are fresh, distinct, and hold the elements built from the settings, and the scalar settings are copied |
| KongConfig.Config.ListsDistinct | kong/config.py:72 | different attributes hold different pattern-list objects |
| KongConfig.Config.DefaultWhitelist | kong/config.py:95-97 | one kind's whitelist becomes its defaulted form; every other list is unchanged |
| KongConfig.Config.UpdatePatternLists | kong/config.py:92-97 | each whitelist becomes its defaulted form and every blacklist is unchanged |
| KongConfig.Config.Configure | kong/config.py:87-88 | the lists are defaulted as above and the flags then agree with them |
| KongConfig.Config.SetWillReportFlags | kong/config.py:99-110 | the flags are derived from the current whitelists, with `apis` / `services` the disjunction of their name and ID flags |
| KongConfig.KindOrdered | kong/config.py:93-94 | `update_pattern_lists` visits every one of the seven kinds |
| KongConfig.Load | kong/config.py:66-88 | the `TypeError` with the mutual-exclusion message iff both status-code switches are on; otherwise the configured object, holding the final elements, with each flag true iff the kind's switch is on or its configured whitelist is non-empty (for status codes also when status-code groups are on) |
| KongState.IndexedDim | kong/kong_state.py:110-112 | a descriptor feeds an index only when `descriptor + 's'` names that index |
| KongState.ZipFields | kong/kong_state.py:101-104 | `zip` stops at the shorter of the token table and the fields |
| KongState.ItemsMapPairs | kong/kong_state.py:100-104 | with distinct descriptors, the decoded dict holds exactly the zipped pairs |
| KongState.ContextTokensDistinct | kong/kong_state.py:101 | the pairs of a decoded context have distinct descriptors |
| KongState.Attempted | kong/kong_state.py:129-135 | the number of status records whose code is indexed before a failure, all of them on success |
| KongState.DecodeMetricsStages | kong/kong_state.py:117-137 | a decode first fails or succeeds on the counters (indexing nothing when they fail), then on the status records, indexing the codes of the records it reached |
| KongState.ParseStatusesKeys | kong/kong_state.py:129-136 | the decoded status dict has exactly the codes of the records |
| KongState.StatusKeysIndexed | kong/kong_state.py:132-136 | a successful decode has a status entry for exactly the codes it indexed |
| KongState.DimTokensInOrder | kong/kong_state.py:11 | the six descriptors follow `sfx_ver` in `context_tokens[1]` |
| KongState.ContextTokensDistinct1 | kong/kong_state.py:11 | `context_tokens[1]` has no repeated descriptor |
| KongState.DecodeEncodedContext | kong/kong_state.py:97-104 | an encoded version-1 context decodes to the version followed by the zipped fields |
| KongState.EncodedContextItems | kong/kong_state.py:101-104 | the decoded pairs are the version, then each of the six values under its descriptor, in order |
| KongState.RecordFields | kong/kong_state.py:100-108 | the record built from those pairs holds exactly the seven descriptors, each with its value |
| KongState.ContextRoundTrip | kong/kong_state.py:94-108 | decoding an encoded context gives back each of the six values under its descriptor, NUL again as None |
| KongState.ItemsMapKeys | kong/kong_state.py:100-104 | the decoded dict's keys are the zipped descriptors |
| KongState.ContextTruncated | kong/kong_state.py:101-104 | a context with fewer or more fields than descriptors is truncated to the shorter |
| KongState.ContextErrors | kong/kong_state.py:97-101 | for every version field and whatever follows it: a field `int()` rejects raises `ValueError` with its text, an integer without a token table raises `KeyError`, and version 1 decodes |
| KongState.ContextErrorExamples | kong/kong_state.py:97-101 | example: `v1` and the empty string raise `ValueError`, and `2` raises `KeyError` |
| KongState.ZipMapAt | kong/kong_state.py:124-125 | with distinct tokens, the zipped dict maps each token to its value and has no other key |
| KongState.ParseIntsOfStrings | kong/kong_state.py:124-125 | `int()` over rendered integers gives back the integers under their tokens |
| KongState.IntToStringChars | kong/kong_state.py:120 | a rendered integer holds only digits and `-`, never a separator |
| KongState.JoinFree | kong/kong_state.py:120 | a join of pieces free of a character, with a different separator, is free of it |
| KongState.StatusRoundTrip | kong/kong_state.py:130-135 | an encoded status record decodes to its code and its four values under `status_tokens[1][1:]` |
| KongState.StatusesRoundTrip | kong/kong_state.py:129-136 | encoded status records decode to one dict per code, and every code is indexed |
| KongState.MetricsRoundTrip | kong/kong_state.py:117-137 | six encoded counters and encoded status records decode to the counters under `metric_tokens[1]` and one status dict per code, with every code indexed |
| KongState.MetricsErrors | kong/kong_state.py:118-119 | every version other than 1 raises the `KongException`, with the version in its message, before any code is indexed |
| KongState.ParseIntsOk | kong/kong_state.py:124-125 | counters that `int()` accepts all decode |
| KongState.CounterError | kong/kong_state.py:120-125 | the first of the six counters that `int()` rejects is the one the `ValueError` names, and no status code is indexed |
| KongState.MetricsErrorExamples | kong/kong_state.py:118-125 | example: version 2 and its message, an empty text, and a non-integer second counter |
| KongState.Add | kong/kong_state.py:113 | `index[k].add(h)` leaves the index with exactly one more key, `k` |
| KongState.AddLookup | kong/kong_state.py:113 | after `index[k].add(h)`, the entry for `k` gains `h` and every other entry is unchanged |
| KongState.IndexedDimOf | kong/kong_state.py:110-112 | each of the six descriptors feeds its own index |
| KongState.AddCodesLookup | kong/kong_state.py:132 | indexing codes for `h` adds `h` to the entry of exactly those codes |
| KongState.IndexItems | kong/kong_state.py:110-113 | the index loop creates no new index |
| KongState.IndexPair | kong/kong_state.py:111-113 | one pair of the index loop creates no new index |
| KongState.HasPairSnoc | kong/kong_state.py:110 | a pair is among the items iff it is among the first ones or is the last |
| KongState.IndexItemsLookup | kong/kong_state.py:110-113 | after the index loop, `d`'s entry for `v` gains `h` exactly when the context holds `v` under `d` |
| KongState.CachedRecordsDecoded | kong/kong_state.py:105-108 | records copied from a valid cache hold their decoded contexts |
| KongState.RecordsCachedGrow | kong/kong_state.py:105 | the cache only grows, so every record stays justified by it |
| KongState.IdentityAt | kong/kong_state.py:110-113 | with exact indices, `h` is in `index_d[v]` iff `h`'s record holds `v` under `d` |
| KongState.CachedRecordAt | kong/kong_state.py:107-108 | the record under a context's hash is a copy of that context's cached entry |
| KongState.LoadKeepsIdentity | kong/kong_state.py:107-113 | loading a cached context into its record and its indices keeps the indices exact, None included |
| KongState.LoadKeepsIndices | kong/kong_state.py:107-113 | loading a context keeps the records justified, the identity indices exact and the code index sound |
| KongState.CompleteKeepsIdentity | kong/kong_state.py:92 | storing decoded metrics leaves the descriptors, and so the identity indices, alone |
| KongState.CompleteKeepsStatus | kong/kong_state.py:92 | storing a status dict whose codes are all indexed for `h` keeps the code index sound |
| KongState.AddCodesKeepsSound | kong/kong_state.py:132 | indexing more codes keeps the code index sound |
| KongState.EntryFailure | kong/kong_state.py:89-92 | an entry raises no exception iff its context and its counters both decode |
| KongState.FirstFailureSticks | kong/kong_state.py:89-92 | once an entry fails, later entries do not change the exception raised |
| KongState.FirstFailureNext | kong/kong_state.py:89-92 | after failure-free entries, the next entry's exception is the loop's |
| KongState.CompletedIsComplete | kong/kong_state.py:90-92 | the fresh copy updated with the decoded metrics is the entry's complete record |
| KongState.OverwriteTwice | kong/kong_state.py:108 | a second store under the same hash replaces the first |
| KongState.NextNotStored | kong/kong_state.py:89-90 | with distinct contexts, an entry's hash was not stored by the entries before it |
| KongState.StoredNext | kong/kong_state.py:89-92 | storing entry `i`'s record extends what the first `i` entries stored |
| KongState.NoFailureEachEntry | kong/kong_state.py:89-92 | without an exception, no entry failed |
| KongState.ParseIntsSticks | kong/kong_state.py:124-125 | a failing `int()` on a counter decides the counters' outcome |
| KongState.ParseStatusesSticks | kong/kong_state.py:129-135 | a failing status record decides the status records' outcome |
| KongState.AttemptedAfterFailure | kong/kong_state.py:132-135 | the codes indexed run up to and including the first failing record |
| KongState.AttemptedTail | kong/kong_state.py:132-135 | likewise, counted from the failing record |
| KongState.AddCodesNext | kong/kong_state.py:132 | indexing record `k`'s code extends the codes indexed for the records before it |
| KongState.ParseStatusesNext | kong/kong_state.py:133-135 | one more record either raises its fields' error or sets its code to its fields |
| KongState.StatusesFailAt | kong/kong_state.py:129-135 | decoding stops at the first failing record, with its error and the codes up to it indexed |
| KongState.LoadKeepsExact | kong/kong_state.py:108 | a new record without statuses keeps the code index exact |
| KongState.FreshStep | kong/kong_state.py:92 | completing a record that had no statuses, with its codes indexed, keeps the code index exact |
| KongState.FillFromSticks | kong/kong_state.py:140-142 | once a token's `int()` fails, later tokens change nothing |
| KongState.FillFromExact | kong/kong_state.py:139-147 | without an exception, the store gains exactly the known tokens present in the input, converted, and keeps every other key |
| KongState.FillFromFails | kong/kong_state.py:139-147 | an exception comes from some known, present token whose value `int()` rejects |
| KongState.ContextCache.constructor | kong/kong_state.py:35 | the class-level cache starts empty |
| KongState.ContextCache.DecodeNewContext | kong/kong_state.py:97-104 | the cache-miss branch: split, read the version, look up its tokens and zip them with NUL as None, raising `ValueError` or `KeyError` as the source does |
| KongState.ContextCache.Decode | kong/kong_state.py:96-107 | the lookup succeeds iff the context decodes, returning the hash and the decoded context; only a new context that decodes is added, and earlier entries are never changed |
| KongState.KongState.constructor | kong/kong_state.py:46-58 | every store and index starts empty over the shared cache |
| KongState.KongState.IndexContext | kong/kong_state.py:110-113 | the identity indices gain the hash under each indexed descriptor's value, and nothing else changes |
| KongState.KongState.LoadResourceContext | kong/kong_state.py:94-115 | on success, the context's hash, its record a fresh copy of the decoded context and the identity indices extended by it; on failure the decode's error, with records and indices unchanged |
| KongState.KongState.ParseZipped | kong/kong_state.py:124-125 | the counters are `int()` of the zipped fields, stopping at the first that fails |
| KongState.KongState.DecodeStatuses | kong/kong_state.py:129-135 | the status dict of the records, with each reached record's code indexed for the context before its values are parsed |
| KongState.KongState.DecodeResourceMetrics | kong/kong_state.py:117-137 | the decoded counters and status dict, or the error; the code index gains the codes the decode reached, and nothing else changes |
| KongState.KongState.CompleteEntry | kong/kong_state.py:91-92 | on success the record gains the counters and the status dict; an exact code index stays exact |
| KongState.KongState.UpdateEntry | kong/kong_state.py:89-92 | one entry's exception, or its hash stored with the complete record |
| KongState.KongState.StoreEntry | kong/kong_state.py:89-92 | entry `i` extends what the entries before it stored, or raises the loop's exception |
| KongState.KongState.UpdateEach | kong/kong_state.py:89-92 | the loop raises the first exception; without one, every entry is stored |
| KongState.KongState.UpdateResourceMetrics | kong/kong_state.py:88-92 | the first exception in document order; without one, each entry's hash holds its complete record, other records are unchanged, and on a fresh state `h ∈ status_codes[sc]` iff `sc` is one of `h`'s codes |
| KongState.KongState.UpdateServerMetrics | kong/kong_state.py:139-142 | the server store gains the known server tokens present in the input, through `int()`, and nothing else changes |
| KongState.KongState.UpdateDatabaseMetrics | kong/kong_state.py:144-147 | the database store gains the known database tokens present in the input, through `int()`, and nothing else changes |
| KongState.KongState.UpdateFromSfx | kong/kong_state.py:60-66 | the resource, server and database updates in that order: the first exception is the result and leaves the later stores untouched; without one, each store holds what its own update promises |
| KongGrouper.GroupsFor | kong/grouper.py:108 | one group per value, in the order of the values |
| KongGrouper.UnionMembers | kong/grouper.py:119-120 | a hash is in the union of groups iff one of the groups holds it |
| KongGrouper.UnionElement | kong/grouper.py:120 | each group lies within the union |
| KongGrouper.UnionAppend | kong/grouper.py:69 | the union of concatenated group lists is the union of their unions |
| KongGrouper.DisjointAppend | kong/grouper.py:69 | disjoint lists with disjoint unions concatenate into a disjoint list |
| KongGrouper.PartitionAppend | kong/grouper.py:69 | partitions of disjoint sets concatenate into a partition of their union |
| KongGrouper.GroupsForUnion | kong/grouper.py:106-108 | the groups of the listed values together hold the members with one of those values |
| KongGrouper.GroupsForFacts | kong/grouper.py:106-108 | for distinct present values, the groups partition the members they claim |
| KongGrouper.ClaimedRest | kong/grouper.py:36-44 | the members a hit value claims and the catch-all divide the parent between them |
| KongGrouper.NonEmptyPartition | kong/grouper.py:43-44 | the catch-all, appended only when non-empty, partitions itself |
| KongGrouper.SplitPartition | kong/grouper.py:32-44 | splitting one parent yields non-empty, disjoint groups covering exactly the parent |
| KongGrouper.HitsNoDuplicates | kong/grouper.py:38 | the hits of a duplicate-free list are duplicate-free |
| KongGrouper.SplitAllPartition | kong/grouper.py:32-44 | splitting each of several disjoint parents partitions their union |
| KongGrouper.PromoteCovers | kong/grouper.py:46-63 | the promoted groups and the leftover catch-all partition the indistinct set |
| KongGrouper.CoversJoin | kong/grouper.py:60-63 | distinct groups, followed by groups covering a disjoint set with its rest, cover the union |
| KongGrouper.CoversUnion | kong/grouper.py:69 | the API and the route covers join into a cover of their union |
| KongGrouper.KeysAreValues | kong/grouper.py:86 | every value a record holds is a key of its index, and with no empty entry the keys are exactly those values |
| KongGrouper.ScopedCovers | kong/grouper.py:81-129 | the distinct groups of one resource type are non-empty and disjoint, and with the indistinct set they are exactly the contexts that have an ID |
| KongGrouper.RouteCovers | kong/grouper.py:131-168 | route splitting only subdivides service groups and moves members out of the catch-all, still covering the same contexts |
| KongGrouper.CoversClose | kong/grouper.py:28-30 | appending the non-empty remainder to covering groups yields a partition |
| KongGrouper.HttpPartition | kong/grouper.py:27-64 | the method split of covering parents partitions what they cover |
| KongGrouper.ApiAndRouteOf | kong/grouper.py:66-69 | the combined result is the API groups followed by the route groups, and the union of their catch-alls |
| KongGrouper.CoversExtend | kong/grouper.py:26 | adding the disjoint unscoped group to the indistinct set still covers, now with it |
| KongGrouper.GroupingPartition | kong/grouper.py:24-73 | the HTTP-method scoped groups are non-empty and pairwise disjoint, and their union is every context, whatever order the sets were iterated in, under the soundness assumptions below |
| KongGrouper.NoHits | kong/grouper.py:96 | a list whose every element is a miss has no hits |
| KongGrouper.ListedValue | kong/grouper.py:86 | every ID a record holds is among the listed non-None IDs |
| KongGrouper.UnreportedScope | kong/grouper.py:119-129 | with neither IDs nor names reported, there are no groups and the indistinct set is the union of the listed IDs' entries (empty when there are no IDs) |
| KongGrouper.AllIdsBlacklisted | kong/grouper.py:96 | when every ID is blacklisted, whatever the whitelist, there are no distinct groups and every context with an ID is indistinct |
| KongGrouper.IdGroups | kong/grouper.py:93-117 | IDs without names: one group per hit ID in listing order, exactly that ID's index entry, and the indistinct set is the union of the missed IDs' entries |
| KongGrouper.SplitAllWithinParents | kong/grouper.py:98-112 | each group of a split lies within one of the parents |
| KongGrouper.IdGroupsShareId | kong/grouper.py:97-114 | with IDs reported, all members of a distinct group carry the same ID, names reported or not |
| KongGrouper.SplitShape | kong/grouper.py:104-112 | a group of one ID's name split is either the members sharing one hit name or the catch-all, whose members have no hit name |
| KongGrouper.SplitAllShape | kong/grouper.py:97-112 | the same holds for every group of the name splits of all hit IDs |
| KongGrouper.IdNameGroups | kong/grouper.py:93-112 | IDs and names reported: every distinct group shares one ID, and either all its members carry the same hit name or none has a hit name (the ID's catch-all of None and missed names) |
| KongGrouper.NameGroups | kong/grouper.py:121-128 | names only: one group per hit name, exactly its index entry, and the indistinct set is the unnamed contexts with an ID plus the missed names' entries |
| KongGrouper.NameGroupsHit | kong/grouper.py:123-124 | names only: the groups are exactly the hit names' index entries, in order |
| KongGrouper.NameGroupsRest | kong/grouper.py:125-127 | names only: the indistinct set is the unnamed contexts with an ID plus the missed names' entries |
| KongGrouper.UnroutedStays | kong/grouper.py:151-154 | a context of the service catch-all with no route stays in the catch-all |
| KongGrouper.SplitAllWithin | kong/grouper.py:32-44 | splitting parents within a set yields groups within that set |
| KongGrouper.IndexMembers | kong/grouper.py:108 | `index[v] & g` is the members of `g` with value `v` |
| KongGrouper.ListOf | kong/grouper.py:86 | iterating a set lists each element once |
| KongGrouper.PresentValues | kong/grouper.py:33-35 | the distinct non-None values of the descriptor among the group, each once |
| KongGrouper.IndexGroups | kong/grouper.py:108 | `[index[v] & g for v in vs]` is one group of members per value |
| KongGrouper.IndexUnion | kong/grouper.py:110 | the union of `index[v] & g` over the values is the members claimed by them |
| KongGrouper.RestIsNoneAndMisses | kong/grouper.py:40-42 | a parent's catch-all is its None members plus the members of each missed value |
| KongGrouper.SplitGroup | kong/grouper.py:32-44 | one parent becomes a group per hit value, in the order the values were listed, then its non-empty catch-all |
| KongGrouper.SplitEach | kong/grouper.py:32-44 | each parent split in turn, with its own value order |
| KongGrouper.SingleHit | kong/grouper.py:55-57 | `filter_by_pattern_lists([v], ...)` has a hit iff `v` is a hit |
| KongGrouper.Absorb | kong/grouper.py:48-59 | one member of the draining loop moves to its value's entry exactly when the value is a hit |
| KongGrouper.Drain | kong/grouper.py:46-59 | the entries are the hit values in insertion order, each holding exactly that value's members, and the remainder is the catch-all |
| KongGrouper.DrainedAll | kong/grouper.py:46-59 | once every member is visited, the entries are the hit values' members and the remainder is the catch-all |
| KongGrouper.Promote | kong/grouper.py:46-61 | the promoted groups, in insertion order, and the leftover catch-all |
| KongGrouper.PlanOf | kong/grouper.py:82-91 | the settings the grouper reads, shaped as one API scope and one service scope |
| KongGrouper.ClaimedByFilter | kong/grouper.py:36-44 | when the values listed cover the group, they claim exactly the members with a value |
| KongGrouper.ScopedWithin | kong/grouper.py:81-129 | a resource type's groups and catch-all hold only known contexts |
| KongGrouper.ParentsWithin | kong/grouper.py:25-26 | the method split's parents hold only known contexts |
| KongGrouper.PartitionIfSound | kong/grouper.py:24-64 | under the soundness assumptions below the groups partition every context; with no empty index entry alone they are non-empty sets of known contexts |
| KongGrouper.IndexItemsLive | kong/kong_state.py:110-113 | the index loop only adds to entries, so from indices without an empty entry (the constructor's empty ones) it creates none |
| KongGrouper.NoneEmptyAppend | kong/grouper.py:57-63 | appending two lists of non-empty groups gives a list of non-empty groups |
| KongGrouper.SplitAllNoneEmpty | kong/grouper.py:31-44 | splitting parents, overlapping or not, yields only non-empty groups |
| KongGrouper.ScopedNoneEmpty | kong/grouper.py:81-129 | with no empty index entry, every distinct group of a resource type is non-empty, even when a named context has no ID |
| KongGrouper.SplitStageNoneEmpty | kong/grouper.py:31-59 | a splitting stage keeps every distinct group non-empty: split groups and promoted groups each have a member |
| KongGrouper.HttpNoneEmpty | kong/grouper.py:24-64 | the method split of non-empty parents yields non-empty groups within the known contexts |
| KongGrouper.ParentsNoneEmpty | kong/grouper.py:66-69 | with no empty index entry, the API and route groups are all non-empty |
| KongGrouper.GroupingNoneEmpty | kong/grouper.py:24-73 | with no empty index entry, every HTTP-method scoped group is a non-empty set of known contexts, even when a context has both an API and a service |
| KongGrouper.IdentityIndex | kong/grouper.py:85 | an exact identity index is the grouper's view of its descriptor |
| KongGrouper.StateIndexes | kong/grouper.py:85 | a valid state's six indices are exact |
| KongGrouper.EveryDim | kong/grouper.py:85 | every grouping descriptor has an index |
| KongGrouper.ConfigAgrees | kong/grouper.py:82-90 | a valid configuration's lists hold the filters the grouper uses |
| KongGrouper.ScopeStage | kong/grouper.py:81-129 | `_get_api_or_service_scoped_groups` is the scoped groups and catch-all of the order the run picked |
| KongGrouper.RouteStage | kong/grouper.py:131-168 | the service groups, split by route when route reporting is on |
| KongGrouper.ApiAndRouteStage | kong/grouper.py:66-69 | the API groups followed by the route groups, and the union of the catch-alls |
| KongGrouper.MethodStage | kong/grouper.py:24-64 | the unscoped contexts join the remainder, then the split by method, as the grouping function states |
| KongGrouper.SplitStage | kong/grouper.py:31-63 | each distinct parent split, then the hit-valued members of the catch-all promoted, in that order; with the stage off the parents pass through unchanged |
| KongGrouper.IdScoped | kong/grouper.py:93-117 | the ID-reporting branch: hit IDs in order, split by name when names are reported, and the missed IDs' entries indistinct |
| KongGrouper.NameScoped | kong/grouper.py:121-128 | the names-only branch: the hit names' entries, and the unnamed or missed contexts that have an ID |
| KongGrouper.Grouper.constructor | kong/grouper.py:20-22 | the grouper keeps the state and the configuration |
| KongGrouper.Grouper.UnscopedGroup | kong/grouper.py:71-73 | the contexts with neither an API ID nor a service ID |
| KongGrouper.Grouper.ApiOrServiceScopedGroups | kong/grouper.py:75-79 | the scoped groups of the API or the service scope |
| KongGrouper.Grouper.RouteScopedGroups | kong/grouper.py:131-168 | the route groups of the service scope |
| KongGrouper.Grouper.ApiAndRouteScopedGroups | kong/grouper.py:66-69 | the API and the route groups, joined |
| KongGrouper.Grouper.HttpMethodScopedGroups | kong/grouper.py:24-64 | the groups in their fixed order (each parent's method groups, its catch-all, the promoted groups, the remainder last); non-empty sets of known contexts when no index entry is empty, and a partition of every context under the soundness assumptions |
| KongReporter.MetricArgs | kong/reporter.py:177-182 | the type instance, type and value, plugin `kong`, the dimensions, and the host exactly when a non-empty one is configured |
| KongReporter.Pick | kong/reporter.py:166 | `next(iter(group))` is some member of the group |
| KongReporter.SetSumRemove | kong/reporter.py:104-105 | any member's counter can be added first |
| KongReporter.SetSumAdd | kong/reporter.py:104-105 | adding one more member adds its counter |
| KongReporter.SetSumUnion | kong/reporter.py:104-105 | the sum over a disjoint union is the sum of the sums |
| KongReporter.CounterWeights | kong/reporter.py:105 | every context contributes its counter |
| KongReporter.GroupTotals | kong/reporter.py:102-105 | the totals of disjoint groups add up to the total of their union |
| KongReporter.TokensDiffer | kong/reporter.py:158-163 | the six dimensions have different names |
| KongReporter.OverlayMeaning | kong/reporter.py:155-175 | the dimensions are the extra dimensions, overridden exactly by each reported, non-None, passing descriptor of the representative with its value |
| KongReporter.Classify | kong/reporter.py:124-128 | a hit is filed under itself; with status-code groups on a non-hit goes under its class `Nxx`, otherwise under `miss` |
| KongReporter.BucketIsClassify | kong/reporter.py:123-128 | filing against the exact hits and misses of the codes is that classification |
| KongReporter.StatusDims | kong/reporter.py:134-138 | a `miss` bucket carries no `status_code`, every other bucket carries its name as `status_code`, and the other dimensions are kept |
| KongReporter.StatusDimsOverwrite | kong/reporter.py:133-138 | each bucket's copy of the previous one's dimensions leaks nothing of it |
| KongReporter.HttpBlock | kong/reporter.py:99-110 | one metric per group |
| KongReporter.HttpBlockTotal | kong/reporter.py:99-110 | over groups partitioning the contexts, the metrics add up to the metric over every context: none is counted twice or lost |
| KongReporter.BlockValues | kong/reporter.py:102-109 | the metrics' values add up to the groups' totals |
| KongReporter.HttpBlockPrefix | kong/reporter.py:102-109 | dropping the last group drops the last metric, which holds that group's total |
| KongReporter.SumGroup | kong/reporter.py:103-105 | the value is the sum of the counter over the group's members |
| KongReporter.KnobHolds | kong/reporter.py:158-163 | each dimension's lists are the ones its filter names |
| KongReporter.ShowDimension | kong/reporter.py:167-173 | a descriptor is added with the representative's value exactly when it is reported, non-None and passes its lists |
| KongReporter.GroupDimensions | kong/reporter.py:155-175 | the dimensions of some member of the group, over the extra dimensions |
| KongReporter.HttpBlockNext | kong/reporter.py:102-109 | one more group adds its metric, holding its total, at the end |
| KongReporter.HttpScopeMetrics | kong/reporter.py:99-110 | one metric per group in group order, each holding the group's total and its representative's dimensions |
| KongReporter.FilterCodes | kong/reporter.py:145-153 | the exact hits and misses among the codes; the caches only grow and stay sound, so a code's classification never changes; the lists are consulted only when some code is uncached |
| KongReporter.CodeWeights | kong/reporter.py:129-130 | one value per code of the statuses dict |
| KongReporter.Filed | kong/reporter.py:124-128 | the codes filed under a bucket are among the codes |
| KongReporter.NamedOf | kong/reporter.py:122 | each context reaching the status split has decoded statuses with named codes |
| KongReporter.BucketWeights | kong/reporter.py:121-130 | every context contributes its bucket value |
| KongReporter.StatusBlock | kong/reporter.py:133-141 | one metric per bucket of the group |
| KongReporter.AddValues | kong/reporter.py:129-130 | the bucket gains each value (absent ones count 0), other buckets are unchanged, and a bucket is created exactly when values reach it |
| KongReporter.FiledAdd | kong/reporter.py:124-130 | filing one more code adds its value to its own bucket, and creates that bucket when it has values |
| KongReporter.FiledSoFarNext | kong/reporter.py:124-130 | the bucket totals grow one code at a time |
| KongReporter.FileCodes | kong/reporter.py:124-130 | each bucket gains the context's values of the codes filed under it |
| KongReporter.GroupBucketAdd | kong/reporter.py:121-130 | the buckets created grow one context at a time |
| KongReporter.TallyGroup | kong/reporter.py:119-130 | each bucket's value is the sum over the members and their codes filed under it; each created bucket is listed once |
| KongReporter.EmitBuckets | kong/reporter.py:133-141 | one metric per bucket in creation order, with the bucket's value and dimensions |
| KongReporter.StatusGroup | kong/reporter.py:119-141 | one group's status block, over a representative's dimensions |
| KongReporter.StatusMetricsNext | kong/reporter.py:119-141 | one more group adds its status block at the end |
| KongReporter.BucketsOrderedNext | kong/reporter.py:119-141 | each group's bucket order lists its buckets once |
| KongReporter.StatusScopeMetrics | kong/reporter.py:112-143 | each group's buckets in turn, each bucket's metric holding the group's sum for it, with the caches grown and sound |
| KongReporter.FlatMetric | kong/reporter.py:190-195 | the store's value with the extra dimensions, or the `KeyError` when the metric is missing |
| KongReporter.FlatMetrics | kong/reporter.py:81-87 | one flat metric per name in order, or the `KeyError` when some name is missing from the store |
| KongReporter.FlatReport | kong/reporter.py:79-87 | the enabled names in turn, stopping at the first one missing from its store |
| KongReporter.Enabled | kong/reporter.py:64-65 | the enabled names of a family, in order |
| KongReporter.FamiliesPartition | kong/reporter.py:61-87 | every metric belongs to exactly one family: the latencies are always HTTP-method scoped, the other four per group or per status code depending on `will_report_status_codes`, and the rest are instance-wide |
| KongReporter.Assemble | kong/reporter.py:60-88 | the report is the HTTP part, the status part, then the server and database metrics, or none when one of these raised |
| KongReporter.HttpPartNext | kong/reporter.py:64-68 | one more HTTP-family metric adds its block at the end |
| KongReporter.StatusPartNext | kong/reporter.py:73-77 | one more status-family metric adds its block at the end |
| KongReporter.FlatMetricsNext | kong/reporter.py:81-83 | one more flat metric adds itself at the end |
| KongReporter.EnabledNext | kong/reporter.py:64-65 | the selection grows one name at a time |
| KongReporter.HttpSoFarNext | kong/reporter.py:64-68 | the HTTP part grows one enabled metric at a time |
| KongReporter.EnabledPrefix | kong/reporter.py:73-74 | a metric enabled among the first names is enabled among all |
| KongReporter.StatusSoFarNext | kong/reporter.py:73-77 | the status part grows one enabled metric at a time |
| KongReporter.HttpMethodScopeReport | kong/reporter.py:61-68 | the blocks of the enabled metrics of the family, in order |
| KongReporter.StatusCodeScopeReport | kong/reporter.py:70-77 | the status blocks of the enabled metrics of the family, in order, with the caches grown and sound |
| KongReporter.StatusCodeScopeStep | kong/reporter.py:73-77 | one metric of the status loop |
| KongReporter.Report | kong/reporter.py:60-88 | the metrics of one report, as the report predicate assembles them |
| KongReporter.Regroup | kong/reporter.py:95-97 | a fresh grouper's HTTP-method scoped groups: non-empty when no index entry is empty, a partition of the contexts under the soundness assumptions |
| KongReporter.Round | kong/reporter.py:50-88 | one read on a fetched snapshot: the grouper's groups (non-empty, and a partition of the contexts under the soundness assumptions), the report they give and the grown caches |
| KongReporter.Reporter.constructor | kong/reporter.py:34-39 | no snapshot, no groups and empty caches |
| KongReporter.Reporter.Lists | kong/reporter.py:158-163 | the configuration's lists hold the filters the reporter uses |
| KongReporter.Reporter.UpdateHttpMethodScopeGroups | kong/reporter.py:95-97 | the field holds the grouper's groups for the current snapshot, a partition of its contexts under the soundness assumptions |
| KongReporter.Reporter.SetGroups | kong/reporter.py:97 | the field holds the given groups |
| KongReporter.Reporter.CalculateHttpMethodScopeMetrics | kong/reporter.py:99-110 | one metric per current group, holding its total |
| KongReporter.Reporter.CalculateStatusCodeScopeMetrics | kong/reporter.py:112-143 | one metric per bucket of each current group, the caches grown and sound |
| KongReporter.Reporter.SetCaches | kong/reporter.py:150-151 | the caches hold the given sets |
| KongReporter.Reporter.FilterStatusCodesByPatternLists | kong/reporter.py:145-153 | the exact hits and misses among the codes; the caches only grow and are unchanged when every code is cached |
| KongReporter.Reporter.DimensionsFromHttpMethodGroup | kong/reporter.py:155-175 | the dimensions of some member of the group |
| KongReporter.Reporter.UpdateAndReport | kong/reporter.py:50-88 | the snapshot is installed, and the groups, the report and the caches are the outcome of one read: the report is the HTTP part, the status part and the flat parts, or none on a missing instance-wide value, and the groups partition the contexts under the soundness assumptions |
| KongReporter.Reporter.Install | kong/reporter.py:52-58 | the fields hold the given snapshot, groups and caches |

Soundness assumptions for the partition (KongGrouper.Sound): no context has
both an API ID and a service ID, no index entry is empty, and a context with
an API or service name also has a matching ID. The third is the source's own
comment at kong/grouper.py:119, in the names-only branch ("all owners will
have an ID"). The first two describe the snapshots Kong's signalfx plugin
serves: a request is routed either by an API or by a service, and an index
entry exists only because some context added itself to it. Without them the source still runs, and can report a
context in two groups; the model states those runs too. The reporter only
needs the groups to be non-empty (`next(iter(group))`), and that follows from
"no index entry is empty" (KongGrouper.IndicesLive) alone, which
KongGrouper.IndexItemsLive shows the index loop preserves.

## Left out

- The network fetch and TLS (`get_sfx_view`, `requests.get`, `.json()`) are
  I/O. KongState.KongState.UpdateFromSfx takes the decoded snapshot's three
  sections as parameters: the `signalfx` entries as a sequence of pairs, plus
  the server and database dictionaries. A snapshot missing one of those keys
  (a `KeyError`) is not modelled.
- KongReporter.Round and KongReporter.Reporter.UpdateAndReport start from a
  KongState that the three updates have already filled without an exception.
  The read in which decoding raises is left out. There
  kong/reporter.py:51-55 has already installed the fresh, partly filled
  state, emits nothing, does not regroup, and keeps the old groups and caches.
- Timing, logging and the `verbose` branches are diagnostics only.
  collectd registration (`load_config_and_register_read`), `emit_metrics`,
  the collectdutil `Metric` class and kong_plugin.py are host plumbing. A
  report is the sequence of Metric values that would be emitted.
- The collectdutil `Config` base class is a foreign library. Its parsed
  attributes arrive as a Settings value. `Config.__str__` and
  `PatternList.__str__` are not modelled.
- md5 is the constructor `Md5Of`, which is injective by construction. Real
  md5 collisions are not modelled.
- fnmatch: a reversed range such as `[z-a]` is an empty class here. Python
  raises `re.error` on it when compiling.
- JSON values read by `int()` in the server and database sections are
  integers, finite floats (by their truncation toward zero), booleans,
  strings, null, arrays and objects (the last three raise `TypeError`).
  `NaN` and `Infinity`, which Python's JSON reader accepts and on which
  `int()` raises `ValueError` and `OverflowError`, are not modelled.
- Configuration scalars are strings, floats and booleans. A float, which is
  what collectd delivers for a number, is known by its `int()` truncation and
  its `str()` text. `text_type` is modelled on these three kinds only.
- The defaultdict side effect where a read inserts an empty key (for example
  kong/grouper.py:73 and 125) is left out. Such reads are lookups that
  default to the empty set.
- `PatternList`'s `match_cache` and `miss_cache` are never filled by the
  source. The model keeps them as fields that stay empty (`Valid`).
- Text.ParseInt: reads as `None` some strings Python's `int()` accepts: `_`
  between digits, non-ASCII digits and whitespace other than the six ASCII
  spaces, tabs and line breaks. Counters and versions the Kong side writes
  are plain decimal integers.
- KongGrouper.Grouper.HttpMethodScopedGroups: `re.match(None)` raises when an
  HTTP method or a route ID inside a distinct parent is None
  (kong/grouper.py:35-36, 139-141). That crash is replaced by preconditions:
  `MethodsKnown` and `RoutedServices`.
- KongReporter.Reporter.UpdateAndReport:
  - Several crashes are replaced by preconditions:
    - a missing descriptor or counter (`Complete`, `Counted`);
    - undecoded statuses (`Fileable`);
    - an empty status code under status-code groups (`CodesNamed`), where
      `code[0]` raises. The precondition also excludes an empty code that
      the status-code whitelist passes (for example with `*`), which the
      source files under bucket `""` without raising;
    - an empty group, where `next(iter(group))` raises. This is excluded by
      requiring that no identity index has an empty entry (`IndicesLive`).
      KongGrouper.IndexItemsLive proves that each `load_resource_context`
      keeps this, but it is not carried as an invariant of the KongState
      class.
  - The report is computed by module-level methods over the fields' values,
    which the class method then installs.
- KongReporter.GroupDimensions: the dimensions are those of some member of
  the group, as `next(iter(group))` picks it. Members of one group need not
  give the same reported dimensions, whatever the comment at
  kong/reporter.py:164 says: with API IDs whitelisted as `a` and API names
  and HTTP methods reported, two GET contexts with APIs `b` (name `nb`) and
  `c` (name `nc`) both miss on the ID, are promoted into one method group,
  and the reported `api_name` is `nb` or `nc` depending on the set's
  iteration order. The model states which member's dimensions are used and
  nothing more.
- KongState.KongState.UpdateResourceMetrics requires the `signalfx` keys to be
  distinct (`DistinctContexts`), as JSON object keys are.
- KongState: a context string with too few fields decodes truncated, as
  `zip` does. The grouper and the reporter require complete records.
