# collection_query: a Dafny model of the OGC API Features query pipeline

This project models how the arpaapi geospatial service answers
`collections/{collectionId}/{query}` requests. The model covers:

- locating the collection by model name;
- choosing the output format (`?f=` or Accept-header negotiation);
- building the self, collection and alternate links;
- for the `items` kind:
  - checking the query parameters against the collection's filter fields;
  - parsing `limit` and `offset`;
  - turning `bbox`, `datetime` and the per-field operator filters into store lookups;
  - filtering the collection's records;
  - applying the one-million element cap;
  - paginating, adding next/prev links and picking a serializer by format;
- for the `locations` kind: filtering by one location id;
- the fixed rejection of every other query kind.

It also models `map_columns`, the CSV column-name table.

The helpers of `arpaapi/geoapi/utils.py` are each modelled in their own module:

- `pystr.dfy`: the Python `str` built-ins they rely on.
- `formats.dfy`: `get_format` and `content_type_from_format`.
- `query_string.dfy`: `replace_or_create_param`, `replace_param` and the path split of `deconstruct_url`.
- `interval.dfy`: `process_datetime_interval`.
- `store.dfy`: `filter`, `filter_datetime`, `filter_bbox` and `paginate`.
- `columns.dfy`: `map_columns`.

The view is modelled in two modules:

- `request_params.dfy`: the `request.GET` reads, the accepted-parameter list and `filtering_params`.
- `collection_query.dfy`: the handler.

`properties.dfy` states what the handler promises.

The record store is a sequence of records. A Django lookup such as
`province__in` with its argument is a `Lookup`. Whether a record satisfies a
lookup is a parameter `holds` of the model, and a list of lookups is ANDed.
The model of each imperative part is a method:

- `GetFormat`
- `ReplaceOrCreateParam` and `ReplaceParam`
- `BuildAcceptedParameters`, `FindUnknown`, `BuildFilteringParams` and `ApplyFieldFilters`
- `BuildHeaderLinks` and `BuildPageLinks`
- `ItemsBranch`, `LocationsBranch` and `HandleCollectionQuery`

Each method is proved equal to a function. Those functions carry the properties.

An uncaught Python exception becomes a 500 response carrying its cause, as
Django answers it. The handler reproduces four behaviours of the code as written:

- **Undefined `utils.F_CSV`.** `utils.F_CSV` does not exist. In the items
  kind, any format other than geojson or json is therefore a 500. This
  includes the advertised html format and the None that negotiation can
  return.
- **Missing `&` when appending.** `replace_or_create_param` puts an `&` before
  a new parameter only when the string already holds one. The next link of a
  bare items request is `?limit=100offset=100`. Following it is answered
  "Error in limit parameter".
- **Negative limits.** Only `limit=-1` is rewritten. Other negative limits
  reach the queryset slice. A negative stop raises, and a stop below the start
  gives an empty page.
- **Locations keeps `limit` and `offset` as strings.** Any `offset` makes
  `paginate`'s comparison raise.

Two more facts of the code shape the model:

- **Unreachable format branches in `items`.** The branches at
  collection_query.py:251-263 are never reached, because the `utils.F_CSV`
  test before them raises. They answer 400 "not yet supported" for CSV and
  other formats, and render HTML capped at 100 records.
- **Negotiation can yield None.** `get_format` returns None when there is no
  `f` and no Accept header, or when nothing in the header matches.

## Model

| member | source | states |
|---|---|---|
| PyStr.Split | arpaapi/geoapi/utils.py:336 | `str.split(sep)`: at least one piece, and no piece holds the separator |
| PyStr.JoinSplit | arpaapi/geoapi/utils.py:356-366 | `sep.join(s.split(sep)) == s` |
| PyStr.SplitJoin | arpaapi/geoapi/utils.py:356-366 | splitting a join of separator-free pieces gives the pieces back |
| PyStr.SplitConcat | arpaapi/geoapi/utils.py:162 | the pieces of `a + sep + b` are the pieces of `a` followed by those of `b` |
| PyStr.SplitCountsSeparator | arpaapi/geoapi/utils.py:292-296 | the string holds the separator iff it splits into two or more pieces |
| PyStr.Replace | arpaapi/geoapi/utils.py:127 | `str.replace` of a character: the target is gone when the replacement lacks it, and a string without it is unchanged |
| PyStr.ReplaceIsSplitJoin | arpaapi/geoapi/utils.py:127 | `s.replace(c, r) == r.join(s.split(c))` |
| PyStr.TrimStart | arpaapi/geoapi/utils.py:287 | removes exactly the leading whitespace |
| PyStr.TrimEnd | arpaapi/geoapi/utils.py:287 | removes exactly the trailing whitespace |
| PyStr.StripUnspaced | arpaapi/geoapi/utils.py:287 | `strip()` leaves a string without surrounding whitespace unchanged |
| PyStr.ToUpper | arpaapi/geoapi/views/collection_query.py:56 | `upper()` keeps the length and upper-cases each ASCII letter |
| PyStr.IntToString | arpaapi/geoapi/views/collection_query.py:198-199 | `str(n)` is non-empty with no surrounding space and holds no `&`, `=` or `,` |
| PyStr.ParseInt | arpaapi/geoapi/views/collection_query.py:120 | `int(s)` succeeds only on a string that is not blank once stripped |
| PyStr.ParseIntCharacters | arpaapi/geoapi/views/collection_query.py:120 | text `int()` accepts holds only whitespace, digits, underscores and signs |
| PyStr.IntToStringRoundTrip | arpaapi/geoapi/views/collection_query.py:198-199 | `int(str(n)) == n` |
| Formats.ReverseInvertsTypes | arpaapi/geoapi/utils.py:20-35 | `FORMAT_TYPES` and `FORMAT_TYPES_REVERSE` are each other's inverse |
| Formats.ContentTypeFromFormat | arpaapi/geoapi/utils.py:240-244 | a known format gives its MIME type; anything else gives the token "json" |
| Formats.QualityDefaults | arpaapi/geoapi/utils.py:292-296 | an entry with no `;`, two or more `;`, or a parameter without `q` has quality 1.0 |
| Formats.BestIndex | arpaapi/geoapi/utils.py:304-314 | reference winner: a matching entry of highest quality, earliest among equals; None iff nothing matches |
| Formats.Insert | arpaapi/geoapi/utils.py:305 | insertion step keeps the entries (same multiset, one longer) |
| Formats.SortDescending | arpaapi/geoapi/utils.py:305 | the sort orders by quality descending and is a permutation |
| Formats.SortStable | arpaapi/geoapi/utils.py:305 | the sort is stable: equal qualities keep header order |
| Formats.FirstMatch | arpaapi/geoapi/utils.py:307-314 | the first-match scan returns a matching candidate of the list, and none only if none matches |
| Formats.SortedFirstMatchIsBest | arpaapi/geoapi/utils.py:304-314 | scanning the sorted header finds exactly the reference winner |
| Formats.AcceptedTypes | arpaapi/geoapi/utils.py:273 | the MIME type of each accepted format, which `FORMAT_TYPES_REVERSE` maps back to that format |
| Formats.Chosen | arpaapi/geoapi/utils.py:309-314 | a matched MIME type maps back to its format and the wildcard to the first accepted format; always an accepted format |
| Formats.Negotiate | arpaapi/geoapi/utils.py:276-322 | `f` wins verbatim; no `f` and no header gives None; a quality that fails to parse falls back to the first accepted format; otherwise any result is an accepted format |
| Formats.ReadCandidates | arpaapi/geoapi/utils.py:287-302 | the numbering loop yields the parsed candidates, or None where a quality parse raises |
| Formats.ScanSorted | arpaapi/geoapi/utils.py:307-314 | the breaking scan returns the format of the first match |
| Formats.GetFormat | arpaapi/geoapi/utils.py:246-322 | `get_format` equals `Negotiate` |
| QueryString.ReplaceOrCreateParam | arpaapi/geoapi/utils.py:344-372 | the loop computes `Upsert`: every segment named `p` edited, else `p=r` appended after `&` only when the string has one; None where a segment named `p` has no `=` |
| QueryString.ReplaceParam | arpaapi/geoapi/utils.py:374-396 | the loop computes `ReplaceOnly`, the same edit without the append |
| QueryString.ReplaceOnly | arpaapi/geoapi/utils.py:374-396 | when the parameter is present it agrees with `replace_or_create_param` |
| QueryString.EditSegmentMeaning | arpaapi/geoapi/utils.py:355-364 | other segments are unchanged; a named segment fails iff it lacks `=`, else its value becomes the replacement |
| QueryString.EditAllAbsent | arpaapi/geoapi/utils.py:355-364 | with no segment named `p` every segment is kept |
| QueryString.EditedValues | arpaapi/geoapi/utils.py:355-366 | after an edit, `p` reads as its old value with the text before that value's first `=` replaced, and every other key reads as before |
| QueryString.ValueInPresent | arpaapi/geoapi/utils.py:344-372 | a parameter string yields a value for a key iff some segment carries that name |
| QueryString.ReplaceFirstPieceMeaning | arpaapi/geoapi/utils.py:355-364 | the edited value is the replacement followed by the old value from its first `=` on: the replacement alone when the old value has no `=` |
| QueryString.EditedSegmentValue | arpaapi/geoapi/utils.py:358-364 | an edited segment's value is its old value with the first piece replaced |
| QueryString.AppendedValue | arpaapi/geoapi/utils.py:368-370 | an appended `p=r` segment reads back `r` and leaves other keys alone |
| QueryString.UpsertEmpty | arpaapi/geoapi/utils.py:344-372 | `""` gives `"p=r"` |
| QueryString.UpsertAppends | arpaapi/geoapi/utils.py:368-370 | an absent parameter is appended with `&` only if the string already has one |
| QueryString.UpsertGlues | arpaapi/geoapi/utils.py:368-370 | a one-segment string gets `p=r` glued on with no separator, and `p` cannot be read back |
| QueryString.UpsertGluesExample | arpaapi/geoapi/utils.py:368-370 | `"a=1"` becomes `"a=1p=r"` |
| QueryString.UpsertReads | arpaapi/geoapi/utils.py:344-372 | on an empty string, a string with `&`, or one already holding `p`, the result reads `p` as the replacement (for an existing `p`, its old value with the text before the first `=` replaced) and every other key as before |
| QueryString.ReplaceOnlyAbsent | arpaapi/geoapi/utils.py:374-396 | with no segment named `p` the string comes back unchanged |
| QueryString.ReplaceOnlyKeepsSegments | arpaapi/geoapi/utils.py:374-396 | the number of `&`-segments never changes |
| QueryString.DeconstructPath | arpaapi/geoapi/utils.py:336-340 | path and params hold no `?` |
| QueryString.DeconstructPathRestores | arpaapi/geoapi/utils.py:336-340 | path + params is the full path with every `?` removed; with exactly one `?`, the full path is path + `?` + params; without a `?`, the path is the full path and params is empty |
| Interval.ProcessDatetimeInterval | arpaapi/geoapi/utils.py:160-177 | a present start is the parse of the first piece, a present end the parse of the second |
| Interval.SingleInstant | arpaapi/geoapi/utils.py:160-177 | a string with no `/` gives (its parse, None) |
| Interval.TwoSided | arpaapi/geoapi/utils.py:165-173 | `A/B`, `../B`, `A/..`: each side read on its own, `..` as None |
| Interval.StartFails | arpaapi/geoapi/utils.py:164-175 | an unparsable start gives (None, None) whatever follows |
| Interval.IgnoresTail | arpaapi/geoapi/utils.py:162-173 | pieces after the second `/` are ignored |
| Store.Filter | arpaapi/geoapi/utils.py:82-88 | keeps exactly the records meeting every lookup, never more records than given |
| Store.FilterNothing | arpaapi/geoapi/utils.py:82-84 | an empty lookup dictionary keeps every record |
| Store.FilterCompose | arpaapi/geoapi/views/collection_query.py:161-175 | successive filters are one filter by all their lookups |
| Store.FilterDatetime | arpaapi/geoapi/utils.py:111-117 | `{field}__gte` exactly when there is a start and `{field}__lte` exactly when there is an end |
| Store.FilterDatetimeUnbounded | arpaapi/geoapi/utils.py:111-117 | with neither bound nothing is filtered |
| Store.FilterBbox | arpaapi/geoapi/utils.py:119-132 | no lookup without a geometry filter field; else the single key `{path}__within` with every `.` turned into `__` |
| Store.Paginate | arpaapi/geoapi/utils.py:90-109 | `numberMatched` is the count; the page is the slice at the clamped offset, of length min(limit, n−o) or n−o without limit, with `numberReturned` its length; None iff the slice has a negative bound |
| Store.PaginateConsecutive | arpaapi/geoapi/views/collection_query.py:193-204 | the page at `offset + limit` continues the page at `offset` |
| Columns.MapColumns | arpaapi/geoapi/utils.py:180-219 | intended mapping: a name is mapped iff the table lists it, to its listed field |
| Columns.MapColumnsInjective | arpaapi/geoapi/utils.py:180-219 | intended mapping: no two names map to the same field |
| Columns.AsWrittenAgreesOnlyOnFirstTwo | arpaapi/geoapi/utils.py:180-219 | as written, only `IdSensore` and `NomeTipoSensore` map as intended; every other name gives `sensor_type` |
| Columns.ValoreMisread | arpaapi/geoapi/utils.py:217-218 | `Valore` gives `sensor_type` as written, `value` as intended |
| RequestParams.Get | arpaapi/geoapi/views/collection_query.py:112-128 | `request.GET.get` finds a value iff the key occurs, and the value is the last one given for it |
| RequestParams.AcceptedParametersMeaning | arpaapi/geoapi/views/collection_query.py:95-105 | a name is accepted iff it is common or a filter field with one of the seven suffixes |
| RequestParams.BuildAcceptedParameters | arpaapi/geoapi/views/collection_query.py:95-105 | the nested loops build `accepted_parameters` |
| RequestParams.FirstUnknown | arpaapi/geoapi/views/collection_query.py:108-110 | None iff every key is accepted; else the first unaccepted key |
| RequestParams.FindUnknown | arpaapi/geoapi/views/collection_query.py:108-110 | the early-return loop finds `FirstUnknown` |
| RequestParams.DictSet | arpaapi/geoapi/views/collection_query.py:139-147 | dictionary assignment adds at most one entry, keeps every entry of another key, and holds the new pair |
| RequestParams.DictSetGet | arpaapi/geoapi/views/collection_query.py:139-147 | after `d[k] = v`, `d[k]` is `v` and other keys are untouched |
| RequestParams.DictSetTwice | arpaapi/geoapi/views/collection_query.py:143-147 | assigning a key twice is assigning the last value |
| RequestParams.DictSetDistinct | arpaapi/geoapi/views/collection_query.py:139-147 | assigning a key keeps the dictionary's keys distinct |
| RequestParams.FilterValue | arpaapi/geoapi/views/collection_query.py:139-147 | `__in` values are stripped and cut into comma-free pieces that rejoin to the stripped text; only other operators turn "true"/"false" into booleans |
| RequestParams.FilteringParamsMeaning | arpaapi/geoapi/views/collection_query.py:130-147 | `filtering_params` has distinct names, each a field-with-suffix the request carries with its stored value, and every such one is present |
| RequestParams.StoreFilterValue | arpaapi/geoapi/views/collection_query.py:139-147 | the three successive stores amount to one store of `FilterValue` |
| RequestParams.StoreFieldFilters | arpaapi/geoapi/views/collection_query.py:134-147 | the inner loop folds the field's stores into the dictionary |
| RequestParams.BuildFilteringParams | arpaapi/geoapi/views/collection_query.py:130-147 | the nested loops build `FilteringParams` |
| RequestParams.ApplyFieldFilters | arpaapi/geoapi/views/collection_query.py:173-175 | the loop of filters is one filter by all stored lookups |
| CollectionQuery.Matching | arpaapi/geoapi/views/collection_query.py:25 | exactly the catalogue entries of that model name |
| CollectionQuery.IntParamReads | arpaapi/geoapi/views/collection_query.py:118-128 | a missing parameter takes its default, a printed integer reads back as itself, and text holding `=` or `&` is refused |
| CollectionQuery.Render | arpaapi/geoapi/views/collection_query.py:222-263 | 200 iff the format is geojson or json, else 500 (never 400) |
| CollectionQuery.ItemsPage | arpaapi/geoapi/views/collection_query.py:177-263 | 400 iff limit > 1000000 and the filtered count > 1000000, and then the message is "Too many elements" |
| CollectionQuery.ItemsQuery | arpaapi/geoapi/views/collection_query.py:77-263 | every answer is a 200 carrying data, a 400 carrying a message or a 500 carrying a crash |
| CollectionQuery.LocationsRender | arpaapi/geoapi/views/collection_query.py:300-330 | the locations format switch never crashes |
| CollectionQuery.LocationsQuery | arpaapi/geoapi/views/collection_query.py:265-330 | every answer is a 200 carrying data, a 400 carrying a message or a 500 carrying a crash |
| CollectionQuery.FixedAnswer | arpaapi/geoapi/views/collection_query.py:59-75 | position, radius, area, cube, trajectory, corridor (and, further down, instances and any other kind) answer 400 with a message |
| CollectionQuery.LocationsPageOf | arpaapi/geoapi/views/collection_query.py:287-330 | the page step of the locations kind answers a 200 carrying data, a 400 carrying a message or a 500 carrying a crash |
| CollectionQuery.Resolve | arpaapi/geoapi/views/collection_query.py:23-336 | every answer is a 200 carrying data, a 400 carrying a message or a 500 carrying a crash |
| CollectionQuery.BuildHeaderLinks | arpaapi/geoapi/views/collection_query.py:36-57 | the appended self, collection and alternate links equal `HeaderLinks` |
| CollectionQuery.BuildPageLink | arpaapi/geoapi/views/collection_query.py:195-203 | a page link: `limit` then `offset` replaced or appended |
| CollectionQuery.BuildPageLinks | arpaapi/geoapi/views/collection_query.py:193-217 | the next and prev links equal `PageLinks` |
| CollectionQuery.PageResponse | arpaapi/geoapi/views/collection_query.py:177-263 | cap, pagination, links and format switch equal `ItemsPage` |
| CollectionQuery.DispatchQuery | arpaapi/geoapi/views/collection_query.py:59-77 | the chain of tests on the query kind equals `Dispatch` |
| CollectionQuery.ItemsBranch | arpaapi/geoapi/views/collection_query.py:77-263 | the items branch equals `ItemsQuery` |
| CollectionQuery.LocationsBranch | arpaapi/geoapi/views/collection_query.py:265-330 | the locations branch equals `LocationsQuery` |
| CollectionQuery.HandleCollectionQuery | arpaapi/geoapi/views/collection_query.py:23-336 | the view equals `Resolve` |
| QueryProperties.UnknownParameterFirst | arpaapi/geoapi/views/collection_query.py:107-110 | the first unaccepted key gives 400 "Unknown Parameter: key", before limit, offset, bbox or filters are read |
| QueryProperties.LimitOffsetErrors | arpaapi/geoapi/views/collection_query.py:118-128 | a bad limit gives "Error in limit parameter", then a bad offset "Error in offset parameter"; defaults 100 and 0 |
| QueryProperties.MalformedBbox | arpaapi/geoapi/views/collection_query.py:151-159 | "malformed bbox parameter" iff the bbox is not 4 or 6 parts or a part is not a float |
| QueryProperties.BboxLookupsFail | arpaapi/geoapi/views/collection_query.py:151-161 | the bbox lookups fail iff the arity or a float parse fails |
| QueryProperties.ValidatedItems | arpaapi/geoapi/views/collection_query.py:149-190 | past validation the items kind is the bbox check then the page of the filtered records |
| QueryProperties.ItemsPageServed | arpaapi/geoapi/views/collection_query.py:177-247 | a 200 page is the slice at the clamped offset, min(limit, n−o) long (−1 read as 1000000), empty for other negative limits, `numberMatched` the filtered count, header links first |
| QueryProperties.ItemsOkChecks | arpaapi/geoapi/views/collection_query.py:107-161 | a 200 means all names accepted, limit, offset and bbox well formed, format geojson or json |
| QueryProperties.ItemsServed | arpaapi/geoapi/views/collection_query.py:149-190 | every served record is in the collection and meets every bbox, datetime and field lookup |
| QueryProperties.PageServesAdmitted | arpaapi/geoapi/views/collection_query.py:177-247 | the page step serves only admitted records |
| QueryProperties.ItemsPassedChecks | arpaapi/geoapi/views/collection_query.py:107-128 | a 200 passed the name check and the limit/offset parse |
| QueryProperties.MinusOneMeansMax | arpaapi/geoapi/views/collection_query.py:178-183 | `limit=-1` answers as 1000000 and never trips the cap |
| QueryProperties.PageLinksPresence | arpaapi/geoapi/views/collection_query.py:193-217 | a next link iff limit + offset ≤ numberMatched, a prev link iff offset − limit ≥ 0, carrying offsets limit + offset and offset − limit |
| QueryProperties.PageParamsReadBack | arpaapi/geoapi/views/collection_query.py:197-212 | with an `&` in the request's parameters, a page link reads `limit` and `offset` as the new numbers put in place of the request's own values, keeps all other parameters, and parses to the link's limit and offset when the request's own ones were absent or integers |
| QueryProperties.PageValueParses | arpaapi/geoapi/views/collection_query.py:197-212 | a link's `limit` or `offset` parses to the link's number when the request's own value was absent or an integer; a request value holding `=` leaves it unparsable |
| QueryProperties.BarePageParamsGlue | arpaapi/geoapi/views/collection_query.py:197-200 | with no parameters the link is `limit=Loffset=O`, from which no offset can be read |
| QueryProperties.GluedLimitUnreadable | arpaapi/geoapi/views/collection_query.py:118-122 | that link's limit reads as "Loffset=O", which `int()` refuses |
| QueryProperties.ParseIntRefusesEquals | arpaapi/geoapi/views/collection_query.py:120 | `int()` refuses text holding `=` |
| QueryProperties.UpsertFailsAlike | arpaapi/geoapi/utils.py:355-364 | whether an edit raises does not depend on the replacement |
| QueryProperties.UpsertFails | arpaapi/geoapi/utils.py:355-364 | an edit raises iff a segment of that name has no `=` |
| QueryProperties.HeaderLinksFail | arpaapi/geoapi/views/collection_query.py:52-57 | the alternate links raise, for every format alike, iff the parameters hold an `f` segment without `=` |
| QueryProperties.ItemsOkFormat | arpaapi/geoapi/views/collection_query.py:222-263 | a 200 items answer was negotiated as geojson or json |
| QueryProperties.HtmlItemsNever200 | arpaapi/geoapi/views/collection_query.py:249 | `f=html` never gets a 200 items answer |
| QueryProperties.FixedKindsIgnoreParameters | arpaapi/geoapi/views/collection_query.py:59-75 | the unserved kinds look at no parameter: same path, same answer, never 200 |
| QueryProperties.LocationsWithoutId | arpaapi/geoapi/views/collection_query.py:278-280 | no `locationId` gives an empty 200 |
| QueryProperties.LocationsServed | arpaapi/geoapi/views/collection_query.py:282-295 | served locations records are the collection's records with that location id, fewer than 100000, and the request had no offset |
| QueryProperties.LocationsPage | arpaapi/geoapi/views/collection_query.py:282-295 | a non-empty locations answer is the first page of the location's records |
| QueryProperties.LocationsOffsetCrashes | arpaapi/geoapi/views/collection_query.py:275-292 | an `offset` with a location id crashes the locations kind |

## Left out

- Formats.GetFormat: requires a non-empty accepted list whose formats are all known. Otherwise the source raises KeyError at utils.py:273 or IndexError at 314; its only caller passes a fixed valid list.
- `float()` and `datetime.fromisoformat` are parameters of the model (`parseFloat`, `parseIso`): partial parsers returning None where Python raises. Qualities and coordinates are `real`, not IEEE doubles.
- The ORM is abstract. Each lookup's meaning on a record is the parameter `holds`, and `count()` and slicing are modelled on sequences. GEOS `Polygon.from_bbox` and `__within` containment are not modelled; a 6-value bbox is passed on as given. In the program `Polygon.from_bbox` unpacks exactly four values, so a 6-value bbox on a collection with a geometry filter field raises there (a 500), while the model can answer it with a 200.
- `request.GET` is the already URL-decoded list of pairs. Its decoding is not modelled, and neither is `iri_to_uri`, which leaves the ASCII `scheme://host` unchanged.
- CollectionQuery.Request: its `query` (the decoded `request.GET`) and its `fullPath` are independent fields. In the program `request.GET` is the parse of the part of the full path after `?`; the model does not tie the two, so lemmas that read one and edit the other hold for every pairing, including ones no real request produces.
- QueryString.ValueIn: reads a parameter string as Django does (the last segment with that name, everything after its first `=`), but without percent-decoding, `+` as space, or the skipping of empty segments; the lemmas about it only speak of non-empty keys.
- PyStr.ParseInt: does not accept non-ASCII Unicode digits or Python's integer-string length limit.
- PyStr.ToUpper: upper-cases ASCII letters only; other Unicode case mappings are not modelled.
- Serializers, `responses.*`, `LinkSchema` and HTML templates are not modelled. A 200 body records the serializer that would run and its inputs: records, counts, links, geometry field and fields.
- The query-kind constants of `geoapi.schemas` are not part of this model; the kinds are the datatype `QueryKind`.
- The `limit is None` branches (collection_query.py:186-188 and 289-290) are dead code, because `limit` is always an int or a string there.
- The locations kind reads `datetime`, `parameter-name` and `crs` (collection_query.py:268-273) but never uses them, so they are not modelled.
- The `print` logging is not modelled.
- The messages carried by 500 answers name the Python exception. They are not the framework's exact text.
- `collection_by_id.py`, the roseapi views and the migrations are not part of this model.

## Findings

| source | as written | input that shows it | evidently intended | confidence | as-written member | corrected member |
|---|---|---|---|---|---|---|
| arpaapi/geoapi/utils.py:180-219 | every `elif('…')` tests a non-empty literal, which is always true, so every name other than `IdSensore` maps to `sensor_type` | `map_columns("Valore")` returns `sensor_type` | each branch compares `column_name` to its literal, mapping the 17 listed names to 17 distinct fields | high (not executed) | Columns.MapColumnsAsWritten, Columns.ValoreMisread, Columns.AsWrittenAgreesOnlyOnFirstTwo | Columns.MapColumns, Columns.MapColumnsInjective |
