/**
 * The `collection_query` view (collection_query.py): resolve the
 * collection, negotiate the format, build the self/collection/alternate
 * links, then answer by query kind. The items kind validates the request
 * parameters, filters the collection's records, enforces the element cap,
 * paginates, adds next/prev links and serializes by format; the locations
 * kind filters by one location id; every other kind is rejected.
 *
 * An uncaught Python exception becomes a 500 response carrying its cause.
 * The serializers are not part of the model: a 200 body records which
 * serializer would run and with which records, counts, links and fields.
 */
module CollectionQuery {
  import opened PyStr
  import opened Formats
  import opened QueryString
  import opened Interval
  import opened Store
  import opened RequestParams

  const LimitDefault := 100
  const MaxElements := 1000000
  /** The locations kind refuses pages of this many records or more. */
  const LocationsCap := 100000

  /** The formats the items endpoint offers; the first is the default. */
  const AcceptedFormats: seq<string> := [FormatGeoJson, FormatHtml, FormatJson]

  /** The query kinds of the EDR/Features routes; `Other` is any unrecognised name. */
  datatype QueryKind =
    | Position | Radius | Area | Cube | Trajectory | Corridor
    | Items | Locations | Instances
    | Other(name: string)

  datatype ApiType = Features | Edr

  /** The stored description of a collection (the `Collection` model row). */
  datatype Collection = Collection(
    modelName: string,
    description: string,
    displayFields: string,
    filterFields: string,
    datetimeField: Option<string>,
    geometryField: Option<string>,
    geometryFilterField: Option<string>,
    locationsField: Option<string>,
    apiType: ApiType)

  /** A collection with the records of its model. */
  datatype Entry<R> = Entry(collection: Collection, records: seq<R>)

  /** What the view reads from the HTTP request. */
  datatype Request = Request(
    scheme: string,
    host: string,
    fullPath: string,
    query: QueryPairs,
    accept: Option<string>)

  datatype Link = Link(href: string, rel: string, mediaType: string, title: string)

  datatype Serializer = FeaturesGeoJson | EdrGeoJson

  datatype Body<R> =
    | Message(text: string)
    | FeatureCollection(serializer: Serializer, items: seq<R>, matched: nat, returned: nat,
                        links: seq<Link>, geometryField: Option<string>, fields: seq<string>)
    | JsonList(records: seq<R>, fields: seq<string>)
    | EmptyList
    | Crash(cause: string)

  datatype Response<R> = Response(status: int, body: Body<R>)

  /** The behaviour of the parts outside the model: lookups, float and date-time parsing. */
  datatype Env<!R> = Env(
    holds: (R, Lookup) -> bool,
    parseFloat: string -> Option<real>,
    parseIso: string -> Option<DateTime>)

  /** The records a body serves. */
  function Served<R>(body: Body<R>): seq<R>
  {
    match body
    case FeatureCollection(_, items, _, _, _, _, _) => items
    case JsonList(records, _) => records
    case _ => []
  }

  /** 200 carries data, 400 a message, 500 a crash. */
  predicate WellFormed<R>(r: Response<R>)
  {
    || (r.status == 200 && (r.body.FeatureCollection? || r.body.JsonList? || r.body.EmptyList?))
    || (r.status == 400 && r.body.Message?)
    || (r.status == 500 && r.body.Crash?)
  }

  function BadRequest<R>(text: string): Response<R>
  {
    Response(400, Message(text))
  }

  function ServerError<R>(cause: string): Response<R>
  {
    Response(500, Crash(cause))
  }

  /** `Collection.objects.get(model_name=...)`'s candidates, in catalogue order. */
  function Matching<R>(catalog: seq<Entry<R>>, modelName: string): (r: seq<Entry<R>>)
    ensures forall e :: e in r ==> e in catalog && e.collection.modelName == modelName
    ensures forall e :: e in catalog && e.collection.modelName == modelName ==> e in r
  {
    if catalog == [] then []
    else (if catalog[0].collection.modelName == modelName then [catalog[0]] else []) + Matching(catalog[1..], modelName)
  }

  /** `protocol://host`. */
  function BaseUrl(request: Request): string
  {
    request.scheme + "://" + request.host
  }

  /** `int(request.GET.get(name, default))`. */
  function IntParam(value: Option<string>, default: int): (r: Option<int>)
    ensures value.None? ==> r == Some(default)
  {
    match value
    case None => Some(default)
    case Some(v) => ParseInt(v)
  }

  /**
   * A missing parameter takes its default, a printed integer reads back as
   * itself, and text holding `=` or `&` is refused.
   */
  lemma IntParamReads(n: int, default: int, v: string)
    ensures IntParam(None, default) == Some(default)
    ensures IntParam(Some(IntToString(n)), default) == Some(n)
    ensures IntParam(Some(v), default).Some? ==> '=' !in v && '&' !in v
  {
    IntToStringRoundTrip(n);
    if ParseInt(v).Some? {
      ParseIntAvoids(v);
    }
  }

  /** One alternate-format link; None where the parameter edit raises. */
  function AlternateLink(baseUrl: string, modelName: string, params: string, linkFormat: string): Option<Link>
  {
    match Upsert(params, "f", linkFormat)
    case None => None
    case Some(hrefParams) =>
      Some(Link(baseUrl + "collections/" + modelName + "/items/?" + hrefParams, "alternate",
                ContentTypeFromFormat(Some(linkFormat)), "Items as " + ToUpper(linkFormat) + "."))
  }

  /** The alternate links, one per format in turn, or None if an edit raises. */
  function AlternateLinks(baseUrl: string, modelName: string, params: string, formats: seq<string>): Option<seq<Link>>
  {
    if formats == [] then Some([])
    else
      match AlternateLinks(baseUrl, modelName, params, formats[..|formats| - 1])
      case None => None
      case Some(init) =>
        match AlternateLink(baseUrl, modelName, params, formats[|formats| - 1])
        case None => None
        case Some(link) => Some(init + [link])
  }

  /** The alternates exist iff every format's link does, and then come one per format, in order. */
  lemma {:induction false} AlternateLinksMeaning(baseUrl: string, modelName: string, params: string, formats: seq<string>)
    ensures AlternateLinks(baseUrl, modelName, params, formats).Some?
      <==> forall i :: 0 <= i < |formats| ==> AlternateLink(baseUrl, modelName, params, formats[i]).Some?
    ensures AlternateLinks(baseUrl, modelName, params, formats).Some? ==>
      && |AlternateLinks(baseUrl, modelName, params, formats).value| == |formats|
      && forall i :: 0 <= i < |formats| ==>
           AlternateLinks(baseUrl, modelName, params, formats).value[i] == AlternateLink(baseUrl, modelName, params, formats[i]).value
  {
    AlternateLinksExist(baseUrl, modelName, params, formats);
    if AlternateLinks(baseUrl, modelName, params, formats).Some? {
      AlternateLinksValues(baseUrl, modelName, params, formats);
    }
  }

  /** The alternates exist iff every format's link does. */
  lemma {:induction false} AlternateLinksExist(baseUrl: string, modelName: string, params: string, formats: seq<string>)
    ensures AlternateLinks(baseUrl, modelName, params, formats).Some?
      <==> forall i :: 0 <= i < |formats| ==> AlternateLink(baseUrl, modelName, params, formats[i]).Some?
  {
    if formats != [] {
      var n := |formats|;
      var init := formats[..n - 1];
      AlternateLinksExist(baseUrl, modelName, params, init);
      AlternateLinksSnoc(baseUrl, modelName, params, formats);
      assert forall i :: 0 <= i < n - 1 ==> init[i] == formats[i];
    }
  }

  /** Existing alternates come one per format, in order. */
  lemma {:induction false} AlternateLinksValues(baseUrl: string, modelName: string, params: string, formats: seq<string>)
    requires AlternateLinks(baseUrl, modelName, params, formats).Some?
    ensures |AlternateLinks(baseUrl, modelName, params, formats).value| == |formats|
    ensures forall i :: 0 <= i < |formats| ==>
      AlternateLink(baseUrl, modelName, params, formats[i]).Some? &&
      AlternateLinks(baseUrl, modelName, params, formats).value[i] == AlternateLink(baseUrl, modelName, params, formats[i]).value
  {
    if formats != [] {
      var n := |formats|;
      var init := formats[..n - 1];
      AlternateLinksSnoc(baseUrl, modelName, params, formats);
      AlternateLinksValues(baseUrl, modelName, params, init);
      var before := AlternateLinks(baseUrl, modelName, params, init).value;
      var last := AlternateLink(baseUrl, modelName, params, formats[n - 1]).value;
      forall i | 0 <= i < n
        ensures AlternateLink(baseUrl, modelName, params, formats[i]).Some?
        ensures (before + [last])[i] == AlternateLink(baseUrl, modelName, params, formats[i]).value
      {
        if i < n - 1 {
          assert formats[i] == init[i];
        }
      }
    }
  }

  /** The links for one more format are the links so far and that format's link. */
  lemma AlternateLinksSnoc(baseUrl: string, modelName: string, params: string, formats: seq<string>)
    requires formats != []
    ensures var before := AlternateLinks(baseUrl, modelName, params, formats[..|formats| - 1]);
      var last := AlternateLink(baseUrl, modelName, params, formats[|formats| - 1]);
      AlternateLinks(baseUrl, modelName, params, formats)
        == if before.None? || last.None? then None else Some(before.value + [last.value])
  {
  }

  /** The items URL, with the query string when there is one. */
  function SelfHref(baseUrl: string, modelName: string, params: string): string
  {
    baseUrl + "collections/" + modelName + "/items" + (if params != "" then "?" + params else "")
  }

  /** The links every answer starts from: self, parent collection, alternates. */
  function HeaderLinks(baseUrl: string, collection: Collection, params: string, f: Option<string>): Option<seq<Link>>
  {
    var mediaType := ContentTypeFromFormat(f);
    match AlternateLinks(baseUrl, collection.modelName, params, AcceptedFormats)
    case None => None
    case Some(alternates) =>
      Some([Link(SelfHref(baseUrl, collection.modelName, params), "self", mediaType, "This document"),
            Link(baseUrl + "collections/" + collection.modelName, "collection", mediaType, collection.description)]
           + alternates)
  }

  /** The bbox coordinates, or None if one of them is not a float. */
  function ParseCoords(parts: seq<string>, parseFloat: string -> Option<real>): Option<seq<real>>
  {
    if forall i :: 0 <= i < |parts| ==> parseFloat(parts[i]).Some? then
      Some(seq(|parts|, i requires 0 <= i < |parts| => parseFloat(parts[i]).value))
    else None
  }

  /** The bbox filter's lookups; None for a malformed bbox. */
  function BboxLookups(bbox: Option<string>, geometryFilterField: Option<string>, parseFloat: string -> Option<real>): Option<seq<Lookup>>
  {
    match bbox
    case None => Some([])
    case Some(text) =>
      var parts := Split(text, ',');
      if !(|parts| == 4 || |parts| == 6) then None
      else
        match ParseCoords(parts, parseFloat)
        case None => None
        case Some(coords) => Some(FilterBbox(coords, geometryFilterField))
  }

  /** The datetime filter's lookups: none unless both the parameter and the field exist. */
  function DatetimeLookups(datetimeParam: Option<string>, datetimeField: Option<string>, parseIso: string -> Option<DateTime>): seq<Lookup>
  {
    if datetimeParam.Some? && datetimeField.Some? then
      var (startDate, endDate) := ProcessDatetimeInterval(datetimeParam.value, parseIso);
      FilterDatetime(startDate, endDate, datetimeField.value)
    else []
  }

  /** The parameters of a next/prev link: the request's, with `limit` and `offset` set. */
  function PageParams(params: string, limit: int, newOffset: int): Option<string>
  {
    match Upsert(params, "limit", IntToString(limit))
    case None => None
    case Some(withLimit) => Upsert(withLimit, "offset", IntToString(newOffset))
  }

  function PageLink(baseUrl: string, path: string, params: string, f: Option<string>,
                    limit: int, newOffset: int, rel: string, title: string): Option<Link>
  {
    match PageParams(params, limit, newOffset)
    case None => None
    case Some(p) => Some(Link(baseUrl + path + "?" + p, rel, ContentTypeFromFormat(f), title))
  }

  /** A wanted link as a one-element list, an unwanted one as none; None if building it raises. */
  function OptionalLink(want: bool, link: Option<Link>): Option<seq<Link>>
  {
    if !want then Some([]) else if link.None? then None else Some([link.value])
  }

  /** Both lists of links in order, or None once one of them raised. */
  function JoinLinks(nextLinks: Option<seq<Link>>, prevLinks: Option<seq<Link>>): Option<seq<Link>>
  {
    if nextLinks.None? || prevLinks.None? then None else Some(nextLinks.value + prevLinks.value)
  }

  /** The next and prev links the page earns, or None if building one raises. */
  function PageLinks(baseUrl: string, path: string, params: string, f: Option<string>,
                     limit: int, offset: int, fullCount: int): Option<seq<Link>>
  {
    JoinLinks(OptionalLink(limit + offset <= fullCount, PageLink(baseUrl, path, params, f, limit, limit + offset, "next", "Next page")),
              OptionalLink(offset - limit >= 0, PageLink(baseUrl, path, params, f, limit, offset - limit, "prev", "Previous page")))
  }

  /**
   * The items format switch. Only geojson and json are answered; any other
   * format, html included, reaches the comparison with the undefined
   * `utils.F_CSV` and crashes.
   */
  function Render<R>(f: Option<string>, collection: Collection, page: Page<R>, links: seq<Link>, skipGeometry: Option<string>): (r: Response<R>)
    ensures WellFormed(r) && r.status != 400
    ensures r.status == 200 <==> f == Some(FormatGeoJson) || f == Some(FormatJson)
  {
    var fields := Split(collection.displayFields, ',');
    if f == Some(FormatGeoJson) then
      var serializer := if collection.apiType == Edr then EdrGeoJson else FeaturesGeoJson;
      var geometryField := if skipGeometry == Some("true") then None else collection.geometryField;
      Response(200, FeatureCollection(serializer, page.items, page.matched, page.returned, links, geometryField, fields))
    else if f == Some(FormatJson) then Response(200, JsonList(page.items, fields))
    else ServerError("AttributeError: module 'utils' has no attribute 'F_CSV'")
  }

  /** The cap, pagination, links and format switch, on the filtered records. */
  function ItemsPage<R>(filtered: seq<R>, limit: int, offset: int, skipGeometry: Option<string>, collection: Collection,
                        baseUrl: string, path: string, params: string, f: Option<string>, links: seq<Link>): (r: Response<R>)
    ensures WellFormed(r)
    ensures r.status == 400 <==> limit > MaxElements && |filtered| > MaxElements
    ensures r.status == 400 ==> r.body == Message("Too many elements")
  {
    if limit > MaxElements && |filtered| > MaxElements then BadRequest("Too many elements")
    else
      var pageLimit := if limit == -1 then MaxElements else limit;
      match Paginate(filtered, Some(pageLimit), offset)
      case None => ServerError("ValueError: Negative indexing is not supported.")
      case Some(page) =>
        match PageLinks(baseUrl, path, params, f, pageLimit, offset, page.matched)
        case None => ServerError("IndexError: list assignment index out of range")
        case Some(pageLinks) => Render(f, collection, page, links + pageLinks, skipGeometry)
  }

  /** All lookups the items kind applies: bbox, datetime, then the field filters. */
  function ItemLookups(bboxLookups: seq<Lookup>, collection: Collection, query: QueryPairs, parseIso: string -> Option<DateTime>): seq<Lookup>
  {
    bboxLookups + DatetimeLookups(Get(query, "datetime"), collection.datetimeField, parseIso)
    + DictLookups(FilteringParams(Split(collection.filterFields, ','), query))
  }

  /** The items kind. */
  function ItemsQuery<R>(collection: Collection, records: seq<R>, query: QueryPairs, baseUrl: string, path: string,
                         params: string, f: Option<string>, links: seq<Link>, env: Env<R>): (r: Response<R>)
    ensures WellFormed(r)
  {
    var filterFields := Split(collection.filterFields, ',');
    match FirstUnknown(query, AcceptedParameters(filterFields))
    case Some(key) => BadRequest("Unknown Parameter: " + key)
    case None =>
      match IntParam(Get(query, "limit"), LimitDefault)
      case None => BadRequest("Error in limit parameter")
      case Some(limit) =>
        match IntParam(Get(query, "offset"), 0)
        case None => BadRequest("Error in offset parameter")
        case Some(offset) =>
          match BboxLookups(Get(query, "bbox"), collection.geometryFilterField, env.parseFloat)
          case None => BadRequest("malformed bbox parameter")
          case Some(bboxLookups) =>
            var filtered := Filter(records, ItemLookups(bboxLookups, collection, query, env.parseIso), env.holds);
            ItemsPage(filtered, limit, offset, Get(query, "skipGeometry"), collection, baseUrl, path, params, f, links)
  }

  /** The locations kind's format switch (its own `f`, defaulting to json). */
  function LocationsRender<R>(f: string, collection: Collection, page: Page<R>, skipGeometry: Option<string>): (r: Response<R>)
    ensures WellFormed(r) && r.status != 500
  {
    var fields := Split(collection.displayFields, ',');
    if f == FormatGeoJson then
      var geometryField := if skipGeometry == Some("true") then None else collection.geometryField;
      Response(200, FeatureCollection(EdrGeoJson, page.items, page.matched, page.returned, [], geometryField, fields))
    else if f == FormatJson then Response(200, JsonList(page.items, fields))
    else if f == "csv" then BadRequest("Format CSV not yet supported")
    else if f == FormatHtml then BadRequest("Format HTML not yet supported")
    else BadRequest("Format " + f + " not yet supported")
  }

  /**
   * The locations kind. `limit` and `offset` stay strings here: a present
   * offset makes `paginate`'s comparison `int < str` raise, and the limit is
   * converted by `paginate` itself.
   */
  function LocationsQuery<R>(collection: Collection, records: seq<R>, query: QueryPairs, env: Env<R>): (r: Response<R>)
    ensures WellFormed(r)
  {
    match Get(query, "locationId")
    case None => Response(200, EmptyList)
    case Some(rawId) =>
      match ParseInt(rawId)
      case None => ServerError("ValueError: invalid literal for int()")
      case Some(locationId) =>
        match collection.locationsField
        case None => ServerError("TypeError: keywords must be strings")
        case Some(field) => LocationsPageOf(collection, Filter(records, [Lookup(field, Number(locationId))], env.holds), query)
  }

  /** The locations kind once the location's records are selected: paginate, cap, render. */
  function LocationsPageOf<R>(collection: Collection, items: seq<R>, query: QueryPairs): (r: Response<R>)
    ensures WellFormed(r)
  {
    var skipGeometry := Get(query, "skipGeometry");
    var f := match Get(query, "f") case None => FormatJson case Some(v) => v;
    if Get(query, "offset").Some? then ServerError("TypeError: '<' not supported between instances of 'int' and 'str'")
    else
      match IntParam(Get(query, "limit"), LimitDefault)
      case None => ServerError("ValueError: invalid literal for int()")
      case Some(limit) =>
        match Paginate(items, Some(limit), 0)
        case None => ServerError("ValueError: Negative indexing is not supported.")
        case Some(page) =>
          if page.returned >= LocationsCap then BadRequest("Too many elements")
          else LocationsRender(f, collection, page, skipGeometry)
  }

  /** The whole view. */
  function Resolve<R>(catalog: seq<Entry<R>>, request: Request, collectionId: string, query: QueryKind, env: Env<R>): (r: Response<R>)
    ensures WellFormed(r)
  {
    var hits := Matching(catalog, collectionId);
    if |hits| != 1 then ServerError("Collection.objects.get: no single collection of that name")
    else
      var collection := hits[0].collection;
      var records := hits[0].records;
      var baseUrl := BaseUrl(request);
      var (path, params) := DeconstructPath(request.fullPath);
      var f := Negotiate(Get(request.query, "f"), request.accept, AcceptedFormats, env.parseFloat);
      match HeaderLinks(baseUrl, collection, params, f)
      case None => ServerError("IndexError: list assignment index out of range")
      case Some(links) => Dispatch(collection, records, request.query, query, baseUrl, path, params, f, links, env)
  }

  /** The answer of one query kind, once the collection and its header links are known. */
  function Dispatch<R>(collection: Collection, records: seq<R>, queryPairs: QueryPairs, query: QueryKind, baseUrl: string,
                       path: string, params: string, f: Option<string>, links: seq<Link>, env: Env<R>): (r: Response<R>)
    ensures WellFormed(r)
  {
    if query.Items? then ItemsQuery(collection, records, queryPairs, baseUrl, path, params, f, links, env)
    else if query.Locations? then LocationsQuery(collection, records, queryPairs, env)
    else FixedAnswer(query)
  }

  /** The kinds the view names but does not serve. */
  function FixedAnswer<R>(query: QueryKind): (r: Response<R>)
    requires !query.Items? && !query.Locations?
    ensures r.status == 400 && r.body.Message?
  {
    match query
    case Position => BadRequest("Position query not yet supported")
    case Radius => BadRequest("Radius query not yet supported")
    case Area => BadRequest("Area query not yet supported")
    case Cube => BadRequest("Cube query not yet supported")
    case Trajectory => BadRequest("Trajectory query not yet supported")
    case Corridor => BadRequest("Corridor query not yet supported")
    case Instances => BadRequest("Instances query not yet supported")
    case Other(_) => BadRequest("Query not supported")
  }

  /** The items and locations kinds hand over to their queries. */
  lemma DispatchServed<R>(collection: Collection, records: seq<R>, queryPairs: QueryPairs, baseUrl: string,
                          path: string, params: string, f: Option<string>, links: seq<Link>, env: Env<R>)
    ensures Dispatch(collection, records, queryPairs, Items, baseUrl, path, params, f, links, env)
      == ItemsQuery(collection, records, queryPairs, baseUrl, path, params, f, links, env)
    ensures Dispatch(collection, records, queryPairs, Locations, baseUrl, path, params, f, links, env)
      == LocationsQuery(collection, records, queryPairs, env)
  {
  }

  /** `Resolve` once the collection is found: a crash if the header links raise, else the kind's answer. */
  lemma ResolveFound<R>(catalog: seq<Entry<R>>, request: Request, collectionId: string, query: QueryKind, env: Env<R>)
    requires |Matching(catalog, collectionId)| == 1
    ensures var entry := Matching(catalog, collectionId)[0];
      var params := DeconstructPath(request.fullPath).1;
      var f := Negotiate(Get(request.query, "f"), request.accept, AcceptedFormats, env.parseFloat);
      var links := HeaderLinks(BaseUrl(request), entry.collection, params, f);
      Resolve(catalog, request, collectionId, query, env)
        == if links.None? then ServerError("IndexError: list assignment index out of range")
           else Dispatch(entry.collection, entry.records, request.query, query, BaseUrl(request),
                         DeconstructPath(request.fullPath).0, params, f, links.value, env)
  {
  }

  // ---------------------------------------------------------------------
  // The view, step by step.

  /** The links list before the query kind is looked at. */
  method BuildHeaderLinks(baseUrl: string, collection: Collection, queryParams: string, f: Option<string>)
    returns (links: Option<seq<Link>>)
    ensures links == HeaderLinks(baseUrl, collection, queryParams, f)
  {
    var acc := BuildOwnLinks(baseUrl, collection, queryParams, f);
    ghost var header := acc;
    ghost var alternates: seq<Link> := [];
    for i := 0 to |AcceptedFormats|
      invariant acc == header + alternates && |alternates| == i
      invariant forall k :: 0 <= k < i ==> AlternateLink(baseUrl, collection.modelName, queryParams, AcceptedFormats[k]) == Some(alternates[k])
    {
      var link := BuildAlternateLink(baseUrl, collection.modelName, queryParams, AcceptedFormats[i]);
      if link.None? {
        AlternateLinksMeaning(baseUrl, collection.modelName, queryParams, AcceptedFormats);
        return None;
      }
      assert acc + [link.value] == header + (alternates + [link.value]);
      acc := acc + [link.value];
      alternates := alternates + [link.value];
    }
    HeaderLinksFrom(baseUrl, collection, queryParams, f, alternates);
    return Some(acc);
  }

  /** The self link, with the query string when there is one, then the collection link. */
  method BuildOwnLinks(baseUrl: string, collection: Collection, queryParams: string, f: Option<string>)
    returns (links: seq<Link>)
    ensures links == [Link(SelfHref(baseUrl, collection.modelName, queryParams), "self", ContentTypeFromFormat(f), "This document"),
                      Link(baseUrl + "collections/" + collection.modelName, "collection", ContentTypeFromFormat(f), collection.description)]
  {
    var mediaType := ContentTypeFromFormat(f);
    var selfLinkHref := baseUrl + "collections/" + collection.modelName + "/items";
    ghost var itemsHref := selfLinkHref;
    if queryParams != "" {
      selfLinkHref := selfLinkHref + "?" + queryParams;
      assert selfLinkHref == itemsHref + ("?" + queryParams);
    } else {
      assert selfLinkHref == itemsHref + "";
    }
    links := [Link(selfLinkHref, "self", mediaType, "This document")];
    links := links + [Link(baseUrl + "collections/" + collection.modelName, "collection", mediaType, collection.description)];
  }

  /** One alternate link: the format's `f` replaced or appended. */
  method BuildAlternateLink(baseUrl: string, modelName: string, queryParams: string, linkFormat: string)
    returns (link: Option<Link>)
    ensures link == AlternateLink(baseUrl, modelName, queryParams, linkFormat)
  {
    var hrefParams := ReplaceOrCreateParam(queryParams, "f", linkFormat);
    if hrefParams.None? {
      return None;
    }
    var href := baseUrl + "collections/" + modelName + "/items/?" + hrefParams.value;
    link := Some(Link(href, "alternate", ContentTypeFromFormat(Some(linkFormat)), "Items as " + ToUpper(linkFormat) + "."));
  }

  /** The header links are the self and collection links followed by the alternates, once every edit succeeds. */
  lemma HeaderLinksFrom(baseUrl: string, collection: Collection, params: string, f: Option<string>, alternates: seq<Link>)
    requires |alternates| == |AcceptedFormats|
    requires forall k :: 0 <= k < |AcceptedFormats| ==> AlternateLink(baseUrl, collection.modelName, params, AcceptedFormats[k]) == Some(alternates[k])
    ensures HeaderLinks(baseUrl, collection, params, f)
      == Some([Link(SelfHref(baseUrl, collection.modelName, params), "self", ContentTypeFromFormat(f), "This document"),
               Link(baseUrl + "collections/" + collection.modelName, "collection", ContentTypeFromFormat(f), collection.description)]
              + alternates)
  {
    AlternateLinksMeaning(baseUrl, collection.modelName, params, AcceptedFormats);
    var built := AlternateLinks(baseUrl, collection.modelName, params, AcceptedFormats).value;
    assert forall k :: 0 <= k < |AcceptedFormats| ==> built[k] == alternates[k];
    assert built == alternates;
  }

  /** One next/prev link: `limit` then `offset` replaced or appended. */
  method BuildPageLink(baseUrl: string, path: string, queryParams: string, f: Option<string>,
                       limit: int, newOffset: int, rel: string, title: string)
    returns (link: Option<Link>)
    ensures link == PageLink(baseUrl, path, queryParams, f, limit, newOffset, rel, title)
  {
    var params := ReplaceOrCreateParam(queryParams, "limit", IntToString(limit));
    if params.None? {
      return None;
    }
    params := ReplaceOrCreateParam(params.value, "offset", IntToString(newOffset));
    if params.None? {
      return None;
    }
    return Some(Link(baseUrl + path + "?" + params.value, rel, ContentTypeFromFormat(f), title));
  }

  /** One next/prev link when it is wanted. */
  method BuildOptionalLink(want: bool, baseUrl: string, path: string, queryParams: string, f: Option<string>,
                           limit: int, newOffset: int, rel: string, title: string)
    returns (links: Option<seq<Link>>)
    ensures links == OptionalLink(want, PageLink(baseUrl, path, queryParams, f, limit, newOffset, rel, title))
  {
    links := Some([]);
    if want {
      var link := BuildPageLink(baseUrl, path, queryParams, f, limit, newOffset, rel, title);
      if link.None? {
        return None;
      }
      links := Some([link.value]);
    }
  }

  /** The next link, wanted when another page may follow. */
  method BuildNextLinks(baseUrl: string, path: string, queryParams: string, f: Option<string>,
                        limit: int, offset: int, fullCount: int)
    returns (links: Option<seq<Link>>)
    ensures links == OptionalLink(limit + offset <= fullCount, PageLink(baseUrl, path, queryParams, f, limit, limit + offset, "next", "Next page"))
  {
    links := BuildOptionalLink(limit + offset <= fullCount, baseUrl, path, queryParams, f, limit, limit + offset, "next", "Next page");
  }

  /** The prev link, wanted when a page precedes. */
  method BuildPrevLinks(baseUrl: string, path: string, queryParams: string, f: Option<string>,
                        limit: int, offset: int)
    returns (links: Option<seq<Link>>)
    ensures links == OptionalLink(offset - limit >= 0, PageLink(baseUrl, path, queryParams, f, limit, offset - limit, "prev", "Previous page"))
  {
    links := BuildOptionalLink(offset - limit >= 0, baseUrl, path, queryParams, f, limit, offset - limit, "prev", "Previous page");
  }

  /** The next link if another page may follow, then the prev link if one precedes. */
  method BuildPageLinks(baseUrl: string, path: string, queryParams: string, f: Option<string>,
                        limit: int, offset: int, fullCount: int)
    returns (links: Option<seq<Link>>)
    ensures links == PageLinks(baseUrl, path, queryParams, f, limit, offset, fullCount)
  {
    var nextLinks := BuildNextLinks(baseUrl, path, queryParams, f, limit, offset, fullCount);
    var prevLinks: Option<seq<Link>> := None;
    if nextLinks.Some? {
      prevLinks := BuildPrevLinks(baseUrl, path, queryParams, f, limit, offset);
    }
    PageLinksJoin(baseUrl, path, queryParams, f, limit, offset, fullCount, nextLinks, prevLinks);
    links := JoinLinks(nextLinks, prevLinks);
  }

  /** `PageLinks` from the two optional lists, the prev one only needed once the next one is built. */
  lemma PageLinksJoin(baseUrl: string, path: string, params: string, f: Option<string>,
                      limit: int, offset: int, fullCount: int, nextLinks: Option<seq<Link>>, prevLinks: Option<seq<Link>>)
    requires nextLinks == OptionalLink(limit + offset <= fullCount, PageLink(baseUrl, path, params, f, limit, limit + offset, "next", "Next page"))
    requires nextLinks.Some? ==> prevLinks == OptionalLink(offset - limit >= 0, PageLink(baseUrl, path, params, f, limit, offset - limit, "prev", "Previous page"))
    ensures PageLinks(baseUrl, path, params, f, limit, offset, fullCount) == JoinLinks(nextLinks, prevLinks)
  {
  }

  /** `PageLinks` in terms of the two links it may use. */
  lemma PageLinksOf(baseUrl: string, path: string, params: string, f: Option<string>,
                    limit: int, offset: int, fullCount: int, next: Option<Link>, prev: Option<Link>)
    requires next == PageLink(baseUrl, path, params, f, limit, limit + offset, "next", "Next page")
    requires prev == PageLink(baseUrl, path, params, f, limit, offset - limit, "prev", "Previous page")
    ensures limit + offset <= fullCount && next.None? ==> PageLinks(baseUrl, path, params, f, limit, offset, fullCount) == None
    ensures offset - limit >= 0 && prev.None? ==> PageLinks(baseUrl, path, params, f, limit, offset, fullCount) == None
    ensures (limit + offset <= fullCount ==> next.Some?) && (offset - limit >= 0 ==> prev.Some?) ==>
      PageLinks(baseUrl, path, params, f, limit, offset, fullCount)
        == Some((if limit + offset <= fullCount then [next.value] else []) + (if offset - limit >= 0 then [prev.value] else []))
  {
  }

  /** The cap, pagination, next/prev links and format switch of the items kind. */
  method PageResponse<R>(items: seq<R>, requestLimit: int, offset: int, skipGeometry: Option<string>, collection: Collection,
                         baseUrl: string, path: string, queryParams: string, f: Option<string>, headerLinks: seq<Link>)
    returns (response: Response<R>)
    ensures response == ItemsPage(items, requestLimit, offset, skipGeometry, collection, baseUrl, path, queryParams, f, headerLinks)
  {
    var links := headerLinks;
    var limit := requestLimit;
    var itemsCount := |items|;
    if limit > MaxElements && itemsCount > MaxElements {
      return BadRequest("Too many elements");
    }
    if limit == -1 {
      limit := MaxElements;
    }
    var paged := Paginate(items, Some(limit), offset);
    if paged.None? {
      return ServerError("ValueError: Negative indexing is not supported.");
    }
    var page := paged.value;
    var fullCount := page.matched;
    var pageLinks := BuildPageLinks(baseUrl, path, queryParams, f, limit, offset, fullCount);
    if pageLinks.None? {
      return ServerError("IndexError: list assignment index out of range");
    }
    links := links + pageLinks.value;
    assert ItemsPage(items, requestLimit, offset, skipGeometry, collection, baseUrl, path, queryParams, f, headerLinks)
      == Render(f, collection, page, links, skipGeometry);
    response := RenderPage(f, collection, page, links, skipGeometry);
  }

  /** The format switch at the end of the items kind. */
  method RenderPage<R>(f: Option<string>, collection: Collection, page: Page<R>, links: seq<Link>, skipGeometry: Option<string>)
    returns (response: Response<R>)
    ensures response == Render(f, collection, page, links, skipGeometry)
  {
    var fields := Split(collection.displayFields, ',');
    if f == Some(FormatGeoJson) {
      var geometryField := if skipGeometry == Some("true") then None else collection.geometryField;
      var serializer := if collection.apiType == Edr then EdrGeoJson else FeaturesGeoJson;
      return Response(200, FeatureCollection(serializer, page.items, page.matched, page.returned, links, geometryField, fields));
    } else if f == Some(FormatJson) {
      return Response(200, JsonList(page.items, fields));
    }
    return ServerError("AttributeError: module 'utils' has no attribute 'F_CSV'");
  }

  /** The items kind: validation, filter building, filtering, then the page. */
  method ItemsBranch<R>(collection: Collection, records: seq<R>, query: QueryPairs, baseUrl: string, path: string,
                        queryParams: string, f: Option<string>, links: seq<Link>, env: Env<R>)
    returns (response: Response<R>)
    ensures response == ItemsQuery(collection, records, query, baseUrl, path, queryParams, f, links, env)
  {
    var items := records;
    var filterFields := Split(collection.filterFields, ',');
    var acceptedParameters := BuildAcceptedParameters(filterFields);
    var unknown := FindUnknown(query, acceptedParameters);
    if unknown.Some? {
      return BadRequest("Unknown Parameter: " + unknown.value);
    }
    var bbox := Get(query, "bbox");
    var datetimeParam := Get(query, "datetime");
    var skipGeometry := Get(query, "skipGeometry");
    var limit := IntParam(Get(query, "limit"), LimitDefault);
    if limit.None? {
      return BadRequest("Error in limit parameter");
    }
    var offset := IntParam(Get(query, "offset"), 0);
    if offset.None? {
      return BadRequest("Error in offset parameter");
    }
    var filteringParams := BuildFilteringParams(filterFields, query);
    var bboxLookups: seq<Lookup> := [];
    FilterNothing(records, env.holds);
    if bbox.Some? {
      var parts := Split(bbox.value, ',');
      if !(|parts| == 4 || |parts| == 6) {
        return BadRequest("malformed bbox parameter");
      }
      var coords := ParseCoords(parts, env.parseFloat);
      if coords.None? {
        return BadRequest("malformed bbox parameter");
      }
      bboxLookups := FilterBbox(coords.value, collection.geometryFilterField);
      items := Filter(items, bboxLookups, env.holds);
    }
    assert BboxLookups(bbox, collection.geometryFilterField, env.parseFloat) == Some(bboxLookups);
    ghost var datetimeLookups := DatetimeLookups(datetimeParam, collection.datetimeField, env.parseIso);
    var datetimeField := collection.datetimeField;
    if datetimeParam.Some? && datetimeField.Some? {
      var (startDate, endDate) := ProcessDatetimeInterval(datetimeParam.value, env.parseIso);
      items := Filter(items, FilterDatetime(startDate, endDate, datetimeField.value), env.holds);
    } else {
      FilterNothing(items, env.holds);
    }
    FilterCompose(records, bboxLookups, datetimeLookups, env.holds);
    items := ApplyFieldFilters(items, filteringParams, env.holds);
    FilterCompose(records, bboxLookups + datetimeLookups, DictLookups(filteringParams), env.holds);
    assert items == Filter(records, ItemLookups(bboxLookups, collection, query, env.parseIso), env.holds);
    response := PageResponse(items, limit.value, offset.value, skipGeometry, collection, baseUrl, path, queryParams, f, links);
  }

  /** The locations kind. */
  method LocationsBranch<R>(collection: Collection, records: seq<R>, query: QueryPairs, env: Env<R>)
    returns (response: Response<R>)
    ensures response == LocationsQuery(collection, records, query, env)
  {
    var locationId := Get(query, "locationId");
    var skipGeometry := Get(query, "skipGeometry");
    var limit := Get(query, "limit");
    var offset := Get(query, "offset");
    var f := match Get(query, "f") case None => FormatJson case Some(v) => v;
    if locationId.None? {
      return Response(200, EmptyList);
    }
    var id := ParseInt(locationId.value);
    if id.None? {
      return ServerError("ValueError: invalid literal for int()");
    }
    var locationFilterField := collection.locationsField;
    if locationFilterField.None? {
      return ServerError("TypeError: keywords must be strings");
    }
    var items := Filter(records, [Lookup(locationFilterField.value, Number(id.value))], env.holds);
    if offset.Some? {
      return ServerError("TypeError: '<' not supported between instances of 'int' and 'str'");
    }
    var pageLimit := IntParam(limit, LimitDefault);
    if pageLimit.None? {
      return ServerError("ValueError: invalid literal for int()");
    }
    var paged := Paginate(items, Some(pageLimit.value), 0);
    if paged.None? {
      return ServerError("ValueError: Negative indexing is not supported.");
    }
    if paged.value.returned >= LocationsCap {
      return BadRequest("Too many elements");
    }
    response := LocationsRender(f, collection, paged.value, skipGeometry);
  }

  /** `collection_query`. */
  method HandleCollectionQuery<R>(catalog: seq<Entry<R>>, request: Request, collectionId: string, query: QueryKind, env: Env<R>)
    returns (response: Response<R>)
    ensures response == Resolve(catalog, request, collectionId, query, env)
  {
    var hits := Matching(catalog, collectionId);
    if |hits| != 1 {
      return ServerError("Collection.objects.get: no single collection of that name");
    }
    var collection := hits[0].collection;
    var records := hits[0].records;
    var baseUrl := BaseUrl(request);
    var (path, queryParams) := DeconstructPath(request.fullPath);
    var f := GetFormat(Get(request.query, "f"), request.accept, AcceptedFormats, env.parseFloat);
    var links := BuildHeaderLinks(baseUrl, collection, queryParams, f);
    ResolveFound(catalog, request, collectionId, query, env);
    if links.None? {
      return ServerError("IndexError: list assignment index out of range");
    }
    response := DispatchQuery(collection, records, request.query, query, baseUrl, path, queryParams, f, links.value, env);
  }

  /** The switch on the query kind. */
  method DispatchQuery<R>(collection: Collection, records: seq<R>, queryPairs: QueryPairs, query: QueryKind, baseUrl: string,
                          path: string, params: string, f: Option<string>, links: seq<Link>, env: Env<R>)
    returns (response: Response<R>)
    ensures response == Dispatch(collection, records, queryPairs, query, baseUrl, path, params, f, links, env)
  {
    match query {
      case Position => response := BadRequest("Position query not yet supported");
      case Radius => response := BadRequest("Radius query not yet supported");
      case Area => response := BadRequest("Area query not yet supported");
      case Cube => response := BadRequest("Cube query not yet supported");
      case Trajectory => response := BadRequest("Trajectory query not yet supported");
      case Corridor => response := BadRequest("Corridor query not yet supported");
      case Items =>
        response := ItemsBranch(collection, records, queryPairs, baseUrl, path, params, f, links, env);
      case Locations => response := LocationsBranch(collection, records, queryPairs, env);
      case Instances => response := BadRequest("Instances query not yet supported");
      case Other(_) => response := BadRequest("Query not supported");
    }
  }
}
