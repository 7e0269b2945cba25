/**
 * What the `collection_query` view promises, stated over the model of
 * collection_query.py: the order of its checks, the records it serves,
 * the element cap, the pagination links and the quirks of its link
 * building and format switch.
 */
module QueryProperties {
  import opened PyStr
  import opened Formats
  import opened QueryString
  import opened Store
  import opened RequestParams
  import opened CollectionQuery

  // ---------------------------------------------------------------------
  // Parameter validation.

  /**
   * The first request parameter outside the accepted names is reported,
   * whatever `limit`, `offset`, `bbox` or the filters say: the check comes
   * before any of them is read.
   */
  lemma UnknownParameterFirst<R>(collection: Collection, records: seq<R>, query: QueryPairs, baseUrl: string, path: string,
                                 params: string, f: Option<string>, links: seq<Link>, env: Env<R>, i: int)
    requires 0 <= i < |query|
    requires forall k :: 0 <= k < i ==> query[k].0 in AcceptedParameters(Split(collection.filterFields, ','))
    requires query[i].0 !in AcceptedParameters(Split(collection.filterFields, ','))
    ensures ItemsQuery(collection, records, query, baseUrl, path, params, f, links, env)
      == BadRequest("Unknown Parameter: " + query[i].0)
  {
    var accepted := AcceptedParameters(Split(collection.filterFields, ','));
    var r := FirstUnknown(query, accepted);
    assert r.Some?;
    var j :| 0 <= j < |query| && query[j].0 == r.value && (forall k :: 0 <= k < j ==> query[k].0 in accepted);
    assert j == i;
  }

  /**
   * Once every name is accepted, a `limit` that `int()` refuses is reported
   * first, then an `offset` that `int()` refuses; a missing one takes its
   * default (100 and 0).
   */
  lemma LimitOffsetErrors<R>(collection: Collection, records: seq<R>, query: QueryPairs, baseUrl: string, path: string,
                             params: string, f: Option<string>, links: seq<Link>, env: Env<R>)
    requires forall k :: 0 <= k < |query| ==> query[k].0 in AcceptedParameters(Split(collection.filterFields, ','))
    ensures Get(query, "limit").Some? && ParseInt(Get(query, "limit").value).None? ==>
      ItemsQuery(collection, records, query, baseUrl, path, params, f, links, env) == BadRequest("Error in limit parameter")
    ensures IntParam(Get(query, "limit"), LimitDefault).Some? && Get(query, "offset").Some? && ParseInt(Get(query, "offset").value).None? ==>
      ItemsQuery(collection, records, query, baseUrl, path, params, f, links, env) == BadRequest("Error in offset parameter")
    ensures Get(query, "limit").None? ==> IntParam(Get(query, "limit"), LimitDefault) == Some(100)
    ensures Get(query, "offset").None? ==> IntParam(Get(query, "offset"), 0) == Some(0)
  {
    assert FirstUnknown(query, AcceptedParameters(Split(collection.filterFields, ','))).None?;
  }

  /**
   * A `bbox` is accepted only as 4 or 6 comma-separated floats; anything
   * else is answered 400 "malformed bbox parameter" before any filtering.
   */
  lemma MalformedBbox<R>(collection: Collection, records: seq<R>, query: QueryPairs, baseUrl: string, path: string,
                         params: string, f: Option<string>, links: seq<Link>, env: Env<R>)
    requires forall k :: 0 <= k < |query| ==> query[k].0 in AcceptedParameters(Split(collection.filterFields, ','))
    requires IntParam(Get(query, "limit"), LimitDefault).Some? && IntParam(Get(query, "offset"), 0).Some?
    requires Get(query, "bbox").Some?
    ensures var parts := Split(Get(query, "bbox").value, ',');
      (ItemsQuery(collection, records, query, baseUrl, path, params, f, links, env) == BadRequest("malformed bbox parameter"))
      <==> !(|parts| == 4 || |parts| == 6) || exists k :: 0 <= k < |parts| && env.parseFloat(parts[k]).None?
  {
    var b := BboxLookups(Get(query, "bbox"), collection.geometryFilterField, env.parseFloat);
    BboxLookupsFail(Get(query, "bbox").value, collection.geometryFilterField, env.parseFloat);
    if b.Some? {
      var filtered := Filter(records, ItemLookups(b.value, collection, query, env.parseIso), env.holds);
      var limit := IntParam(Get(query, "limit"), LimitDefault).value;
      var offset := IntParam(Get(query, "offset"), 0).value;
      ValidatedItems(collection, records, query, baseUrl, path, params, f, links, env);
    } else {
      ValidatedItems(collection, records, query, baseUrl, path, params, f, links, env);
    }
  }

  /** A bbox is refused exactly when it is not 4 or 6 parts or a part is not a float. */
  lemma BboxLookupsFail(bbox: string, geometryFilterField: Option<string>, parseFloat: string -> Option<real>)
    ensures var parts := Split(bbox, ',');
      BboxLookups(Some(bbox), geometryFilterField, parseFloat).None?
      <==> !(|parts| == 4 || |parts| == 6) || exists k :: 0 <= k < |parts| && parseFloat(parts[k]).None?
  {
  }

  /**
   * Past the name check and the `limit`/`offset` parse, the items kind is the
   * bbox check followed by the page of the filtered records.
   */
  lemma ValidatedItems<R>(collection: Collection, records: seq<R>, query: QueryPairs, baseUrl: string, path: string,
                          params: string, f: Option<string>, links: seq<Link>, env: Env<R>)
    requires forall k :: 0 <= k < |query| ==> query[k].0 in AcceptedParameters(Split(collection.filterFields, ','))
    requires IntParam(Get(query, "limit"), LimitDefault).Some? && IntParam(Get(query, "offset"), 0).Some?
    ensures var b := BboxLookups(Get(query, "bbox"), collection.geometryFilterField, env.parseFloat);
      ItemsQuery(collection, records, query, baseUrl, path, params, f, links, env)
      == if b.None? then BadRequest("malformed bbox parameter")
         else ItemsPage(Filter(records, ItemLookups(b.value, collection, query, env.parseIso), env.holds),
                        IntParam(Get(query, "limit"), LimitDefault).value, IntParam(Get(query, "offset"), 0).value,
                        Get(query, "skipGeometry"), collection, baseUrl, path, params, f, links)
  {
    assert FirstUnknown(query, AcceptedParameters(Split(collection.filterFields, ','))).None?;
  }

  // ---------------------------------------------------------------------
  // The page of the items kind.

  /**
   * A 200 page is the slice of the filtered records at the clamped offset:
   * as long as the limit allows (-1 standing for 1000000), empty for any
   * other negative limit, with `numberMatched` the filtered count. Only
   * geojson and json get that far, and the header links come first.
   */
  lemma {:induction false} ItemsPageServed<R>(filtered: seq<R>, limit: int, offset: int, skipGeometry: Option<string>, collection: Collection,
                                              baseUrl: string, path: string, params: string, f: Option<string>, links: seq<Link>)
    requires ItemsPage(filtered, limit, offset, skipGeometry, collection, baseUrl, path, params, f, links).status == 200
    ensures f == Some(FormatGeoJson) || f == Some(FormatJson)
    ensures offset >= 0
    ensures var r := ItemsPage(filtered, limit, offset, skipGeometry, collection, baseUrl, path, params, f, links);
      var served := Served(r.body);
      var o := Min(offset, |filtered|);
      var pageLimit := if limit == -1 then MaxElements else limit;
      && o + |served| <= |filtered|
      && served == filtered[o..o + |served|]
      && (pageLimit >= 0 ==> |served| == Min(pageLimit, |filtered| - o))
      && (pageLimit < 0 ==> served == [])
      && (r.body.FeatureCollection? ==>
            && r.body.matched == |filtered| && r.body.returned == |served|
            && r.body.links[..|links|] == links)
  {
    var pageLimit := if limit == -1 then MaxElements else limit;
    var page := Paginate(filtered, Some(pageLimit), offset).value;
    var pageLinks := PageLinks(baseUrl, path, params, f, pageLimit, offset, page.matched).value;
    var r := ItemsPage(filtered, limit, offset, skipGeometry, collection, baseUrl, path, params, f, links);
    assert r == Render(f, collection, page, links + pageLinks, skipGeometry);
    assert Served(r.body) == page.items;
    if pageLimit < 0 {
      assert page.returned == 0;
    }
    if r.body.FeatureCollection? {
      assert r.body.links == links + pageLinks;
    }
  }

  /**
   * A 200 items answer means every name was accepted, `limit`, `offset` and
   * `bbox` were well formed and the format is geojson or json.
   */
  lemma ItemsOkChecks<R>(collection: Collection, records: seq<R>, query: QueryPairs, baseUrl: string, path: string,
                         params: string, f: Option<string>, links: seq<Link>, env: Env<R>)
    requires ItemsQuery(collection, records, query, baseUrl, path, params, f, links, env).status == 200
    ensures forall k :: 0 <= k < |query| ==> query[k].0 in AcceptedParameters(Split(collection.filterFields, ','))
    ensures IntParam(Get(query, "limit"), LimitDefault).Some? && IntParam(Get(query, "offset"), 0).Some?
    ensures BboxLookups(Get(query, "bbox"), collection.geometryFilterField, env.parseFloat).Some?
    ensures f == Some(FormatGeoJson) || f == Some(FormatJson)
  {
    ItemsPassedChecks(collection, records, query, baseUrl, path, params, f, links, env);
    ValidatedItems(collection, records, query, baseUrl, path, params, f, links, env);
    var b := BboxLookups(Get(query, "bbox"), collection.geometryFilterField, env.parseFloat);
    if b.Some? {
      var filtered := Filter(records, ItemLookups(b.value, collection, query, env.parseIso), env.holds);
      ItemsPageServed(filtered, IntParam(Get(query, "limit"), LimitDefault).value, IntParam(Get(query, "offset"), 0).value,
                      Get(query, "skipGeometry"), collection, baseUrl, path, params, f, links);
    }
  }

  /**
   * Every record a 200 items answer serves belongs to the collection and
   * meets every lookup the request built (bbox, datetime, field filters).
   */
  lemma ItemsServed<R>(collection: Collection, records: seq<R>, query: QueryPairs, baseUrl: string, path: string,
                       params: string, f: Option<string>, links: seq<Link>, env: Env<R>)
    requires ItemsQuery(collection, records, query, baseUrl, path, params, f, links, env).status == 200
    ensures BboxLookups(Get(query, "bbox"), collection.geometryFilterField, env.parseFloat).Some?
    ensures var lookups := ItemLookups(BboxLookups(Get(query, "bbox"), collection.geometryFilterField, env.parseFloat).value,
                                       collection, query, env.parseIso);
      var served := Served(ItemsQuery(collection, records, query, baseUrl, path, params, f, links, env).body);
      forall x :: x in served ==> x in records && Admits(x, lookups, env.holds)
  {
    ItemsOkChecks(collection, records, query, baseUrl, path, params, f, links, env);
    ValidatedItems(collection, records, query, baseUrl, path, params, f, links, env);
    var bboxLookups := BboxLookups(Get(query, "bbox"), collection.geometryFilterField, env.parseFloat).value;
    PageServesAdmitted(records, ItemLookups(bboxLookups, collection, query, env.parseIso), env.holds,
                       IntParam(Get(query, "limit"), LimitDefault).value, IntParam(Get(query, "offset"), 0).value,
                       Get(query, "skipGeometry"), collection, baseUrl, path, params, f, links);
  }

  /** The page step serves only admitted records of the input. */
  lemma PageServesAdmitted<R>(records: seq<R>, lookups: seq<Lookup>, holds: (R, Lookup) -> bool, limit: int, offset: int,
                              skipGeometry: Option<string>, collection: Collection,
                              baseUrl: string, path: string, params: string, f: Option<string>, links: seq<Link>)
    requires ItemsPage(Filter(records, lookups, holds), limit, offset, skipGeometry, collection, baseUrl, path, params, f, links).status == 200
    ensures var page := ItemsPage(Filter(records, lookups, holds), limit, offset, skipGeometry, collection, baseUrl, path, params, f, links);
      forall x :: x in Served(page.body) ==> x in records && Admits(x, lookups, holds)
  {
    var filtered := Filter(records, lookups, holds);
    ItemsPageServed(filtered, limit, offset, skipGeometry, collection, baseUrl, path, params, f, links);
    var served := Served(ItemsPage(filtered, limit, offset, skipGeometry, collection, baseUrl, path, params, f, links).body);
    var o := Min(offset, |filtered|);
    SliceAdmitted(records, lookups, holds, o, served);
  }

  /** A slice of the filtered records holds only admitted records of the input. */
  lemma SliceAdmitted<R>(records: seq<R>, lookups: seq<Lookup>, holds: (R, Lookup) -> bool, o: int, served: seq<R>)
    requires 0 <= o && o + |served| <= |Filter(records, lookups, holds)|
    requires served == Filter(records, lookups, holds)[o..o + |served|]
    ensures forall x :: x in served ==> x in records && Admits(x, lookups, holds)
  {
    var filtered := Filter(records, lookups, holds);
    forall x | x in served
      ensures x in records && Admits(x, lookups, holds)
    {
      var k :| 0 <= k < |served| && served[k] == x;
      assert x == filtered[o + k];
    }
  }

  /** A 200 has passed the name check and the `limit`/`offset` parse. */
  lemma ItemsPassedChecks<R>(collection: Collection, records: seq<R>, query: QueryPairs, baseUrl: string, path: string,
                             params: string, f: Option<string>, links: seq<Link>, env: Env<R>)
    requires ItemsQuery(collection, records, query, baseUrl, path, params, f, links, env).status == 200
    ensures FirstUnknown(query, AcceptedParameters(Split(collection.filterFields, ','))).None?
    ensures IntParam(Get(query, "limit"), LimitDefault).Some? && IntParam(Get(query, "offset"), 0).Some?
  {
  }

  /** `limit=-1` is read as 1000000 only after the cap, so it never trips it. */
  lemma MinusOneMeansMax<R>(filtered: seq<R>, offset: int, skipGeometry: Option<string>, collection: Collection,
                            baseUrl: string, path: string, params: string, f: Option<string>, links: seq<Link>)
    ensures ItemsPage(filtered, -1, offset, skipGeometry, collection, baseUrl, path, params, f, links)
      == ItemsPage(filtered, MaxElements, offset, skipGeometry, collection, baseUrl, path, params, f, links)
    ensures ItemsPage(filtered, -1, offset, skipGeometry, collection, baseUrl, path, params, f, links) != BadRequest("Too many elements")
  {
  }

  // ---------------------------------------------------------------------
  // Pagination links.

  /**
   * A next link exactly when `limit + offset <= numberMatched`, a prev link
   * exactly when `offset - limit >= 0`, each carrying the same limit and
   * the moved (unclamped) offset.
   */
  lemma PageLinksPresence(baseUrl: string, path: string, params: string, f: Option<string>, limit: int, offset: int, fullCount: int)
    requires PageLinks(baseUrl, path, params, f, limit, offset, fullCount).Some?
    ensures var ls := PageLinks(baseUrl, path, params, f, limit, offset, fullCount).value;
      && ((exists k :: 0 <= k < |ls| && ls[k].rel == "next") <==> limit + offset <= fullCount)
      && ((exists k :: 0 <= k < |ls| && ls[k].rel == "prev") <==> offset - limit >= 0)
      && (forall k :: 0 <= k < |ls| && ls[k].rel == "next" ==>
            ls[k].href == baseUrl + path + "?" + PageParams(params, limit, limit + offset).value)
      && (forall k :: 0 <= k < |ls| && ls[k].rel == "prev" ==>
            ls[k].href == baseUrl + path + "?" + PageParams(params, limit, offset - limit).value)
  {
    var nextParams := PageParams(params, limit, limit + offset);
    var prevParams := PageParams(params, limit, offset - limit);
    var nextHref := if nextParams.Some? then baseUrl + path + "?" + nextParams.value else "";
    var prevHref := if prevParams.Some? then baseUrl + path + "?" + prevParams.value else "";
    PageLinkHref(baseUrl, path, params, f, limit, limit + offset, "next", "Next page");
    PageLinkHref(baseUrl, path, params, f, limit, offset - limit, "prev", "Previous page");
    assert PageLinks(baseUrl, path, params, f, limit, offset, fullCount)
      == JoinLinks(OptionalLink(limit + offset <= fullCount, PageLink(baseUrl, path, params, f, limit, limit + offset, "next", "Next page")),
                   OptionalLink(offset - limit >= 0, PageLink(baseUrl, path, params, f, limit, offset - limit, "prev", "Previous page")));
    LinkPairShape(PageLinks(baseUrl, path, params, f, limit, offset, fullCount).value,
                  PageLink(baseUrl, path, params, f, limit, limit + offset, "next", "Next page"),
                  PageLink(baseUrl, path, params, f, limit, offset - limit, "prev", "Previous page"),
                  limit + offset <= fullCount, offset - limit >= 0, nextHref, prevHref);
  }

  /** A built page link carries its relation and the edited parameter string. */
  lemma PageLinkHref(baseUrl: string, path: string, params: string, f: Option<string>,
                     limit: int, newOffset: int, rel: string, title: string)
    ensures PageLink(baseUrl, path, params, f, limit, newOffset, rel, title).Some? ==>
      && PageParams(params, limit, newOffset).Some?
      && PageLink(baseUrl, path, params, f, limit, newOffset, rel, title).value.rel == rel
      && PageLink(baseUrl, path, params, f, limit, newOffset, rel, title).value.href
           == baseUrl + path + "?" + PageParams(params, limit, newOffset).value
  {
  }

  /** In the list of an optional next link then an optional prev link, each is found by its relation. */
  lemma LinkPairShape(ls: seq<Link>, next: Option<Link>, prev: Option<Link>, wantNext: bool, wantPrev: bool, nextHref: string, prevHref: string)
    requires JoinLinks(OptionalLink(wantNext, next), OptionalLink(wantPrev, prev)) == Some(ls)
    requires next.Some? ==> next.value.rel == "next" && next.value.href == nextHref
    requires prev.Some? ==> prev.value.rel == "prev" && prev.value.href == prevHref
    ensures (wantNext ==> next.Some?) && (wantPrev ==> prev.Some?)
    ensures && ((exists k :: 0 <= k < |ls| && ls[k].rel == "next") <==> wantNext)
      && ((exists k :: 0 <= k < |ls| && ls[k].rel == "prev") <==> wantPrev)
      && (forall k :: 0 <= k < |ls| && ls[k].rel == "next" ==> ls[k].href == nextHref)
      && (forall k :: 0 <= k < |ls| && ls[k].rel == "prev" ==> ls[k].href == prevHref)
  {
    if wantNext {
      assert ls[0].rel == "next";
    }
    if wantPrev {
      assert ls[|ls| - 1].rel == "prev";
    }
  }

  /**
   * When the request's parameter string holds an `&`, a page link reads
   * back: `limit` and `offset` read as the link's numbers put in place of
   * the request's own values, and every other parameter keeps its value.
   * Where the request's own limit and offset were absent or integers (the
   * handler has checked this by then), they parse to the link's limit and
   * offset.
   */
  lemma PageParamsReadBack(params: string, limit: int, newOffset: int)
    requires '&' in params
    requires PageParams(params, limit, newOffset).Some?
    ensures var p := PageParams(params, limit, newOffset).value;
      && ValueOf(p, "limit") == Some(NewValue(ValueOf(params, "limit"), IntToString(limit)))
      && ValueOf(p, "offset") == Some(NewValue(ValueOf(params, "offset"), IntToString(newOffset)))
      && forall key :: key != "limit" && key != "offset" && key != "" ==> ValueOf(p, key) == ValueOf(params, key)
    ensures var p := PageParams(params, limit, newOffset).value;
      IntParam(ValueOf(params, "limit"), LimitDefault).Some? && IntParam(ValueOf(params, "offset"), 0).Some? ==>
        && ParseInt(ValueOf(p, "limit").value) == Some(limit)
        && ParseInt(ValueOf(p, "offset").value) == Some(newOffset)
  {
    PageParamsValues(params, limit, newOffset);
    PageValueParses(ValueOf(params, "limit"), LimitDefault, limit);
    PageValueParses(ValueOf(params, "offset"), 0, newOffset);
  }

  /** The values a page link's parameter string reads as. */
  lemma PageParamsValues(params: string, limit: int, newOffset: int)
    requires '&' in params
    requires PageParams(params, limit, newOffset).Some?
    ensures var p := PageParams(params, limit, newOffset).value;
      && ValueOf(p, "limit") == Some(NewValue(ValueOf(params, "limit"), IntToString(limit)))
      && ValueOf(p, "offset") == Some(NewValue(ValueOf(params, "offset"), IntToString(newOffset)))
      && forall key :: key != "limit" && key != "offset" && key != "" ==> ValueOf(p, key) == ValueOf(params, key)
  {
    var l := IntToString(limit);
    var o := IntToString(newOffset);
    assert '=' !in l && '&' !in l && '=' !in o && '&' !in o;
    PageLiterals();
    var withLimit := Upsert(params, "limit", l).value;
    UpsertReads(params, "limit", l);
    assert '&' in withLimit;
    var p := Upsert(withLimit, "offset", o).value;
    assert p == PageParams(params, limit, newOffset).value;
    UpsertReads(withLimit, "offset", o);
    assert ValueOf(withLimit, "offset") == ValueOf(params, "offset");
  }

  /**
   * A page link's `limit` or `offset` parses to the link's number when the
   * request's own value was absent or an integer. A request value holding
   * `=` keeps its tail after the edit, and `int()` then refuses it.
   */
  lemma PageValueParses(previous: Option<string>, default: int, n: int)
    ensures IntParam(previous, default).Some? ==> ParseInt(NewValue(previous, IntToString(n))) == Some(n)
    ensures previous.Some? && '=' in previous.value ==> ParseInt(NewValue(previous, IntToString(n))) == None
  {
    var s := IntToString(n);
    if IntParam(previous, default).Some? {
      if previous.Some? {
        ParseIntAvoids(previous.value);
        ReplaceFirstPieceWhole(previous.value, s);
      }
      IntToStringRoundTrip(n);
    }
    if previous.Some? && '=' in previous.value {
      ReplaceFirstPieceMeaning(previous.value, s);
      ParseIntRefusesEquals(NewValue(previous, s));
    }
  }

  /** `int()` refuses any text holding `=`. */
  lemma ParseIntRefusesEquals(t: string)
    requires '=' in t
    ensures ParseInt(t) == None
  {
    var k :| 0 <= k < |t| && t[k] == '=';
    ParseIntRejects(t, k);
  }

  /**
   * With no query string at all the page parameters are glued: the next
   * link of a bare `items` request is `?limit=100offset=100`, whose one
   * segment is still named `limit`, so no offset can be read from it.
   */
  lemma BarePageParamsGlue(limit: int, newOffset: int)
    ensures PageParams("", limit, newOffset) == Some("limit=" + IntToString(limit) + "offset" + "=" + IntToString(newOffset))
    ensures ValueOf("limit=" + IntToString(limit) + "offset" + "=" + IntToString(newOffset), "offset") == None
  {
    var l := IntToString(limit);
    var o := IntToString(newOffset);
    assert '=' !in l && '&' !in l && '&' !in o;
    PageLiterals();
    UpsertEmpty("limit", l);
    LimitSegment(l);
    var withLimit := "limit=" + l;
    UpsertGlues(withLimit, "offset", o);
    assert PageParams("", limit, newOffset) == Upsert(withLimit, "offset", o);
  }

  /** The segment `limit=<l>` is named `limit`, holds `=` and no `&`. */
  lemma LimitSegment(l: string)
    requires '=' !in l && '&' !in l
    ensures "limit=" + l == "limit" + "=" + l
    ensures Name("limit=" + l) == "limit" && '=' in "limit=" + l && '&' !in "limit=" + l
  {
    var w := "limit=" + l;
    assert w == "limit" + ['='] + l;
    SplitConcat("limit", l, '=');
    SplitNoSeparator("limit", '=');
    assert w[5] == '=';
    assert forall i :: 0 <= i < |w| ==> w[i] != '&' by {
      forall i | 0 <= i < |w|
        ensures w[i] != '&'
      {
        if i >= 6 {
          assert w[i] == l[i - 6];
        }
      }
    }
  }

  /**
   * And the glued segment reads as a limit of "<limit>offset=<offset>",
   * which `int()` refuses: following that next link is answered "Error in
   * limit parameter".
   */
  lemma GluedLimitUnreadable(limit: int, newOffset: int)
    ensures ValueOf("limit=" + IntToString(limit) + "offset" + "=" + IntToString(newOffset), "limit")
      == Some(IntToString(limit) + "offset" + "=" + IntToString(newOffset))
    ensures ParseInt(IntToString(limit) + "offset" + "=" + IntToString(newOffset)) == None
  {
    var l := IntToString(limit);
    var o := IntToString(newOffset);
    var p := "limit=" + l + "offset" + "=" + o;
    var t := l + "offset";
    GluedPieces(l, o);
    assert '&' !in p;
    SplitNoSeparator(p, '&');
    assert ValueOf(p, "limit") == ValueIn([p], "limit");
    assert ["limit", t, o][1..] == [t, o];
    assert [t, o][1..] == [o];
    assert Join([t, o], "=") == t + "=" + o;
    assert SegmentValue(p) == t + "=" + o;
    assert (t + "=" + o)[|t|] == '=';
    ParseIntRefusesEquals(t + "=" + o);
  }

  lemma GluedPieces(l: string, o: string)
    requires '=' !in l && '=' !in o
    ensures Split("limit=" + l + "offset" + "=" + o, '=') == ["limit", l + "offset", o]
  {
    PageLiterals();
    var t := l + "offset";
    assert '=' !in t;
    assert "limit=" + l + "offset" + "=" + o == "limit" + ['='] + (t + ['='] + o);
    SplitConcat("limit", t + ['='] + o, '=');
    SplitConcat(t, o, '=');
    SplitNoSeparator("limit", '=');
    SplitNoSeparator(t, '=');
    SplitNoSeparator(o, '=');
  }

  /** The literals the glued page parameters are made of. */
  lemma PageLiterals()
    ensures "limit=" == "limit" + ['='] && "=" == ['=']
    ensures '=' !in "limit" && '=' !in "offset"
    ensures '&' !in "offset" && "limit" != "" && "limit" != "offset"
  {
  }

  // ---------------------------------------------------------------------
  // Header links, formats and the other kinds.

  /** Whether an edit of `param` raises does not depend on the replacement. */
  lemma UpsertFailsAlike(paramString: string, param: string, a: string, b: string)
    ensures Upsert(paramString, param, a).None? <==> Upsert(paramString, param, b).None?
  {
    var segments := Split(paramString, '&');
    EditAllMeaning(segments, param, a);
    EditAllMeaning(segments, param, b);
    assert forall i :: 0 <= i < |segments| ==>
      (EditSegment(segments[i], param, a).Some? <==> EditSegment(segments[i], param, b).Some?);
  }

  /** An edit of `param` raises exactly when some segment so named has no `=`. */
  lemma UpsertFails(paramString: string, param: string, replacement: string)
    ensures Upsert(paramString, param, replacement).None?
      <==> exists i :: 0 <= i < |Split(paramString, '&')| && Name(Split(paramString, '&')[i]) == param && '=' !in Split(paramString, '&')[i]
  {
    var segments := Split(paramString, '&');
    EditAllMeaning(segments, param, replacement);
    forall i | 0 <= i < |segments|
      ensures EditSegment(segments[i], param, replacement).None? <==> Name(segments[i]) == param && '=' !in segments[i]
    {
      EditSegmentMeaning(segments[i], param, replacement);
    }
    assert Upsert(paramString, param, replacement).None? <==> EditAll(segments, param, replacement).None?;
    if EditAll(segments, param, replacement).None? {
      var i :| 0 <= i < |segments| && EditSegment(segments[i], param, replacement).None?;
      assert Name(segments[i]) == param && '=' !in segments[i];
      assert Upsert(paramString, param, replacement).None?;
      assert 0 <= i < |Split(paramString, '&')| && Name(Split(paramString, '&')[i]) == param && '=' !in Split(paramString, '&')[i];
    } else {
      assert Upsert(paramString, param, replacement).Some?;
      forall i | 0 <= i < |segments|
        ensures !(Name(segments[i]) == param && '=' !in segments[i])
      {
        assert EditSegment(segments[i], param, replacement).Some?;
      }
    }
  }

  /**
   * The header links fail, whatever the format, exactly when the parameter
   * string has a segment named `f` with no `=`.
   */
  lemma HeaderLinksFail(baseUrl: string, collection: Collection, params: string, f: Option<string>)
    ensures HeaderLinks(baseUrl, collection, params, f).None?
      <==> exists i :: 0 <= i < |Split(params, '&')| && Name(Split(params, '&')[i]) == "f" && '=' !in Split(params, '&')[i]
  {
    UpsertFails(params, "f", FormatGeoJson);
    AlternateLinksMeaning(baseUrl, collection.modelName, params, AcceptedFormats);
    forall i | 0 <= i < |AcceptedFormats|
      ensures AlternateLink(baseUrl, collection.modelName, params, AcceptedFormats[i]).None? <==> Upsert(params, "f", FormatGeoJson).None?
    {
      UpsertFailsAlike(params, "f", FormatGeoJson, AcceptedFormats[i]);
    }
    assert AlternateLink(baseUrl, collection.modelName, params, AcceptedFormats[0]).None? <==> Upsert(params, "f", FormatGeoJson).None?;
  }

  /**
   * The html format the view advertises is never served: a request with
   * `f=html` reaches the undefined `utils.F_CSV` and crashes, so its items
   * answer is never a 200.
   */
  lemma HtmlItemsNever200<R>(catalog: seq<Entry<R>>, request: Request, collectionId: string, env: Env<R>)
    requires Get(request.query, "f") == Some(FormatHtml)
    ensures Resolve(catalog, request, collectionId, Items, env).status != 200
  {
    if |Matching(catalog, collectionId)| == 1 {
      ResolveFound(catalog, request, collectionId, Items, env);
      var entry := Matching(catalog, collectionId)[0];
      var (path, params) := DeconstructPath(request.fullPath);
      var f := Negotiate(Get(request.query, "f"), request.accept, AcceptedFormats, env.parseFloat);
      assert f == Some(FormatHtml);
      var links := HeaderLinks(BaseUrl(request), entry.collection, params, f);
      if links.Some? {
        ItemsHtmlNot200(entry.collection, entry.records, request.query, BaseUrl(request), path, params, links.value, env);
        var answer := ItemsQuery(entry.collection, entry.records, request.query, BaseUrl(request), path, params, f, links.value, env);
        DispatchServed(entry.collection, entry.records, request.query, BaseUrl(request), path, params, f, links.value, env);
        assert Resolve(catalog, request, collectionId, Items, env) == answer;
      } else {
        assert Resolve(catalog, request, collectionId, Items, env).status == 500;
      }
    }
  }

  /** The items kind never answers 200 in html. */
  lemma ItemsHtmlNot200<R>(collection: Collection, records: seq<R>, query: QueryPairs, baseUrl: string, path: string,
                           params: string, links: seq<Link>, env: Env<R>)
    ensures ItemsQuery(collection, records, query, baseUrl, path, params, Some(FormatHtml), links, env).status != 200
  {
    ItemsOkFormat(collection, records, query, baseUrl, path, params, Some(FormatHtml), links, env);
    HtmlIsNotServed();
  }

  /** A 200 items answer is in geojson or json. */
  lemma ItemsOkFormat<R>(collection: Collection, records: seq<R>, query: QueryPairs, baseUrl: string, path: string,
                         params: string, f: Option<string>, links: seq<Link>, env: Env<R>)
    ensures ItemsQuery(collection, records, query, baseUrl, path, params, f, links, env).status == 200
      ==> f == Some(FormatGeoJson) || f == Some(FormatJson)
  {
    if ItemsQuery(collection, records, query, baseUrl, path, params, f, links, env).status == 200 {
      ItemsOkChecks(collection, records, query, baseUrl, path, params, f, links, env);
    }
  }

  lemma HtmlIsNotServed()
    ensures FormatHtml != FormatGeoJson && FormatHtml != FormatJson
  {
    assert FormatHtml[0] != FormatGeoJson[0] && FormatHtml[0] != FormatJson[0];
  }

  /**
   * The kinds that are not served look at nothing in the request but its
   * path: two requests with the same full path get the same answer.
   */
  lemma FixedKindAnswer<R>(catalog: seq<Entry<R>>, request: Request, collectionId: string, kind: QueryKind, env: Env<R>)
    requires !kind.Items? && !kind.Locations?
    requires |Matching(catalog, collectionId)| == 1
    ensures var f := Negotiate(Get(request.query, "f"), request.accept, AcceptedFormats, env.parseFloat);
      var links := HeaderLinks(BaseUrl(request), Matching(catalog, collectionId)[0].collection, DeconstructPath(request.fullPath).1, f);
      Resolve(catalog, request, collectionId, kind, env)
        == if links.None? then ServerError("IndexError: list assignment index out of range") else FixedAnswer(kind)
  {
    ResolveFound(catalog, request, collectionId, kind, env);
  }

  lemma FixedKindsIgnoreParameters<R>(catalog: seq<Entry<R>>, a: Request, b: Request, collectionId: string, kind: QueryKind, env: Env<R>)
    requires !kind.Items? && !kind.Locations?
    requires a.fullPath == b.fullPath
    ensures Resolve(catalog, a, collectionId, kind, env) == Resolve(catalog, b, collectionId, kind, env)
    ensures Resolve(catalog, a, collectionId, kind, env).status != 200
  {
    var hits := Matching(catalog, collectionId);
    if |hits| == 1 {
      var entry := hits[0];
      var params := DeconstructPath(a.fullPath).1;
      var fa := Negotiate(Get(a.query, "f"), a.accept, AcceptedFormats, env.parseFloat);
      var fb := Negotiate(Get(b.query, "f"), b.accept, AcceptedFormats, env.parseFloat);
      FixedKindAnswer(catalog, a, collectionId, kind, env);
      FixedKindAnswer(catalog, b, collectionId, kind, env);
      HeaderLinksFail(BaseUrl(a), entry.collection, params, fa);
      HeaderLinksFail(BaseUrl(b), entry.collection, params, fb);
    }
  }

  // ---------------------------------------------------------------------
  // The locations kind.

  /**
   * Without `locationId` the locations kind answers an empty 200, whatever
   * else the request carries.
   */
  lemma LocationsWithoutId<R>(catalog: seq<Entry<R>>, request: Request, collectionId: string, env: Env<R>)
    requires |Matching(catalog, collectionId)| == 1
    requires var segments := Split(DeconstructPath(request.fullPath).1, '&');
      forall i :: 0 <= i < |segments| ==> Name(segments[i]) != "f" || '=' in segments[i]
    requires Get(request.query, "locationId").None?
    ensures Resolve(catalog, request, collectionId, Locations, env) == Response(200, EmptyList)
  {
    ResolveFound(catalog, request, collectionId, Locations, env);
    var entry := Matching(catalog, collectionId)[0];
    var (path, params) := DeconstructPath(request.fullPath);
    var f := Negotiate(Get(request.query, "f"), request.accept, AcceptedFormats, env.parseFloat);
    HeaderLinksFail(BaseUrl(request), entry.collection, params, f);
    var links := HeaderLinks(BaseUrl(request), entry.collection, params, f);
    DispatchServed(entry.collection, entry.records, request.query, BaseUrl(request), path, params, f, links.value, env);
  }

  /**
   * A locations answer with records serves only records of the collection
   * whose locations field equals the requested id, fewer than 100000 of
   * them, from a request without `offset`.
   */
  lemma LocationsServed<R>(collection: Collection, records: seq<R>, query: QueryPairs, env: Env<R>)
    requires LocationsQuery(collection, records, query, env).status == 200
    ensures var served := Served(LocationsQuery(collection, records, query, env).body);
      served != [] ==>
        && Get(query, "locationId").Some? && ParseInt(Get(query, "locationId").value).Some?
        && collection.locationsField.Some? && Get(query, "offset").None?
        && |served| < LocationsCap
        && forall x :: x in served ==>
             x in records && env.holds(x, Lookup(collection.locationsField.value, Number(ParseInt(Get(query, "locationId").value).value)))
  {
    var served := Served(LocationsQuery(collection, records, query, env).body);
    if served != [] {
      LocationsPage(collection, records, query, env);
      var lookups := [Lookup(collection.locationsField.value, Number(ParseInt(Get(query, "locationId").value).value))];
      SliceAdmitted(records, lookups, env.holds, 0, served);
      assert forall x :: x in served ==> Admits(x, lookups, env.holds) ==> env.holds(x, lookups[0]);
    }
  }

  /** A locations answer with records is the first page of the location's records. */
  lemma LocationsPage<R>(collection: Collection, records: seq<R>, query: QueryPairs, env: Env<R>)
    requires LocationsQuery(collection, records, query, env).status == 200
    requires Served(LocationsQuery(collection, records, query, env).body) != []
    ensures Get(query, "locationId").Some? && ParseInt(Get(query, "locationId").value).Some?
    ensures collection.locationsField.Some? && Get(query, "offset").None?
    ensures var served := Served(LocationsQuery(collection, records, query, env).body);
      var lookups := [Lookup(collection.locationsField.value, Number(ParseInt(Get(query, "locationId").value).value))];
      && |served| < LocationsCap
      && |served| <= |Filter(records, lookups, env.holds)|
      && served == Filter(records, lookups, env.holds)[0..|served|]
  {
    assert Get(query, "locationId").Some?;
    var id := ParseInt(Get(query, "locationId").value);
    assert id.Some?;
    assert collection.locationsField.Some?;
    var items := Filter(records, [Lookup(collection.locationsField.value, Number(id.value))], env.holds);
    assert LocationsQuery(collection, records, query, env) == LocationsPageOf(collection, items, query);
    LocationsPageOfServes(collection, items, query);
  }

  /** The paginated part of the locations kind serves a prefix of the records, under the cap. */
  lemma LocationsPageOfServes<R>(collection: Collection, items: seq<R>, query: QueryPairs)
    requires LocationsPageOf(collection, items, query).status == 200
    requires Served(LocationsPageOf(collection, items, query).body) != []
    ensures Get(query, "offset").None?
    ensures var served := Served(LocationsPageOf(collection, items, query).body);
      |served| < LocationsCap && |served| <= |items| && served == items[0..|served|]
  {
    var f := match Get(query, "f") case None => FormatJson case Some(v) => v;
    var skipGeometry := Get(query, "skipGeometry");
    assert Get(query, "offset").None?;
    var limit := IntParam(Get(query, "limit"), LimitDefault);
    assert limit.Some?;
    var page := Paginate(items, Some(limit.value), 0);
    assert page.Some?;
    assert page.value.returned < LocationsCap;
    assert LocationsPageOf(collection, items, query) == LocationsRender(f, collection, page.value, skipGeometry);
    LocationsRenderServes(f, collection, page.value, skipGeometry);
  }

  /** The locations format switch serves the whole page or nothing. */
  lemma LocationsRenderServes<R>(f: string, collection: Collection, page: Page<R>, skipGeometry: Option<string>)
    ensures Served(LocationsRender(f, collection, page, skipGeometry).body)
      == if f == FormatGeoJson || f == FormatJson then page.items else []
  {
  }

  /** A present `offset` crashes the locations kind once a location is asked for. */
  lemma LocationsOffsetCrashes<R>(collection: Collection, records: seq<R>, query: QueryPairs, env: Env<R>)
    requires Get(query, "locationId").Some? && ParseInt(Get(query, "locationId").value).Some?
    requires collection.locationsField.Some?
    requires Get(query, "offset").Some?
    ensures LocationsQuery(collection, records, query, env).status == 500
  {
  }
}
