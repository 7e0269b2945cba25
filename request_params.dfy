/**
 * The request parameters of the items query (collection_query.py): the
 * decoded `request.GET`, the list of accepted parameter names, the search
 * for the first unknown one, and the dictionary of per-field operator
 * filters (`filtering_params`) with Python's dictionary semantics.
 */
module RequestParams {
  import opened PyStr
  import opened Store

  /** The decoded query parameters in the order they occur; a key may repeat. */
  type QueryPairs = seq<(string, string)>

  /** `request.GET.get(key)`: the last value given for the key. */
  function Get(query: QueryPairs, key: string): (r: Option<string>)
    ensures r.Some? <==> exists i :: 0 <= i < |query| && query[i].0 == key
    ensures r.Some? ==> (key, r.value) in query
    ensures r.Some? ==>
      exists i :: 0 <= i < |query| && query[i] == (key, r.value) && (forall k :: i < k < |query| ==> query[k].0 != key)
  {
    if query == [] then None
    else if query[|query| - 1].0 == key then Some(query[|query| - 1].1)
    else
      var rest := Get(query[..|query| - 1], key);
      assert forall i :: 0 <= i < |query| - 1 ==> query[..|query| - 1][i] == query[i];
      rest
  }

  /** The parameters every items query accepts. */
  const CommonParameters: seq<string> := ["bbox", "datetime", "skipGeometry", "limit", "offset", "f"]

  /** The operator suffixes a filter field may carry. */
  const DjangoFilters: seq<string> := ["", "__lte", "__lt", "__gte", "__gt", "__ne", "__in"]

  /** One field with each operator suffix, in suffix order. */
  function FieldKeys(field: string): (r: seq<string>)
    ensures |r| == |DjangoFilters|
    ensures forall j :: 0 <= j < |DjangoFilters| ==> r[j] == field + DjangoFilters[j]
  {
    seq(|DjangoFilters|, j requires 0 <= j < |DjangoFilters| => field + DjangoFilters[j])
  }

  /** The suffixed names of all fields, field by field. */
  function Suffixed(fields: seq<string>): seq<string>
  {
    if fields == [] then [] else Suffixed(fields[..|fields| - 1]) + FieldKeys(fields[|fields| - 1])
  }

  /** `accepted_parameters` as the handler builds it. */
  function AcceptedParameters(filterFields: seq<string>): seq<string>
  {
    CommonParameters + filterFields + Suffixed(filterFields)
  }

  lemma {:induction false} SuffixedMeaning(fields: seq<string>, key: string)
    ensures key in Suffixed(fields) <==>
      exists i, j :: 0 <= i < |fields| && 0 <= j < |DjangoFilters| && key == fields[i] + DjangoFilters[j]
  {
    if fields != [] {
      var init := fields[..|fields| - 1];
      var last := fields[|fields| - 1];
      SuffixedMeaning(init, key);
      if key in FieldKeys(last) {
        var j :| 0 <= j < |DjangoFilters| && FieldKeys(last)[j] == key;
        assert key == fields[|fields| - 1] + DjangoFilters[j];
      }
      if exists i, j :: 0 <= i < |fields| && 0 <= j < |DjangoFilters| && key == fields[i] + DjangoFilters[j] {
        var i, j :| 0 <= i < |fields| && 0 <= j < |DjangoFilters| && key == fields[i] + DjangoFilters[j];
        if i < |fields| - 1 {
          assert key == init[i] + DjangoFilters[j];
        } else {
          assert key == FieldKeys(last)[j];
        }
      }
      if key in Suffixed(init) {
        var i, j :| 0 <= i < |init| && 0 <= j < |DjangoFilters| && key == init[i] + DjangoFilters[j];
        assert key == fields[i] + DjangoFilters[j];
      }
    }
  }

  /**
   * A name is accepted exactly when it is a common parameter or a filter
   * field followed by one of the operator suffixes (the bare field being the
   * empty suffix).
   */
  lemma AcceptedParametersMeaning(filterFields: seq<string>, key: string)
    ensures key in AcceptedParameters(filterFields) <==>
      || key in CommonParameters
      || exists i, j :: 0 <= i < |filterFields| && 0 <= j < |DjangoFilters| && key == filterFields[i] + DjangoFilters[j]
  {
    SuffixedMeaning(filterFields, key);
    if key in filterFields {
      var i :| 0 <= i < |filterFields| && filterFields[i] == key;
      assert key == filterFields[i] + DjangoFilters[0];
    }
  }

  /** The nested loops that grow `accepted_parameters`. */
  method BuildAcceptedParameters(filterFields: seq<string>) returns (acceptedParameters: seq<string>)
    ensures acceptedParameters == AcceptedParameters(filterFields)
  {
    acceptedParameters := CommonParameters;
    acceptedParameters := acceptedParameters + filterFields;
    for i := 0 to |filterFields|
      invariant acceptedParameters == CommonParameters + filterFields + Suffixed(filterFields[..i])
    {
      for j := 0 to |DjangoFilters|
        invariant acceptedParameters == CommonParameters + filterFields + Suffixed(filterFields[..i]) + FieldKeys(filterFields[i])[..j]
      {
        acceptedParameters := acceptedParameters + [filterFields[i] + DjangoFilters[j]];
        assert FieldKeys(filterFields[i])[..j + 1] == FieldKeys(filterFields[i])[..j] + [filterFields[i] + DjangoFilters[j]];
      }
      assert filterFields[..i + 1][..i] == filterFields[..i];
      assert FieldKeys(filterFields[i])[..|DjangoFilters|] == FieldKeys(filterFields[i]);
    }
    assert filterFields[..|filterFields|] == filterFields;
  }

  /**
   * The first parameter name, in request order, that is not accepted.
   * (`request.GET.items()` lists each name once, at its first occurrence,
   * so the first unknown name is the same.)
   */
  function FirstUnknown(query: QueryPairs, accepted: seq<string>): (r: Option<string>)
    ensures r.None? <==> forall i :: 0 <= i < |query| ==> query[i].0 in accepted
    ensures r.Some? ==> r.value !in accepted
    ensures r.Some? ==> exists i :: 0 <= i < |query| && query[i].0 == r.value && (forall k :: 0 <= k < i ==> query[k].0 in accepted)
  {
    if query == [] then None
    else if query[0].0 !in accepted then Some(query[0].0)
    else
      var rest := FirstUnknown(query[1..], accepted);
      assert forall i :: 1 <= i < |query| ==> query[i] == query[1..][i - 1];
      if rest.Some? then
        var i :| 0 <= i < |query[1..]| && query[1..][i].0 == rest.value && forall k :: 0 <= k < i ==> query[1..][k].0 in accepted;
        assert query[i + 1].0 == rest.value;
        rest
      else rest
  }

  /** The loop that returns on the first unknown parameter. */
  method FindUnknown(query: QueryPairs, accepted: seq<string>) returns (unknown: Option<string>)
    ensures unknown == FirstUnknown(query, accepted)
  {
    for i := 0 to |query|
      invariant FirstUnknown(query, accepted) == FirstUnknown(query[i..], accepted)
    {
      var key := query[i].0;
      if key !in accepted {
        return Some(key);
      }
      assert query[i..][1..] == query[i + 1..];
    }
    return None;
  }

  /** A filter's dictionary: names with their arguments, each name once. */
  type Params = seq<(string, Arg)>

  /** `d.get(key)`. */
  function DictGet(d: Params, key: string): Option<Arg>
  {
    if d == [] then None else if d[0].0 == key then Some(d[0].1) else DictGet(d[1..], key)
  }

  /** Each name occurs at most once. */
  predicate DistinctKeys(d: Params)
  {
    forall i, j :: 0 <= i < j < |d| ==> d[i].0 != d[j].0
  }

  /**
   * `d[key] = value`: an existing name keeps its place and takes the new
   * value; a new name goes at the end.
   */
  function DictSet(d: Params, key: string, value: Arg): (r: Params)
    ensures |r| == |d| || |r| == |d| + 1
    ensures forall i :: 0 <= i < |d| && d[i].0 != key ==> d[i] in r
    ensures forall e :: e in r ==> e == (key, value) || e in d
    ensures (key, value) in r
  {
    if d == [] then [(key, value)]
    else if d[0].0 == key then [(key, value)] + d[1..]
    else [d[0]] + DictSet(d[1..], key, value)
  }

  /** Dictionary semantics: a set name reads as its value, other names as before. */
  lemma {:induction false} DictSetGet(d: Params, key: string, value: Arg, other: string)
    ensures DictGet(DictSet(d, key, value), key) == Some(value)
    ensures other != key ==> DictGet(DictSet(d, key, value), other) == DictGet(d, other)
  {
    if d != [] && d[0].0 != key {
      DictSetGet(d[1..], key, value, other);
    }
  }

  /** A second setting of a name overrides the first. */
  lemma {:induction false} DictSetTwice(d: Params, key: string, first: Arg, second: Arg)
    ensures DictSet(DictSet(d, key, first), key, second) == DictSet(d, key, second)
  {
    if d != [] && d[0].0 != key {
      DictSetTwice(d[1..], key, first, second);
      assert DictSet(d, key, first) == [d[0]] + DictSet(d[1..], key, first);
    } else if d != [] {
      assert DictSet(d, key, first)[1..] == d[1..];
    }
  }

  /** Setting a name keeps the names distinct. */
  lemma {:induction false} DictSetDistinct(d: Params, key: string, value: Arg)
    requires DistinctKeys(d)
    ensures DistinctKeys(DictSet(d, key, value))
  {
    var r := DictSet(d, key, value);
    if d != [] && d[0].0 != key {
      var rest := DictSet(d[1..], key, value);
      assert DistinctKeys(d[1..]) by {
        forall i, j | 0 <= i < j < |d[1..]|
          ensures d[1..][i].0 != d[1..][j].0
        {
          assert d[1..][i] == d[i + 1] && d[1..][j] == d[j + 1];
        }
      }
      DictSetDistinct(d[1..], key, value);
      assert r == [d[0]] + rest;
      forall i, j | 0 <= i < j < |r|
        ensures r[i].0 != r[j].0
      {
        assert r[j] == rest[j - 1];
        if i == 0 {
          assert r[j] in rest;
          if r[j] != (key, value) {
            var k :| 0 <= k < |d[1..]| && d[1..][k] == r[j];
            assert d[k + 1] == r[j];
          }
        } else {
          assert r[i] == rest[i - 1];
        }
      }
    } else if d != [] {
      forall i, j | 0 <= i < j < |r|
        ensures r[i].0 != r[j].0
      {
        assert r[j] == d[j];
        if i > 0 {
          assert r[i] == d[i];
        }
      }
    }
  }

  /**
   * The value stored for a filter: an `__in` value is stripped and split on
   * commas; otherwise the literal strings "true" and "false" become booleans.
   */
  function FilterValue(dFilter: string, raw: string): (r: Arg)
    ensures dFilter == "__in" ==>
      r.Texts? && Join(r.texts, ",") == Strip(raw) && (forall k :: 0 <= k < |r.texts| ==> ',' !in r.texts[k])
    ensures dFilter != "__in" ==> !r.Texts? && (r.Flag? <==> raw == "true" || raw == "false")
    ensures r.Flag? ==> (r.flag <==> raw == "true")
    ensures r.Text? ==> r.text == raw
  {
    if dFilter == "__in" then
      JoinSplit(Strip(raw), ',');
      Texts(Split(Strip(raw), ','))
    else if raw == "true" then Flag(true)
    else if raw == "false" then Flag(false)
    else Text(raw)
  }

  /** The (name, value) pairs the inner loop stores for one field, up to suffix `j`. */
  function FieldEntries(field: string, query: QueryPairs, j: nat): Params
    requires j <= |DjangoFilters|
  {
    if j == 0 then []
    else
      var name := field + DjangoFilters[j - 1];
      FieldEntries(field, query, j - 1)
      + match Get(query, name)
        case None => []
        case Some(v) => [(name, FilterValue(DjangoFilters[j - 1], v))]
  }

  /** All stores the nested loops make, in order. */
  function Entries(fields: seq<string>, query: QueryPairs): Params
  {
    if fields == [] then []
    else Entries(fields[..|fields| - 1], query) + FieldEntries(fields[|fields| - 1], query, |DjangoFilters|)
  }

  /** The dictionary `d` after the given stores, in order. */
  function DictFold(d: Params, entries: Params): Params
  {
    if entries == [] then d else DictSet(DictFold(d, entries[..|entries| - 1]), entries[|entries| - 1].0, entries[|entries| - 1].1)
  }

  lemma {:induction false} DictFoldAppend(d: Params, a: Params, b: Params)
    ensures DictFold(d, a + b) == DictFold(DictFold(d, a), b)
  {
    if b != [] {
      assert (a + b)[..|a + b| - 1] == a + b[..|b| - 1];
      DictFoldAppend(d, a, b[..|b| - 1]);
    } else {
      assert a + b == a;
    }
  }

  /** The dictionary the stores leave behind, starting from an empty one. */
  function DictOf(entries: Params): Params
  {
    DictFold([], entries)
  }

  /** `filtering_params` after the nested loops. */
  function FilteringParams(filterFields: seq<string>, query: QueryPairs): Params
  {
    DictOf(Entries(filterFields, query))
  }

  /** A store made for field `i` and suffix `j` (when the request carries it). */
  predicate IsEntry(fields: seq<string>, query: QueryPairs, e: (string, Arg))
  {
    exists i, j :: 0 <= i < |fields| && 0 <= j < |DjangoFilters| && e.0 == fields[i] + DjangoFilters[j]
      && Get(query, e.0).Some? && e.1 == FilterValue(DjangoFilters[j], Get(query, e.0).value)
  }

  lemma {:induction false} FieldEntriesMeaning(field: string, query: QueryPairs, j: nat, e: (string, Arg))
    requires j <= |DjangoFilters|
    ensures e in FieldEntries(field, query, j) ==>
      exists k :: 0 <= k < j && e.0 == field + DjangoFilters[k] && Get(query, e.0).Some? && e.1 == FilterValue(DjangoFilters[k], Get(query, e.0).value)
    ensures forall k :: 0 <= k < j && Get(query, field + DjangoFilters[k]).Some? ==>
      exists v :: (field + DjangoFilters[k], v) in FieldEntries(field, query, j)
  {
    if j > 0 {
      FieldEntriesMeaning(field, query, j - 1, e);
      var name := field + DjangoFilters[j - 1];
      var here := match Get(query, name) case None => [] case Some(v) => [(name, FilterValue(DjangoFilters[j - 1], v))];
      assert FieldEntries(field, query, j) == FieldEntries(field, query, j - 1) + here;
      forall k | 0 <= k < j && Get(query, field + DjangoFilters[k]).Some?
        ensures exists v :: (field + DjangoFilters[k], v) in FieldEntries(field, query, j)
      {
        if k < j - 1 {
          var v :| (field + DjangoFilters[k], v) in FieldEntries(field, query, j - 1);
          assert (field + DjangoFilters[k], v) in FieldEntries(field, query, j);
        } else {
          var v := FilterValue(DjangoFilters[j - 1], Get(query, name).value);
          assert (name, v) in FieldEntries(field, query, j);
        }
      }
    }
  }

  /** Every store comes from a field and suffix the request carries, and every such pair is stored. */
  lemma {:induction false} EntriesMeaning(fields: seq<string>, query: QueryPairs, e: (string, Arg))
    ensures e in Entries(fields, query) ==> IsEntry(fields, query, e)
    ensures forall i, j :: 0 <= i < |fields| && 0 <= j < |DjangoFilters| && Get(query, fields[i] + DjangoFilters[j]).Some? ==>
      exists v :: (fields[i] + DjangoFilters[j], v) in Entries(fields, query)
  {
    if fields != [] {
      var init := fields[..|fields| - 1];
      var last := fields[|fields| - 1];
      EntriesMeaning(init, query, e);
      FieldEntriesMeaning(last, query, |DjangoFilters|, e);
      if e in Entries(fields, query) {
        if e in Entries(init, query) {
          var i, j :| 0 <= i < |init| && 0 <= j < |DjangoFilters| && e.0 == init[i] + DjangoFilters[j]
            && Get(query, e.0).Some? && e.1 == FilterValue(DjangoFilters[j], Get(query, e.0).value);
          assert e.0 == fields[i] + DjangoFilters[j];
        } else {
          assert e in FieldEntries(last, query, |DjangoFilters|);
          var k :| 0 <= k < |DjangoFilters| && e.0 == last + DjangoFilters[k] && Get(query, e.0).Some? && e.1 == FilterValue(DjangoFilters[k], Get(query, e.0).value);
          assert e.0 == fields[|fields| - 1] + DjangoFilters[k];
        }
      }
      forall i, j | 0 <= i < |fields| && 0 <= j < |DjangoFilters| && Get(query, fields[i] + DjangoFilters[j]).Some?
        ensures exists v :: (fields[i] + DjangoFilters[j], v) in Entries(fields, query)
      {
        if i < |fields| - 1 {
          assert fields[i] == init[i];
          var v :| (init[i] + DjangoFilters[j], v) in Entries(init, query);
          assert (fields[i] + DjangoFilters[j], v) in Entries(fields, query);
        } else {
          var v :| (last + DjangoFilters[j], v) in FieldEntries(last, query, |DjangoFilters|);
          assert (fields[i] + DjangoFilters[j], v) in Entries(fields, query);
        }
      }
    }
  }

  /** A name present before a setting is present after it. */
  lemma DictSetKeepsName(d: Params, key: string, value: Arg, e: (string, Arg))
    requires e in d
    ensures exists v :: (e.0, v) in DictSet(d, key, value)
  {
    if e.0 == key {
      assert (key, value) in DictSet(d, key, value);
    } else {
      var i :| 0 <= i < |d| && d[i] == e;
      assert e in DictSet(d, key, value);
    }
  }

  /** The dictionary holds each stored name once, with a value that was stored for it. */
  lemma DictOfMeaning(entries: Params)
    ensures DistinctKeys(DictOf(entries))
    ensures forall e :: e in DictOf(entries) ==> e in entries
    ensures forall e :: e in entries ==> exists v :: (e.0, v) in DictOf(entries)
  {
    DictOfDistinct(entries);
    DictOfSound(entries);
    DictOfComplete(entries);
  }

  lemma {:induction false} DictOfDistinct(entries: Params)
    ensures DistinctKeys(DictOf(entries))
  {
    if entries != [] {
      var init := entries[..|entries| - 1];
      var last := entries[|entries| - 1];
      DictOfDistinct(init);
      DictSetDistinct(DictOf(init), last.0, last.1);
    }
  }

  lemma {:induction false} DictOfSound(entries: Params)
    ensures forall e :: e in DictOf(entries) ==> e in entries
  {
    if entries != [] {
      var init := entries[..|entries| - 1];
      var last := entries[|entries| - 1];
      DictOfSound(init);
      assert DictOf(entries) == DictSet(DictOf(init), last.0, last.1);
      assert forall e :: e in init ==> e in entries;
    }
  }

  lemma {:induction false} DictOfComplete(entries: Params)
    ensures forall e :: e in entries ==> exists v :: (e.0, v) in DictOf(entries)
  {
    if entries != [] {
      var init := entries[..|entries| - 1];
      var last := entries[|entries| - 1];
      DictOfComplete(init);
      var d := DictOf(init);
      assert DictOf(entries) == DictSet(d, last.0, last.1);
      forall e | e in entries
        ensures exists v :: (e.0, v) in DictOf(entries)
      {
        if e == last {
          assert (last.0, last.1) in DictOf(entries);
        } else {
          assert e in init by {
            var i :| 0 <= i < |entries| && entries[i] == e;
            assert i < |entries| - 1 && init[i] == e;
          }
          var v :| (e.0, v) in d;
          DictSetKeepsName(d, last.0, last.1, (e.0, v));
        }
      }
    }
  }

  /**
   * What `filtering_params` holds: distinct names; each one a field with a
   * suffix that the request carries, mapped to that value as stored; and
   * every field-with-suffix the request carries is present.
   */
  lemma FilteringParamsMeaning(filterFields: seq<string>, query: QueryPairs)
    ensures DistinctKeys(FilteringParams(filterFields, query))
    ensures forall e :: e in FilteringParams(filterFields, query) ==> IsEntry(filterFields, query, e)
    ensures forall i, j :: 0 <= i < |filterFields| && 0 <= j < |DjangoFilters| && Get(query, filterFields[i] + DjangoFilters[j]).Some? ==>
      exists v :: (filterFields[i] + DjangoFilters[j], v) in FilteringParams(filterFields, query)
  {
    var entries := Entries(filterFields, query);
    DictOfMeaning(entries);
    forall e | e in FilteringParams(filterFields, query)
      ensures IsEntry(filterFields, query, e)
    {
      EntriesMeaning(filterFields, query, e);
    }
    forall i, j | 0 <= i < |filterFields| && 0 <= j < |DjangoFilters| && Get(query, filterFields[i] + DjangoFilters[j]).Some?
      ensures exists v :: (filterFields[i] + DjangoFilters[j], v) in FilteringParams(filterFields, query)
    {
      EntriesMeaning(filterFields, query, (filterFields[i] + DjangoFilters[j], Text("")));
      var v :| (filterFields[i] + DjangoFilters[j], v) in entries;
    }
  }

  /**
   * One store of the inner loop: the raw value, replaced by its comma split
   * for `__in`, then by a boolean if it reads "true" or "false".
   */
  method StoreFilterValue(filteringParams: Params, dFilter: string, filterName: string, raw: string)
    returns (updated: Params)
    ensures updated == DictSet(filteringParams, filterName, FilterValue(dFilter, raw))
  {
    updated := DictSet(filteringParams, filterName, Text(raw));
    if dFilter == "__in" {
      DictSetTwice(filteringParams, filterName, Text(raw), Texts(Split(Strip(raw), ',')));
      updated := DictSet(updated, filterName, Texts(Split(Strip(raw), ',')));
    }
    ghost var stored := if dFilter == "__in" then Texts(Split(Strip(raw), ',')) else Text(raw);
    DictSetGet(filteringParams, filterName, stored, filterName);
    if DictGet(updated, filterName) == Some(Text("true")) {
      DictSetTwice(filteringParams, filterName, stored, Flag(true));
      updated := DictSet(updated, filterName, Flag(true));
    }
    if DictGet(updated, filterName) == Some(Text("false")) {
      DictSetTwice(filteringParams, filterName, stored, Flag(false));
      updated := DictSet(updated, filterName, Flag(false));
    }
    DictSetGet(filteringParams, filterName, Flag(true), filterName);
  }

  lemma FieldEntriesStep(field: string, query: QueryPairs, j: nat)
    requires j < |DjangoFilters|
    ensures var name := field + DjangoFilters[j];
      FieldEntries(field, query, j + 1) ==
        if Get(query, name).Some? then FieldEntries(field, query, j) + [(name, FilterValue(DjangoFilters[j], Get(query, name).value))]
        else FieldEntries(field, query, j)
  {
    var name := field + DjangoFilters[j];
    if Get(query, name).None? {
      assert FieldEntries(field, query, j) + [] == FieldEntries(field, query, j);
    }
  }

  lemma DictFoldSnoc(d: Params, entries: Params, e: (string, Arg))
    ensures DictFold(d, entries + [e]) == DictSet(DictFold(d, entries), e.0, e.1)
  {
    assert (entries + [e])[..|entries|] == entries;
  }

  /** The inner loop: the stores for one field, suffix by suffix. */
  method StoreFieldFilters(filteringParams: Params, field: string, query: QueryPairs) returns (updated: Params)
    ensures updated == DictFold(filteringParams, FieldEntries(field, query, |DjangoFilters|))
  {
    updated := filteringParams;
    for j := 0 to |DjangoFilters|
      invariant updated == DictFold(filteringParams, FieldEntries(field, query, j))
    {
      var dFilter := DjangoFilters[j];
      var filterName := field + dFilter;
      var filteringParamValue := Get(query, filterName);
      FieldEntriesStep(field, query, j);
      if filteringParamValue.Some? {
        var raw := filteringParamValue.value;
        DictFoldSnoc(filteringParams, FieldEntries(field, query, j), (filterName, FilterValue(dFilter, raw)));
        updated := StoreFilterValue(updated, dFilter, filterName, raw);
      }
    }
  }

  /** The nested loops that fill `filtering_params`. */
  method BuildFilteringParams(filterFields: seq<string>, query: QueryPairs) returns (filteringParams: Params)
    ensures filteringParams == FilteringParams(filterFields, query)
  {
    filteringParams := [];
    assert filterFields[..0] == [];
    for i := 0 to |filterFields|
      invariant filteringParams == DictOf(Entries(filterFields[..i], query))
    {
      filteringParams := StoreFieldFilters(filteringParams, filterFields[i], query);
      assert filterFields[..i + 1][..i] == filterFields[..i];
      DictFoldAppend([], Entries(filterFields[..i], query), FieldEntries(filterFields[i], query, |DjangoFilters|));
    }
    assert filterFields[..|filterFields|] == filterFields;
  }

  /** The dictionary's pairs as lookups, in dictionary order. */
  function DictLookups(d: Params): (r: seq<Lookup>)
    ensures |r| == |d|
    ensures forall i :: 0 <= i < |d| ==> r[i] == Lookup(d[i].0, d[i].1)
  {
    seq(|d|, i requires 0 <= i < |d| => Lookup(d[i].0, d[i].1))
  }

  lemma DictLookupsSnoc(d: Params, i: int)
    requires 0 <= i < |d|
    ensures DictLookups(d[..i + 1]) == DictLookups(d[..i]) + [Lookup(d[i].0, d[i].1)]
  {
    var a := DictLookups(d[..i + 1]);
    var b := DictLookups(d[..i]) + [Lookup(d[i].0, d[i].1)];
    assert |a| == |b|;
    forall k | 0 <= k < |a|
      ensures a[k] == b[k]
    {
      assert d[..i + 1][k] == d[k];
      if k < i {
        assert d[..i][k] == d[k];
      }
    }
  }

  /** The loop that applies each stored filter in turn. */
  method ApplyFieldFilters<R>(items: seq<R>, filteringParams: Params, holds: (R, Lookup) -> bool) returns (filtered: seq<R>)
    ensures filtered == Filter(items, DictLookups(filteringParams), holds)
  {
    filtered := items;
    FilterNothing(items, holds);
    for i := 0 to |filteringParams|
      invariant filtered == Filter(items, DictLookups(filteringParams[..i]), holds)
    {
      var lookup := Lookup(filteringParams[i].0, filteringParams[i].1);
      FilterCompose(items, DictLookups(filteringParams[..i]), [lookup], holds);
      filtered := Filter(filtered, [lookup], holds);
      DictLookupsSnoc(filteringParams, i);
    }
    assert filteringParams[..|filteringParams|] == filteringParams;
  }
}
