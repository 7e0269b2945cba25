/**
 * The record store as the handler sees it (utils.py `filter`,
 * `filter_by_dict`, `filter_datetime`, `filter_bbox`, `paginate`). A
 * collection's records are a sequence; a filter is a list of lookups
 * (a Django keyword such as `name__gte` with its argument), whose meaning
 * on a record is a parameter `holds` of the model. Lookups are ANDed.
 */
module Store {
  import opened PyStr
  import opened Interval

  /** The arguments the handler passes to lookups. */
  datatype Arg =
    | Text(text: string)
    | Flag(flag: bool)
    | Texts(texts: seq<string>)
    | Instant(instant: DateTime)
    | Box(coords: seq<real>)
    | Number(number: int)

  datatype Lookup = Lookup(key: string, arg: Arg)

  /** A record satisfies every lookup of the list. */
  predicate Admits<R>(rec: R, lookups: seq<Lookup>, holds: (R, Lookup) -> bool)
  {
    forall i :: 0 <= i < |lookups| ==> holds(rec, lookups[i])
  }

  /** `items.filter(**lookups)`: the records admitted by all lookups, in order. */
  function Filter<R>(items: seq<R>, lookups: seq<Lookup>, holds: (R, Lookup) -> bool): (r: seq<R>)
    ensures |r| <= |items|
    ensures forall x :: x in r ==> x in items && Admits(x, lookups, holds)
    ensures forall x :: x in items && Admits(x, lookups, holds) ==> x in r
  {
    if items == [] then []
    else (if Admits(items[0], lookups, holds) then [items[0]] else []) + Filter(items[1..], lookups, holds)
  }

  /** An empty lookup list filters nothing out. */
  lemma {:induction false} FilterNothing<R>(items: seq<R>, holds: (R, Lookup) -> bool)
    ensures Filter(items, [], holds) == items
  {
    if items != [] {
      FilterNothing(items[1..], holds);
      assert [items[0]] + items[1..] == items;
    }
  }

  /** Filtering twice is filtering once by both lists of lookups. */
  lemma {:induction false} FilterCompose<R>(items: seq<R>, first: seq<Lookup>, second: seq<Lookup>, holds: (R, Lookup) -> bool)
    ensures Filter(Filter(items, first, holds), second, holds) == Filter(items, first + second, holds)
  {
    if items != [] {
      FilterCompose(items[1..], first, second, holds);
      var x := items[0];
      assert Admits(x, first + second, holds) <==> Admits(x, first, holds) && Admits(x, second, holds) by {
        if Admits(x, first, holds) && Admits(x, second, holds) {
          forall i | 0 <= i < |first + second|
            ensures holds(x, (first + second)[i])
          {
            if i >= |first| {
              assert (first + second)[i] == second[i - |first|];
            }
          }
        }
        if Admits(x, first + second, holds) {
          forall i | 0 <= i < |first|
            ensures holds(x, first[i])
          {
            assert (first + second)[i] == first[i];
          }
          forall i | 0 <= i < |second|
            ensures holds(x, second[i])
          {
            assert (first + second)[|first| + i] == second[i];
          }
        }
      }
      var rest := Filter(items[1..], first, holds);
      if Admits(x, first, holds) {
        assert Filter(items, first, holds) == [x] + rest;
        assert ([x] + rest)[1..] == rest;
      } else {
        assert Filter(items, first, holds) == rest;
      }
    }
  }

  /**
   * `filter_datetime`'s lookup dictionary: `{field}__gte` for a present
   * start and `{field}__lte` for a present end, nothing else.
   */
  function FilterDatetime(startDate: Option<DateTime>, endDate: Option<DateTime>, datetimeField: string): (r: seq<Lookup>)
    ensures forall l :: l in r ==>
      || (startDate.Some? && l == Lookup(datetimeField + "__gte", Instant(startDate.value)))
      || (endDate.Some? && l == Lookup(datetimeField + "__lte", Instant(endDate.value)))
    ensures startDate.Some? ==> Lookup(datetimeField + "__gte", Instant(startDate.value)) in r
    ensures endDate.Some? ==> Lookup(datetimeField + "__lte", Instant(endDate.value)) in r
  {
    (if startDate.Some? then [Lookup(datetimeField + "__gte", Instant(startDate.value))] else [])
    + (if endDate.Some? then [Lookup(datetimeField + "__lte", Instant(endDate.value))] else [])
  }

  /** With neither bound, the datetime filter keeps every record. */
  lemma FilterDatetimeUnbounded<R>(items: seq<R>, datetimeField: string, holds: (R, Lookup) -> bool)
    ensures Filter(items, FilterDatetime(None, None, datetimeField), holds) == items
  {
    FilterNothing(items, holds);
  }

  /**
   * `filter_bbox`'s lookups: none without a geometry filter field; else the
   * single key `{path}__within`, where the dotted path of a related field
   * becomes Django's `__` path.
   */
  function FilterBbox(coords: seq<real>, geometryFilterField: Option<string>): (r: seq<Lookup>)
    ensures geometryFilterField.None? ==> r == []
    ensures geometryFilterField.Some? ==>
      && r == [Lookup(Join(Split(geometryFilterField.value, '.'), "__") + "__within", Box(coords))]
      && '.' !in r[0].key
  {
    match geometryFilterField
    case None => []
    case Some(field) =>
      var geomFieldName := if '.' in field then Replace(field, '.', "__") else field;
      ReplaceIsSplitJoin(field, '.', "__");
      [Lookup(geomFieldName + "__within", Box(coords))]
  }

  /** What `paginate` returns: the page, `number_returned`, `number_matched`. */
  datatype Page<R> = Page(items: seq<R>, returned: nat, matched: nat)

  function Min(a: int, b: int): int
  {
    if a <= b then a else b
  }

  /**
   * `paginate`: the offset is clamped down to the count, the limit cut to
   * what is left, and the records sliced. None where the queryset slice
   * raises (a negative start or stop); a stop before the start gives an
   * empty page.
   */
  function Paginate<R>(items: seq<R>, limit: Option<int>, offset: int): (r: Option<Page<R>>)
    ensures r.None? <==> offset < 0 || (limit.Some? && Min(offset, |items|) + limit.value < 0)
    ensures r.Some? ==>
      var o := Min(offset, |items|);
      && r.value.matched == |items|
      && r.value.returned == |r.value.items| <= r.value.matched
      && o + r.value.returned <= |items|
      && r.value.items == items[o..o + r.value.returned]
      && (limit.None? ==> r.value.returned == |items| - o)
      && (limit.Some? && limit.value >= 0 ==> r.value.returned == Min(limit.value, |items| - o))
  {
    var numberMatched := |items|;
    var o := if numberMatched < offset then numberMatched else offset;
    match limit
    case None =>
      if o < 0 then None else Some(Page(items[o..], numberMatched - o, numberMatched))
    case Some(l) =>
      var cut := if o + l > numberMatched then numberMatched - o else l;
      var stop := o + cut;
      if o < 0 || stop < 0 then None
      else if stop <= o then Some(Page([], 0, numberMatched))
      else Some(Page(items[o..stop], stop - o, numberMatched))
  }

  /**
   * Consecutive pages join up: the page at `offset` followed by the page at
   * `offset + limit` is the page of twice the limit at `offset`. So a next
   * link continues exactly where the current page ends.
   */
  lemma PaginateConsecutive<R>(items: seq<R>, limit: nat, offset: nat)
    ensures Paginate(items, Some(limit), offset).value.items + Paginate(items, Some(limit), offset + limit).value.items
      == Paginate(items, Some(2 * limit), offset).value.items
  {
    var n := |items|;
    var o := Min(offset, n);
    var a := Paginate(items, Some(limit), offset).value;
    var b := Paginate(items, Some(limit), offset + limit).value;
    var c := Paginate(items, Some(2 * limit), offset).value;
    var m := Min(offset + limit, n);
    assert a.items == items[o..m];
    assert b.items == items[m..Min(offset + 2 * limit, n)];
    assert c.items == items[o..Min(offset + 2 * limit, n)];
  }
}
