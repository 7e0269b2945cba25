/**
 * Output formats and content negotiation (utils.py `get_format`,
 * `content_type_from_format`): a `?f=` override wins verbatim; otherwise the
 * Accept header of section 5.3.2 of RFC 7231 is read entry by entry, the
 * entries are ordered by quality (a stable sort, so equal qualities keep
 * header order) and the first entry naming an accepted MIME type, or the
 * wildcard, decides.
 */
module Formats {
  import opened PyStr

  const FormatJson := "json"
  const FormatGeoJson := "geojson"
  const FormatHtml := "html"
  const FormatJsonLd := "jsonld"
  const FormatXml := "xml"

  /** Short format token to MIME type. */
  const FormatTypes: map<string, string> := map[
    FormatHtml := "text/html",
    FormatJsonLd := "application/ld+json",
    FormatJson := "application/json",
    FormatGeoJson := "application/geo+json",
    FormatXml := "text/xml"
  ]

  /** MIME type back to short format token. */
  const FormatTypesReverse: map<string, string> := map[
    "text/html" := FormatHtml,
    "application/ld+json" := FormatJsonLd,
    "application/json" := FormatJson,
    "application/geo+json" := FormatGeoJson,
    "text/xml" := FormatXml
  ]

  const Wildcard := "*/*"

  /** The two tables are each other's inverse. */
  lemma ReverseInvertsTypes()
    ensures forall f :: f in FormatTypes ==> FormatTypes[f] in FormatTypesReverse && FormatTypesReverse[FormatTypes[f]] == f
    ensures forall m :: m in FormatTypesReverse ==> FormatTypesReverse[m] in FormatTypes && FormatTypes[FormatTypesReverse[m]] == m
  {
  }

  /**
   * `content_type_from_format`: the MIME type of a known format; for an
   * unknown format or none at all, the token "json", which is not a MIME type.
   */
  function ContentTypeFromFormat(format: Option<string>): (r: string)
    ensures r in FormatTypesReverse <==> format.Some? && format.value in FormatTypes
    ensures r in FormatTypesReverse ==> FormatTypesReverse[r] == format.value
    ensures r !in FormatTypesReverse ==> r == FormatJson
  {
    if format.None? || format.value !in FormatTypes then FormatJson
    else FormatTypes[format.value]
  }

  /** One Accept-header entry: where it stood, its quality, its raw MIME text. */
  datatype Candidate = Candidate(position: nat, q: real, value: string)

  /** The MIME part of an entry: everything before its first `;`, untrimmed. */
  function MimeOf(entry: string): string
  {
    Split(entry, ';')[0]
  }

  /**
   * The quality of one entry; None where the source's parse raises (a `q`
   * parameter with no `=`, or a value `float()` rejects).
   */
  function Quality(entry: string, parseFloat: string -> Option<real>): (q: Option<real>)
  {
    var parts := Split(entry, ';');
    if |parts| == 1 then Some(1.0)
    else if |parts| == 2 && 'q' in parts[1] then
      var pair := Split(parts[1], '=');
      if |pair| < 2 then None else parseFloat(pair[1])
    else Some(1.0)
  }

  /**
   * An entry without `;`, with two or more `;`, or whose one parameter does
   * not mention `q` has quality 1.0.
   */
  lemma QualityDefaults(entry: string, parseFloat: string -> Option<real>)
    ensures ';' !in entry ==> Quality(entry, parseFloat) == Some(1.0)
    ensures |Split(entry, ';')| >= 3 ==> Quality(entry, parseFloat) == Some(1.0)
    ensures |Split(entry, ';')| == 2 && 'q' !in Split(entry, ';')[1] ==> Quality(entry, parseFloat) == Some(1.0)
  {
    SplitCountsSeparator(entry, ';');
  }

  /** The parsed header, or None when any entry's quality fails to parse. */
  function Candidates(entries: seq<string>, parseFloat: string -> Option<real>): Option<seq<Candidate>>
  {
    if forall k :: 0 <= k < |entries| ==> Quality(entries[k], parseFloat).Some? then
      Some(seq(|entries|, k requires 0 <= k < |entries| =>
        Candidate(k, Quality(entries[k], parseFloat).value, MimeOf(entries[k]))))
    else None
  }

  /** A candidate the negotiation stops at: an accepted MIME type or the wildcard. */
  predicate Matches(c: Candidate, types: seq<string>)
  {
    c.value in types || c.value == Wildcard
  }

  /**
   * Reference definition of the winner: the index of the matching candidate
   * of highest quality, the earliest one among equals.
   */
  function BestIndex(cs: seq<Candidate>, types: seq<string>): (r: Option<nat>)
    ensures r.Some? ==> r.value < |cs| && Matches(cs[r.value], types)
    ensures r.None? ==> forall j :: 0 <= j < |cs| ==> !Matches(cs[j], types)
    ensures r.Some? ==> forall j :: 0 <= j < |cs| && Matches(cs[j], types) ==> cs[j].q <= cs[r.value].q
    ensures r.Some? ==> forall j :: 0 <= j < r.value && Matches(cs[j], types) ==> cs[j].q < cs[r.value].q
  {
    if cs == [] then None
    else
      var rest := BestIndex(cs[1..], types);
      if Matches(cs[0], types) && (rest.None? || cs[1..][rest.value].q <= cs[0].q) then Some(0)
      else if rest.Some? then Some(rest.value + 1)
      else None
  }

  /** Insertion step of the stable sort: `c` goes before the first entry of no greater quality. */
  function Insert(c: Candidate, s: seq<Candidate>): (r: seq<Candidate>)
    ensures |r| == |s| + 1
    ensures multiset(r) == multiset(s) + multiset{c}
  {
    if s == [] then [c]
    else if s[0].q > c.q then
      assert s == [s[0]] + s[1..];
      [s[0]] + Insert(c, s[1..])
    else [c] + s
  }

  /** `sorted(accept_order, key=q, reverse=True)`. */
  function SortByQuality(cs: seq<Candidate>): (r: seq<Candidate>)
    ensures |r| == |cs|
  {
    if cs == [] then [] else Insert(cs[0], SortByQuality(cs[1..]))
  }

  ghost predicate Descending(s: seq<Candidate>)
  {
    forall i, j :: 0 <= i < j < |s| ==> s[i].q >= s[j].q
  }

  /** Quality descending, and header position ascending among equal qualities. */
  ghost predicate PriorityOrdered(s: seq<Candidate>)
  {
    forall i, j :: 0 <= i < j < |s| ==> Above(s[i], s[j])
  }

  /** `a` comes before `b` in the sorted header. */
  ghost predicate Above(a: Candidate, b: Candidate)
  {
    a.q > b.q || (a.q == b.q && a.position < b.position)
  }

  ghost predicate PositionsIncreasing(s: seq<Candidate>)
  {
    forall i, j :: 0 <= i < j < |s| ==> s[i].position < s[j].position
  }

  lemma {:induction false} InsertDescending(c: Candidate, s: seq<Candidate>)
    requires Descending(s)
    ensures Descending(Insert(c, s))
  {
    if s != [] && s[0].q > c.q {
      InsertDescending(c, s[1..]);
      var r := Insert(c, s[1..]);
      forall k | 0 <= k < |r|
        ensures s[0].q >= r[k].q
      {
        InsertFrom(c, s[1..], k);
      }
      assert Insert(c, s) == [s[0]] + r;
    } else if s != [] {
      forall j | 0 <= j < |s|
        ensures c.q >= s[j].q
      {
        if j > 0 {
          assert s[0].q >= s[j].q;
        }
      }
      assert Insert(c, s) == [c] + s;
    }
  }

  /** Every entry after an insertion is the inserted one or an entry from before. */
  lemma InsertFrom(c: Candidate, s: seq<Candidate>, k: int)
    requires 0 <= k < |Insert(c, s)|
    ensures Insert(c, s)[k] == c || exists m :: 0 <= m < |s| && s[m] == Insert(c, s)[k]
  {
    var x := Insert(c, s)[k];
    if x != c {
      assert x in multiset(Insert(c, s));
      assert x in multiset(s);
    }
  }

  /** The sort orders by quality and loses or adds no entry. */
  lemma {:induction false} SortDescending(cs: seq<Candidate>)
    ensures Descending(SortByQuality(cs))
    ensures multiset(SortByQuality(cs)) == multiset(cs)
  {
    if cs != [] {
      SortDescending(cs[1..]);
      InsertDescending(cs[0], SortByQuality(cs[1..]));
      assert cs == [cs[0]] + cs[1..];
    }
  }

  lemma {:induction false} InsertStable(c: Candidate, s: seq<Candidate>)
    requires PriorityOrdered(s)
    requires forall x :: x in s ==> c.position < x.position
    ensures PriorityOrdered(Insert(c, s))
  {
    if s != [] && s[0].q > c.q {
      InsertStable(c, s[1..]);
      var r := Insert(c, s[1..]);
      forall k | 0 <= k < |r|
        ensures Above(s[0], r[k])
      {
        InsertFrom(c, s[1..], k);
      }
      assert Insert(c, s) == [s[0]] + r;
    } else if s != [] {
      forall j | 0 <= j < |s|
        ensures Above(c, s[j])
      {
        if j > 0 {
          assert Above(s[0], s[j]);
        }
      }
      assert Insert(c, s) == [c] + s;
    }
  }

  /**
   * The sort is stable: over entries numbered in header order, equal
   * qualities keep that order.
   */
  lemma {:induction false} SortStable(cs: seq<Candidate>)
    requires PositionsIncreasing(cs)
    ensures PriorityOrdered(SortByQuality(cs))
  {
    if cs != [] {
      SortStable(cs[1..]);
      SortDescending(cs[1..]);
      var s := SortByQuality(cs[1..]);
      forall x | x in s
        ensures cs[0].position < x.position
      {
        assert x in multiset(s);
        var m :| 0 <= m < |cs[1..]| && cs[1..][m] == x;
        assert cs[m + 1] == x;
      }
      InsertStable(cs[0], s);
    }
  }

  /** The loop over the sorted list: the first matching candidate. */
  function FirstMatch(s: seq<Candidate>, types: seq<string>): (r: Option<Candidate>)
    ensures r.Some? ==> r.value in s && Matches(r.value, types)
    ensures r.None? ==> forall j :: 0 <= j < |s| ==> !Matches(s[j], types)
  {
    if s == [] then None
    else if Matches(s[0], types) then Some(s[0])
    else FirstMatch(s[1..], types)
  }

  lemma {:induction false} InsertFirstMatch(c: Candidate, s: seq<Candidate>, types: seq<string>)
    requires Descending(s)
    ensures var m := FirstMatch(s, types);
      FirstMatch(Insert(c, s), types) ==
        if Matches(c, types) && (m.None? || m.value.q <= c.q) then Some(c) else m
  {
    if s != [] {
      if s[0].q > c.q {
        assert Insert(c, s)[1..] == Insert(c, s[1..]);
        if !Matches(s[0], types) {
          InsertFirstMatch(c, s[1..], types);
        }
      } else {
        assert Insert(c, s)[1..] == s;
        var m := FirstMatch(s, types);
        if m.Some? {
          var k :| 0 <= k < |s| && s[k] == m.value;
          assert s[0].q >= s[k].q;
        }
      }
    }
  }

  /**
   * Scanning the sorted header for the first match finds exactly the
   * reference winner: highest quality, earliest among equals.
   */
  lemma {:induction false} SortedFirstMatchIsBest(cs: seq<Candidate>, types: seq<string>)
    ensures var b := BestIndex(cs, types);
      FirstMatch(SortByQuality(cs), types) == if b.None? then None else Some(cs[b.value])
  {
    if cs != [] {
      SortedFirstMatchIsBest(cs[1..], types);
      SortDescending(cs[1..]);
      InsertFirstMatch(cs[0], SortByQuality(cs[1..]), types);
    }
  }

  /** `accepted_formats_types`: the MIME type of each accepted format. */
  function AcceptedTypes(accepted: seq<string>): (types: seq<string>)
    requires forall i :: 0 <= i < |accepted| ==> accepted[i] in FormatTypes
    ensures |types| == |accepted|
    ensures forall i :: 0 <= i < |accepted| ==> types[i] == FormatTypes[accepted[i]]
    ensures forall i :: 0 <= i < |accepted| ==> types[i] in FormatTypesReverse && FormatTypesReverse[types[i]] == accepted[i]
  {
    ReverseInvertsTypes();
    seq(|accepted|, i requires 0 <= i < |accepted| => FormatTypes[accepted[i]])
  }

  /** What the winning candidate turns into. */
  function Chosen(c: Candidate, accepted: seq<string>): (r: string)
    requires |accepted| > 0 && forall i :: 0 <= i < |accepted| ==> accepted[i] in FormatTypes
    requires Matches(c, AcceptedTypes(accepted))
    ensures r in accepted
    ensures c.value in AcceptedTypes(accepted) ==> FormatTypes[r] == c.value
    ensures c.value !in AcceptedTypes(accepted) ==> r == accepted[0]
  {
    ReverseInvertsTypes();
    if c.value in AcceptedTypes(accepted) then FormatTypesReverse[c.value] else accepted[0]
  }

  /**
   * The format `get_format` settles on: the override verbatim; None without
   * override and header; the first accepted format when a quality fails to
   * parse; otherwise the reference winner, or None when nothing matches.
   */
  function Negotiate(f: Option<string>, accept: Option<string>, accepted: seq<string>,
                     parseFloat: string -> Option<real>): (r: Option<string>)
    requires |accepted| > 0 && forall i :: 0 <= i < |accepted| ==> accepted[i] in FormatTypes
    ensures f.Some? ==> r == f
    ensures f.None? && accept.None? ==> r.None?
    ensures f.None? && r.Some? ==> r.value in accepted
    ensures f.None? && accept.Some? && Candidates(Split(Strip(accept.value), ','), parseFloat).None? ==> r == Some(accepted[0])
  {
    if f.Some? then f
    else if accept.None? then None
    else
      match Candidates(Split(Strip(accept.value), ','), parseFloat)
      case None => Some(accepted[0])
      case Some(cs) =>
        var b := BestIndex(cs, AcceptedTypes(accepted));
        if b.None? then None else Some(Chosen(cs[b.value], accepted))
  }

  /**
   * The first loop of `get_format`: number the entries and read their
   * qualities; None where the source bails out to its first accepted format.
   */
  method ReadCandidates(split: seq<string>, parseFloat: string -> Option<real>)
    returns (order: Option<seq<Candidate>>)
    ensures order == Candidates(split, parseFloat)
  {
    var acc: seq<Candidate> := [];
    for index := 0 to |split|
      invariant forall k :: 0 <= k < index ==> Quality(split[k], parseFloat).Some?
      invariant acc == seq(index, k requires 0 <= k < index =>
        Candidate(k, Quality(split[k], parseFloat).value, MimeOf(split[k])))
    {
      var valueSplit := Split(split[index], ';');
      var q: real;
      if |valueSplit| == 1 {
        q := 1.0;
      } else if |valueSplit| == 2 && 'q' in valueSplit[1] {
        var pair := Split(valueSplit[1], '=');
        if |pair| < 2 {
          return None;
        }
        var parsed := parseFloat(pair[1]);
        if parsed.None? {
          return None;
        }
        q := parsed.value;
      } else {
        q := 1.0;
      }
      acc := acc + [Candidate(index, q, valueSplit[0])];
    }
    return Some(acc);
  }

  /** The second loop of `get_format`: walk the sorted list until a match. */
  method ScanSorted(order: seq<Candidate>, accepted: seq<string>) returns (format: Option<string>)
    requires |accepted| > 0 && forall i :: 0 <= i < |accepted| ==> accepted[i] in FormatTypes
    ensures var m := FirstMatch(order, AcceptedTypes(accepted));
      format == if m.None? then None else Some(Chosen(m.value, accepted))
  {
    var acceptedTypes := AcceptedTypes(accepted);
    format := None;
    var i := 0;
    while i < |order|
      invariant 0 <= i <= |order|
      invariant FirstMatch(order[i..], acceptedTypes) == FirstMatch(order, acceptedTypes)
    {
      if order[i].value in acceptedTypes {
        ReverseInvertsTypes();
        return Some(FormatTypesReverse[order[i].value]);
      } else if order[i].value == Wildcard {
        return Some(accepted[0]);
      }
      assert order[i..][1..] == order[i + 1..];
      i := i + 1;
    }
  }

  /** `get_format`: the override, else the Accept header read, sorted and scanned. */
  method GetFormat(f: Option<string>, accept: Option<string>, accepted: seq<string>,
                   parseFloat: string -> Option<real>) returns (format: Option<string>)
    requires |accepted| > 0 && forall i :: 0 <= i < |accepted| ==> accepted[i] in FormatTypes
    ensures format == Negotiate(f, accept, accepted, parseFloat)
  {
    format := f;
    if format.None? && accept.Some? {
      var split := Split(Strip(accept.value), ',');
      var order := ReadCandidates(split, parseFloat);
      if order.None? {
        return Some(accepted[0]);
      }
      SortedFirstMatchIsBest(order.value, AcceptedTypes(accepted));
      format := ScanSorted(SortByQuality(order.value), accepted);
    }
  }
}
