/**
 * `process_datetime_interval` (utils.py): the `datetime` query parameter,
 * either one date-time or an interval `A/B`, `../B`, `A/..`. Date-time
 * parsing (`datetime.fromisoformat`) is a parameter of the model: a partial
 * parser returning None where Python raises.
 */
module Interval {
  import opened PyStr

  /** The fields of a Python `datetime`. */
  datatype DateTime = DateTime(
    year: int, month: int, day: int,
    hour: int, minute: int, second: int, microsecond: int,
    utcOffsetMinutes: Option<int>)

  /** The token for an open end of an interval. */
  const OpenEnd := ".."

  /** One side of the interval: None for `..`, else the parse (None on failure). */
  function Bound(part: string, parseIso: string -> Option<DateTime>): Option<DateTime>
  {
    if part == OpenEnd then None else parseIso(part)
  }

  /**
   * The interval's (start, end). Every failure is swallowed: a first side
   * that does not parse leaves both ends None, a missing or unparsable
   * second side leaves the end None, and pieces after a second `/` are
   * never looked at.
   */
  function ProcessDatetimeInterval(s: string, parseIso: string -> Option<DateTime>): (r: (Option<DateTime>, Option<DateTime>))
    ensures r.0.Some? ==> r.0 == parseIso(Split(s, '/')[0])
    ensures r.1.Some? ==> |Split(s, '/')| >= 2 && r.1 == parseIso(Split(s, '/')[1])
  {
    var datesSplit := Split(s, '/');
    if datesSplit[0] != OpenEnd && parseIso(datesSplit[0]).None? then (None, None)
    else
      var startDate := Bound(datesSplit[0], parseIso);
      if |datesSplit| < 2 then (startDate, None)
      else (startDate, Bound(datesSplit[1], parseIso))
  }

  /** A single date-time gives (its parse, None). */
  lemma SingleInstant(s: string, parseIso: string -> Option<DateTime>)
    requires '/' !in s
    ensures ProcessDatetimeInterval(s, parseIso) == (Bound(s, parseIso), None)
  {
    SplitNoSeparator(s, '/');
  }

  /** `A/B`, `../B` and `A/..`: each side read on its own, if the start is usable. */
  lemma TwoSided(a: string, b: string, parseIso: string -> Option<DateTime>)
    requires '/' !in a && '/' !in b
    requires a == OpenEnd || parseIso(a).Some?
    ensures ProcessDatetimeInterval(a + "/" + b, parseIso) == (Bound(a, parseIso), Bound(b, parseIso))
  {
    SplitTwo(a, b);
  }

  /** An unparsable start discards the whole interval, whatever follows. */
  lemma StartFails(a: string, rest: string, parseIso: string -> Option<DateTime>)
    requires '/' !in a && a != OpenEnd && parseIso(a).None?
    ensures ProcessDatetimeInterval(a, parseIso) == (None, None)
    ensures ProcessDatetimeInterval(a + "/" + rest, parseIso) == (None, None)
  {
    SplitNoSeparator(a, '/');
    assert a + "/" + rest == a + ['/'] + rest;
    SplitConcat(a, rest, '/');
  }

  /** Only the first two pieces count: `A/B/C` reads as `A/B`. */
  lemma IgnoresTail(a: string, b: string, c: string, parseIso: string -> Option<DateTime>)
    requires '/' !in a && '/' !in b
    ensures ProcessDatetimeInterval(a + "/" + b + "/" + c, parseIso) == ProcessDatetimeInterval(a + "/" + b, parseIso)
  {
    SplitTwo(a, b);
    var whole := a + "/" + b + "/" + c;
    assert whole == a + ['/'] + (b + ['/'] + c);
    SplitConcat(a, b + ['/'] + c, '/');
    SplitConcat(b, c, '/');
    SplitNoSeparator(a, '/');
    SplitNoSeparator(b, '/');
  }

  lemma SplitTwo(a: string, b: string)
    requires '/' !in a && '/' !in b
    ensures Split(a + "/" + b, '/') == [a, b]
  {
    assert a + "/" + b == a + ['/'] + b;
    SplitConcat(a, b, '/');
    SplitNoSeparator(a, '/');
    SplitNoSeparator(b, '/');
  }
}
