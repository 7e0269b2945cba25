/**
 * The query-string editor (utils.py `replace_or_create_param`,
 * `replace_param`, and the path/params split of `deconstruct_url`). A
 * parameter string is cut at every `&` into segments; a segment's name is
 * the text before its first `=`, its value everything after that `=`.
 * Editing a parameter rewrites the piece after the first `=` of every
 * segment with that name, keeping any later `=` pieces.
 */
module QueryString {
  import opened PyStr

  /** The name of a segment: the text before its first `=`. */
  function Name(segment: string): string
  {
    Split(segment, '=')[0]
  }

  /**
   * One pass of the editing loop: a segment named `param` gets its value
   * piece replaced; None where that segment has no `=` (the source's
   * `param_split[1] = replacement` raises IndexError). Other segments are
   * split on `=` and joined back.
   */
  function EditSegment(segment: string, param: string, replacement: string): Option<string>
  {
    var pair := Split(segment, '=');
    if param == pair[0] then
      if |pair| < 2 then None else Some(Join(pair[1 := replacement], "="))
    else Some(Join(pair, "="))
  }

  /** The whole loop: every segment edited in turn, or None if an edit raises. */
  function EditAll(segments: seq<string>, param: string, replacement: string): Option<seq<string>>
  {
    if segments == [] then Some([])
    else
      match EditAll(segments[..|segments| - 1], param, replacement)
      case None => None
      case Some(init) =>
        match EditSegment(segments[|segments| - 1], param, replacement)
        case None => None
        case Some(last) => Some(init + [last])
  }

  /** The loop succeeds iff every segment's edit does, and then edits each segment in place. */
  lemma {:induction false} EditAllMeaning(segments: seq<string>, param: string, replacement: string)
    ensures EditAll(segments, param, replacement).Some?
      <==> forall i :: 0 <= i < |segments| ==> EditSegment(segments[i], param, replacement).Some?
    ensures EditAll(segments, param, replacement).Some? ==>
      && |EditAll(segments, param, replacement).value| == |segments|
      && forall i :: 0 <= i < |segments| ==>
           EditAll(segments, param, replacement).value[i] == EditSegment(segments[i], param, replacement).value
  {
    if segments != [] {
      var n := |segments|;
      var init := segments[..n - 1];
      EditAllMeaning(init, param, replacement);
      assert forall i :: 0 <= i < n - 1 ==> init[i] == segments[i];
    }
  }

  /** Some segment carries the name `param`. */
  predicate HasParam(segments: seq<string>, param: string)
  {
    exists i :: 0 <= i < |segments| && Name(segments[i]) == param
  }

  /**
   * `replace_or_create_param`: replace every `param` segment's value; if
   * there is none, append `param=replacement`, preceded by `&` only when the
   * string already holds an `&`. None where the source raises.
   */
  function Upsert(paramString: string, param: string, replacement: string): Option<string>
  {
    var segments := Split(paramString, '&');
    match EditAll(segments, param, replacement)
    case None => None
    case Some(edited) =>
      var joined := Join(edited, "&");
      if HasParam(segments, param) then Some(joined)
      else Some(joined + (if '&' in joined then "&" else "") + param + "=" + replacement)
  }

  /** `replace_param`: the same edit, never appending. */
  function ReplaceOnly(paramString: string, param: string, replacement: string): (r: Option<string>)
    ensures HasParam(Split(paramString, '&'), param) ==> r == Upsert(paramString, param, replacement)
  {
    match EditAll(Split(paramString, '&'), param, replacement)
    case None => None
    case Some(edited) => Some(Join(edited, "&"))
  }

  /** `replace_or_create_param`, with its loop over the segments. */
  method ReplaceOrCreateParam(paramString: string, param: string, replacement: string)
    returns (result: Option<string>)
    ensures result == Upsert(paramString, param, replacement)
  {
    var newParamString := "";
    var splitParams := Split(paramString, '&');
    var paramsList: seq<string> := [];
    var found := false;
    for i := 0 to |splitParams|
      invariant forall k :: 0 <= k < i ==> EditSegment(splitParams[k], param, replacement).Some?
      invariant paramsList == seq(i, k requires 0 <= k < i => EditSegment(splitParams[k], param, replacement).value)
      invariant found <==> HasParam(splitParams[..i], param)
    {
      var paramSplit := Split(splitParams[i], '=');
      if param == paramSplit[0] {
        found := true;
        if |paramSplit| < 2 {
          EditAllMeaning(splitParams, param, replacement);
          return None;
        }
        paramSplit := paramSplit[1 := replacement];
      }
      paramsList := paramsList + [Join(paramSplit, "=")];
      assert splitParams[..i + 1][i] == splitParams[i];
      assert forall k :: 0 <= k < i ==> splitParams[..i + 1][k] == splitParams[..i][k];
    }
    assert splitParams[..|splitParams|] == splitParams;
    EditAllIs(splitParams, param, replacement, paramsList);
    newParamString := newParamString + Join(paramsList, "&");
    assert newParamString == Join(paramsList, "&");
    if !found {
      var prefix := if '&' in newParamString then "&" else "";
      newParamString := newParamString + prefix + param + "=" + replacement;
    }
    return Some(newParamString);
  }

  /** `replace_param`, with its loop over the segments. */
  method ReplaceParam(paramString: string, param: string, replacement: string)
    returns (result: Option<string>)
    ensures result == ReplaceOnly(paramString, param, replacement)
  {
    var newParamString := "";
    var splitParams := Split(paramString, '&');
    var paramsList: seq<string> := [];
    for i := 0 to |splitParams|
      invariant forall k :: 0 <= k < i ==> EditSegment(splitParams[k], param, replacement).Some?
      invariant paramsList == seq(i, k requires 0 <= k < i => EditSegment(splitParams[k], param, replacement).value)
    {
      var paramSplit := Split(splitParams[i], '=');
      if param == paramSplit[0] {
        if |paramSplit| < 2 {
          EditAllMeaning(splitParams, param, replacement);
          return None;
        }
        paramSplit := paramSplit[1 := replacement];
      }
      paramsList := paramsList + [Join(paramSplit, "=")];
    }
    EditAllIs(splitParams, param, replacement, paramsList);
    newParamString := newParamString + Join(paramsList, "&");
    assert newParamString == Join(paramsList, "&");
    return Some(newParamString);
  }

  /** A list holding each segment's successful edit is what `EditAll` returns. */
  lemma EditAllIs(segments: seq<string>, param: string, replacement: string, edited: seq<string>)
    requires |edited| == |segments|
    requires forall k :: 0 <= k < |segments| ==> EditSegment(segments[k], param, replacement) == Some(edited[k])
    ensures EditAll(segments, param, replacement) == Some(edited)
  {
    assert forall k :: 0 <= k < |segments| ==> EditSegment(segments[k], param, replacement).Some?;
    EditAllMeaning(segments, param, replacement);
    var r := EditAll(segments, param, replacement).value;
    assert forall k :: 0 <= k < |r| ==> r[k] == edited[k];
    assert r == edited;
  }

  /**
   * What editing does to one segment: others come back unchanged; a named
   * one fails exactly when it has no `=`, and otherwise keeps its name and
   * every piece but the value, which becomes the replacement.
   */
  lemma EditSegmentMeaning(segment: string, param: string, replacement: string)
    ensures Name(segment) != param ==> EditSegment(segment, param, replacement) == Some(segment)
    ensures Name(segment) == param ==> (EditSegment(segment, param, replacement).Some? <==> '=' in segment)
    ensures Name(segment) == param && '=' in segment && '=' !in replacement ==>
      Split(EditSegment(segment, param, replacement).value, '=') == Split(segment, '=')[1 := replacement]
    ensures '&' !in segment && '&' !in replacement && EditSegment(segment, param, replacement).Some? ==>
      '&' !in EditSegment(segment, param, replacement).value
  {
    var pair := Split(segment, '=');
    JoinSplit(segment, '=');
    SplitCountsSeparator(segment, '=');
    if '&' !in segment {
      SplitPiecesAvoid(segment, '=', '&');
      if '&' !in replacement && |pair| >= 2 {
        JoinAvoids(pair[1 := replacement], "=", '&');
      }
    }
    if Name(segment) == param && |pair| >= 2 && '=' !in replacement {
      SplitJoin(pair[1 := replacement], '=');
    }
  }

  /** Editing without a segment of that name changes nothing. */
  lemma EditAllAbsent(segments: seq<string>, param: string, replacement: string)
    requires !HasParam(segments, param)
    ensures EditAll(segments, param, replacement) == Some(segments)
  {
    forall i | 0 <= i < |segments|
      ensures EditSegment(segments[i], param, replacement) == Some(segments[i])
    {
      EditSegmentMeaning(segments[i], param, replacement);
    }
    EditAllIs(segments, param, replacement, segments);
  }

  /**
   * The value of a segment as Django's `QueryDict` reads it: everything
   * after the first `=` (`split('=', 1)`), "" for a segment without one.
   */
  function SegmentValue(segment: string): string
  {
    Join(Split(segment, '=')[1..], "=")
  }

  /**
   * The value `request.GET` gives for `key`: that of the last segment so
   * named, None when no segment has that name.
   */
  function ValueIn(segments: seq<string>, key: string): Option<string>
  {
    if segments == [] then None
    else if Name(segments[|segments| - 1]) == key then Some(SegmentValue(segments[|segments| - 1]))
    else ValueIn(segments[..|segments| - 1], key)
  }

  function ValueOf(paramString: string, key: string): Option<string>
  {
    ValueIn(Split(paramString, '&'), key)
  }

  /** A key can be read exactly when some segment carries that name. */
  lemma {:induction false} ValueInPresent(segments: seq<string>, key: string)
    ensures ValueIn(segments, key).Some? <==> HasParam(segments, key)
  {
    if segments != [] {
      var init := segments[..|segments| - 1];
      ValueInPresent(init, key);
      if HasParam(init, key) {
        var i :| 0 <= i < |init| && Name(init[i]) == key;
        assert segments[i] == init[i];
      }
      if HasParam(segments, key) && Name(segments[|segments| - 1]) != key {
        var i :| 0 <= i < |segments| && Name(segments[i]) == key;
        assert init[i] == segments[i];
      }
    }
  }

  /**
   * What an edited value reads as: the edit rewrites only the piece before
   * the value's own first `=`, so whatever follows that `=` stays.
   */
  function ReplaceFirstPiece(value: string, replacement: string): string
  {
    Join([replacement] + Split(value, '=')[1..], "=")
  }

  /** The replacement takes the place of the value's text up to its first `=`. */
  lemma ReplaceFirstPieceMeaning(value: string, replacement: string)
    ensures |Split(value, '=')[0]| <= |value|
      && ReplaceFirstPiece(value, replacement) == replacement + value[|Split(value, '=')[0]|..]
    ensures '=' !in value ==> ReplaceFirstPiece(value, replacement) == replacement
    ensures '=' in value ==> '=' in ReplaceFirstPiece(value, replacement)
  {
    if '=' !in value {
      ReplaceFirstPieceWhole(value, replacement);
    } else {
      ReplaceFirstPieceTail(value, replacement);
      var r := ReplaceFirstPiece(value, replacement);
      assert r[|replacement|] == value[|Split(value, '=')[0]|];
    }
  }

  /** A value without `=` is replaced whole. */
  lemma ReplaceFirstPieceWhole(value: string, replacement: string)
    requires '=' !in value
    ensures Split(value, '=') == [value]
    ensures ReplaceFirstPiece(value, replacement) == replacement
  {
    SplitNoSeparator(value, '=');
    assert [replacement] + Split(value, '=')[1..] == [replacement];
  }

  /** A value with `=` keeps everything from its first `=` on. */
  lemma ReplaceFirstPieceTail(value: string, replacement: string)
    requires '=' in value
    ensures |Split(value, '=')[0]| < |value| && value[|Split(value, '=')[0]|] == '='
    ensures ReplaceFirstPiece(value, replacement) == replacement + value[|Split(value, '=')[0]|..]
  {
    var pieces := Split(value, '=');
    SplitCountsSeparator(value, '=');
    JoinSplit(value, '=');
    var rest := pieces[1..];
    assert value == pieces[0] + "=" + Join(rest, "=");
    assert ([replacement] + rest)[1..] == rest;
    assert ReplaceFirstPiece(value, replacement) == replacement + "=" + Join(rest, "=");
  }

  /** The value a key reads as after the key is set to `replacement`. */
  function NewValue(previous: Option<string>, replacement: string): string
  {
    if previous.None? then replacement else ReplaceFirstPiece(previous.value, replacement)
  }

  /** An edited segment's value is its old value with the first piece replaced. */
  lemma EditedSegmentValue(segment: string, param: string, replacement: string)
    requires Name(segment) == param && '=' in segment && '=' !in replacement
    ensures EditSegment(segment, param, replacement).Some?
    ensures SegmentValue(EditSegment(segment, param, replacement).value) == ReplaceFirstPiece(SegmentValue(segment), replacement)
  {
    var pair := Split(segment, '=');
    SplitCountsSeparator(segment, '=');
    var edited := pair[1 := replacement];
    SplitJoin(edited, '=');
    assert edited[1..] == [replacement] + pair[2..];
    SplitJoin(pair[1..], '=');
    assert pair[1..][1..] == pair[2..];
  }

  /**
   * After a successful edit, `param` reads as its old value with the piece
   * before that value's first `=` replaced, and every other key reads as
   * before.
   */
  lemma {:induction false} EditedValues(segments: seq<string>, param: string, replacement: string, key: string)
    requires EditAll(segments, param, replacement).Some?
    requires '=' !in replacement
    ensures HasParam(segments, param) ==>
      ValueIn(segments, param).Some? &&
      ValueIn(EditAll(segments, param, replacement).value, param) == Some(ReplaceFirstPiece(ValueIn(segments, param).value, replacement))
    ensures key != param ==> ValueIn(EditAll(segments, param, replacement).value, key) == ValueIn(segments, key)
  {
    ValueInPresent(segments, param);
    if segments != [] {
      var n := |segments|;
      var init := segments[..n - 1];
      var last := segments[n - 1];
      EditAllSnoc(segments, param, replacement);
      var editedInit := EditAll(init, param, replacement).value;
      var editedLast := EditSegment(last, param, replacement).value;
      assert segments == init + [last];
      EditedValues(init, param, replacement, key);
      if Name(last) == param {
        EditSegmentMeaning(last, param, replacement);
        SplitCountsSeparator(last, '=');
        EditedSegmentValue(last, param, replacement);
        assert Name(editedLast) == param;
        ValueInSnoc(editedInit, editedLast, param);
        ValueInSnoc(editedInit, editedLast, key);
        ValueInSnoc(init, last, key);
        ValueInSnoc(init, last, param);
      } else {
        EditSegmentMeaning(last, param, replacement);
        assert editedLast == last;
        ValueInSnoc(editedInit, last, key);
        ValueInSnoc(init, last, key);
        if HasParam(segments, param) {
          var i :| 0 <= i < n && Name(segments[i]) == param;
          assert i < n - 1 && Name(init[i]) == param;
          ValueInSnoc(editedInit, last, param);
          ValueInSnoc(init, last, param);
        }
      }
    }
  }

  /** Editing a list with one more segment edits the shorter list and that segment. */
  lemma EditAllSnoc(segments: seq<string>, param: string, replacement: string)
    requires segments != [] && EditAll(segments, param, replacement).Some?
    ensures var init := segments[..|segments| - 1];
      && EditAll(init, param, replacement).Some?
      && EditSegment(segments[|segments| - 1], param, replacement).Some?
      && EditAll(segments, param, replacement).value
         == EditAll(init, param, replacement).value + [EditSegment(segments[|segments| - 1], param, replacement).value]
  {
  }

  /** The reader looks at the last segment first. */
  lemma ValueInSnoc(segments: seq<string>, last: string, key: string)
    ensures ValueIn(segments + [last], key)
      == if Name(last) == key then Some(SegmentValue(last)) else ValueIn(segments, key)
  {
    assert (segments + [last])[..|segments|] == segments;
  }

  /** Appending a well-formed segment makes it the one a reader sees. */
  lemma AppendedValue(segments: seq<string>, param: string, replacement: string, key: string)
    requires '=' !in param && '=' !in replacement
    ensures ValueIn(segments + [param + "=" + replacement], param) == Some(replacement)
    ensures key != param ==> ValueIn(segments + [param + "=" + replacement], key) == ValueIn(segments, key)
  {
    var s := segments + [param + "=" + replacement];
    SplitConcat(param, replacement, '=');
    SplitNoSeparator(param, '=');
    SplitNoSeparator(replacement, '=');
    assert param + "=" + replacement == param + ['='] + replacement;
    assert Split(param + "=" + replacement, '=')[1..] == [replacement];
    assert s[..|s| - 1] == segments;
  }

  /** `replace_or_create_param("", p, r)` is `p=r`. */
  lemma UpsertEmpty(param: string, replacement: string)
    requires param != ""
    ensures Upsert("", param, replacement) == Some(param + "=" + replacement)
  {
    assert Split("", '&') == [""];
    assert !HasParam([""], param) by {
      assert Name("") == "";
    }
    UpsertAppends("", param, replacement);
    assert "" + "" + param + "=" + replacement == param + "=" + replacement;
  }

  /**
   * Without a segment of that name, the pair is appended to the unchanged
   * string, with `&` in between only when the string already holds one.
   */
  lemma UpsertAppends(paramString: string, param: string, replacement: string)
    requires !HasParam(Split(paramString, '&'), param)
    ensures Upsert(paramString, param, replacement) ==
      Some(paramString + (if '&' in paramString then "&" else "") + param + "=" + replacement)
  {
    EditAllAbsent(Split(paramString, '&'), param, replacement);
    JoinSplit(paramString, '&');
  }

  /**
   * So a non-empty string with a single segment gets the new pair glued on
   * without a separator, and the new parameter cannot be read back: the
   * glued segment still carries the old name.
   */
  lemma {:induction false} UpsertGlues(paramString: string, param: string, replacement: string)
    requires paramString != "" && '&' !in paramString
    requires Name(paramString) != param
    ensures Upsert(paramString, param, replacement) == Some(paramString + param + "=" + replacement)
    ensures '=' in paramString && '&' !in param && '&' !in replacement ==>
      ValueOf(paramString + param + "=" + replacement, param) == None
  {
    SplitNoSeparator(paramString, '&');
    assert !HasParam([paramString], param);
    UpsertAppends(paramString, param, replacement);
    assert paramString + "" + param + "=" + replacement == paramString + param + "=" + replacement;
    if '=' in paramString && '&' !in param && '&' !in replacement {
      GluedUnreadable(paramString, param, replacement);
    }
  }

  /** The pair glued onto a named segment is not readable under its own name. */
  lemma GluedUnreadable(paramString: string, param: string, replacement: string)
    requires '=' in paramString && '&' !in paramString && '&' !in param && '&' !in replacement
    requires Name(paramString) != param
    ensures ValueOf(paramString + param + "=" + replacement, param) == None
  {
    GluedName(paramString, param + "=" + replacement);
    var s := paramString + param + "=" + replacement;
    assert '&' !in s;
    assert s == paramString + (param + "=" + replacement);
    SplitNoSeparator(s, '&');
    assert Split(s, '=')[0] != param;
    assert [s][..0] == [];
    assert ValueIn([s], param) == ValueIn([], param);
  }

  /** Text glued after a segment holding `=` does not change its name. */
  lemma {:induction false} GluedName(segment: string, tail: string)
    requires '=' in segment
    ensures Name(segment + tail) == Name(segment)
  {
    var i :| 0 <= i < |segment| && segment[i] == '=';
    var before := segment[..i];
    var after := segment[i + 1..];
    assert segment == before + ['='] + after;
    assert segment + tail == before + ['='] + (after + tail);
    SplitConcat(before, after, '=');
    SplitConcat(before, after + tail, '=');
  }

  /** The concrete case: `replace_or_create_param("a=1", "p", "r")` is "a=1p=r". */
  lemma UpsertGluesExample()
    ensures Upsert("a=1", "p", "r") == Some("a=1p=r")
    ensures ValueOf("a=1p=r", "p") == None
  {
    assert Name("a=1") == "a" by {
      SplitConcat("a", "1", '=');
      SplitNoSeparator("a", '=');
      SplitNoSeparator("1", '=');
      assert "a=1" == "a" + ['='] + "1";
    }
    assert '=' in "a=1" by {
      assert "a=1"[1] == '=';
    }
    UpsertGlues("a=1", "p", "r");
    GluedLiteral();
  }

  lemma GluedLiteral()
    ensures "a=1" + "p" + "=" + "r" == "a=1p=r"
  {
    var glued := "a=1" + "p" + "=" + "r";
    assert |glued| == 6;
    forall i | 0 <= i < 6
      ensures glued[i] == "a=1p=r"[i]
    {
    }
  }

  /** The string a successful edit or append reads as, for the lemmas below. */
  ghost predicate ReadsAs(before: string, after: string, param: string, replacement: string)
  {
    && ValueOf(after, param) == Some(NewValue(ValueOf(before, param), replacement))
    && ('&' in before ==> '&' in after)
    && forall key :: key != param && key != "" ==> ValueOf(after, key) == ValueOf(before, key)
  }

  /**
   * Round trip: when the string is empty, already has the parameter, or
   * already holds an `&`, the edited string reads back the replacement for
   * a new `param` (for an existing one, its old value with the piece before
   * the first `=` replaced) and the old value for every other (non-empty)
   * key, and an `&` in the input survives.
   */
  lemma UpsertReads(paramString: string, param: string, replacement: string)
    requires param != "" && '=' !in param && '&' !in param
    requires '=' !in replacement && '&' !in replacement
    requires HasParam(Split(paramString, '&'), param) || '&' in paramString || paramString == ""
    requires Upsert(paramString, param, replacement).Some?
    ensures ReadsAs(paramString, Upsert(paramString, param, replacement).value, param, replacement)
  {
    if HasParam(Split(paramString, '&'), param) {
      UpsertReadsPresent(paramString, param, replacement);
    } else if paramString == "" {
      UpsertReadsEmpty(param, replacement);
    } else {
      UpsertReadsAppended(paramString, param, replacement);
    }
  }

  lemma UpsertReadsPresent(paramString: string, param: string, replacement: string)
    requires '=' !in replacement && '&' !in replacement
    requires HasParam(Split(paramString, '&'), param)
    requires Upsert(paramString, param, replacement).Some?
    ensures ReadsAs(paramString, Upsert(paramString, param, replacement).value, param, replacement)
  {
    var segments := Split(paramString, '&');
    EditAllMeaning(segments, param, replacement);
    var edited := EditAll(segments, param, replacement).value;
    var s := Join(edited, "&");
    assert Upsert(paramString, param, replacement).value == s;
    forall i | 0 <= i < |edited|
      ensures '&' !in edited[i]
    {
      EditSegmentMeaning(segments[i], param, replacement);
    }
    SplitJoin(edited, '&');
    assert Split(s, '&') == edited;
    SplitCountsSeparator(paramString, '&');
    SplitCountsSeparator(s, '&');
    forall key | key != param
      ensures ValueOf(s, key) == ValueOf(paramString, key)
    {
      EditedValues(segments, param, replacement, key);
    }
    EditedValues(segments, param, replacement, param);
    ValueInPresent(segments, param);
  }

  lemma UpsertReadsEmpty(param: string, replacement: string)
    requires param != "" && '=' !in param && '&' !in param
    requires '=' !in replacement && '&' !in replacement
    ensures Upsert("", param, replacement).Some? && ReadsAs("", Upsert("", param, replacement).value, param, replacement)
  {
    UpsertEmpty(param, replacement);
    var s := param + "=" + replacement;
    assert '&' !in s;
    SplitNoSeparator(s, '&');
    assert Split("", '&') == [""];
    AppendedValue([], param, replacement, param);
    assert [] + [s] == [s];
    assert Split("", '=') == [""] && [""][..0] == [];
    assert ValueOf("", param) == ValueIn([""], param) == None;
    forall key | key != param && key != ""
      ensures ValueOf(s, key) == ValueOf("", key)
    {
      AppendedValue([], param, replacement, key);
      assert ValueOf("", key) == ValueIn([""], key);
      assert Split("", '=') == [""];
      assert [""][..0] == [];
    }
  }

  lemma UpsertReadsAppended(paramString: string, param: string, replacement: string)
    requires '=' !in param && '&' !in param
    requires '=' !in replacement && '&' !in replacement
    requires !HasParam(Split(paramString, '&'), param) && '&' in paramString
    ensures Upsert(paramString, param, replacement).Some?
    ensures ReadsAs(paramString, Upsert(paramString, param, replacement).value, param, replacement)
  {
    var segments := Split(paramString, '&');
    UpsertAppends(paramString, param, replacement);
    var pair := param + "=" + replacement;
    var s := paramString + ['&'] + pair;
    assert Upsert(paramString, param, replacement).value == s;
    assert '&' !in pair;
    SplitConcat(paramString, pair, '&');
    SplitNoSeparator(pair, '&');
    assert Split(s, '&') == segments + [pair];
    forall key | key != param
      ensures ValueOf(s, key) == ValueOf(paramString, key)
    {
      AppendedValue(segments, param, replacement, key);
    }
    AppendedValue(segments, param, replacement, param);
    ValueInPresent(segments, param);
  }

  /** `replace_param` leaves a string without the parameter as it was. */
  lemma ReplaceOnlyAbsent(paramString: string, param: string, replacement: string)
    requires !HasParam(Split(paramString, '&'), param)
    ensures ReplaceOnly(paramString, param, replacement) == Some(paramString)
  {
    EditAllAbsent(Split(paramString, '&'), param, replacement);
    JoinSplit(paramString, '&');
  }

  /** `replace_param` never changes the number of `&`-segments. */
  lemma ReplaceOnlyKeepsSegments(paramString: string, param: string, replacement: string)
    requires '&' !in replacement
    requires ReplaceOnly(paramString, param, replacement).Some?
    ensures |Split(ReplaceOnly(paramString, param, replacement).value, '&')| == |Split(paramString, '&')|
  {
    var segments := Split(paramString, '&');
    EditAllMeaning(segments, param, replacement);
    var edited := EditAll(segments, param, replacement).value;
    forall i | 0 <= i < |edited|
      ensures '&' !in edited[i]
    {
      EditSegmentMeaning(segments[i], param, replacement);
    }
    SplitJoin(edited, '&');
  }

  /**
   * The path/params split of `deconstruct_url`: the path is the text before
   * the first `?`; the parameters are the remaining pieces glued together
   * (further `?` characters are dropped).
   */
  function DeconstructPath(fullPath: string): (r: (string, string))
    ensures '?' !in r.0 && '?' !in r.1
  {
    var parts := Split(fullPath, '?');
    JoinAvoids(parts[1..], "", '?');
    (parts[0], if |parts| > 1 then Join(parts[1..], "") else "")
  }

  /**
   * The path and parameters together are the full path with every `?`
   * removed; with exactly one `?`, they are the two sides of it.
   */
  lemma DeconstructPathRestores(fullPath: string)
    ensures var (path, params) := DeconstructPath(fullPath);
      && path + params == Replace(fullPath, '?', "")
      && (|Split(fullPath, '?')| == 2 ==> fullPath == path + "?" + params)
      && ('?' !in fullPath ==> path == fullPath && params == "")
  {
    var parts := Split(fullPath, '?');
    ReplaceIsSplitJoin(fullPath, '?', "");
    JoinSplit(fullPath, '?');
    SplitCountsSeparator(fullPath, '?');
  }
}
