/**
 * `SamzaRestConfig` of samza-rest: the comma-separated class lists, the
 * monitor interval and the job installations path of the REST service,
 * read from its configuration.
 */
module SamzaRestConfigs {
  import opened Common

  const ResourceFactoriesKey: string := "rest.resource.factory.classes"
  const ResourceClassesKey: string := "rest.resource.classes"
  const MonitorClassListKey: string := "monitor.class.list"
  const MonitorIntervalKey: string := "monitor.run.interval.ms"
  const InstallationsPathKey: string := "job.installations.path"
  const DefaultMonitorInterval: int := 60000

  // ---------------------------------------------------------------------
  // `String.split("\\s*,\\s*")`

  /** A character of the regular-expression class `\s`. */
  predicate IsWhitespace(c: char)
  {
    c == ' ' || c == '\t' || c == '\n' || c == '\U{B}' || c == '\U{C}' || c == '\r'
  }

  predicate AllWhitespace(s: string)
  {
    forall i :: 0 <= i < |s| ==> IsWhitespace(s[i])
  }

  predicate NoComma(s: string)
  {
    forall i :: 0 <= i < |s| ==> s[i] != ','
  }

  /** The text between the commas of `s`, in order (a string without commas is one piece). */
  function RawPieces(s: string): (r: seq<string>)
    ensures |r| > 0
  {
    if s == [] then [""]
    else
      var rest := RawPieces(s[1..]);
      if s[0] == ',' then [""] + rest else [[s[0]] + rest[0]] + rest[1..]
  }

  /** `t` without the whitespace it starts with. */
  function TrimStart(t: string): string
  {
    if t != [] && IsWhitespace(t[0]) then TrimStart(t[1..]) else t
  }

  /** `t` without the whitespace it ends with. */
  function TrimEnd(t: string): string
  {
    if t != [] && IsWhitespace(t[|t| - 1]) then TrimEnd(t[..|t| - 1]) else t
  }

  /**
   * The raw pieces that follow a comma: each loses the whitespace after
   * its comma, and each but the last the whitespace before the next one.
   */
  function TrimAfterCommas(raw: seq<string>): (r: seq<string>)
    requires |raw| > 0
    ensures |r| == |raw|
  {
    if |raw| == 1 then [TrimStart(raw[0])] else [TrimEnd(TrimStart(raw[0]))] + TrimAfterCommas(raw[1..])
  }

  /**
   * The pieces between the matches of `\\s*,\\s*`, trailing empty pieces
   * included: the whitespace on both sides of every comma goes with it.
   */
  function Pieces(s: string): (r: seq<string>)
    ensures |r| == |RawPieces(s)|
  {
    var raw := RawPieces(s);
    if |raw| == 1 then raw else [TrimEnd(raw[0])] + TrimAfterCommas(raw[1..])
  }

  /** `pieces` without its trailing empty strings. */
  function DropTrailingEmpty(pieces: seq<string>): (r: seq<string>)
    ensures |r| <= |pieces| && r == pieces[..|r|]
    ensures |r| > 0 ==> r[|r| - 1] != ""
    ensures forall i :: |r| <= i < |pieces| ==> pieces[i] == ""
  {
    if pieces == [] || pieces[|pieces| - 1] != "" then pieces
    else DropTrailingEmpty(pieces[..|pieces| - 1])
  }

  /**
   * `s.split("\\s*,\\s*")`: the whole string when it has no comma (even
   * when it is empty), else the pieces without the trailing empty ones.
   */
  function Split(s: string): (r: seq<string>)
    ensures NoComma(s) ==> r == [s]
    ensures !NoComma(s) ==> r == DropTrailingEmpty(Pieces(s))
  {
    if NoComma(s) then [s] else DropTrailingEmpty(Pieces(s))
  }

  /** A string that is empty or does not start with whitespace. */
  predicate StartsClean(s: string)
  {
    s == [] || !IsWhitespace(s[0])
  }

  /** A string that is empty or does not end with whitespace. */
  predicate EndsClean(s: string)
  {
    s == [] || !IsWhitespace(s[|s| - 1])
  }

  /** No piece has whitespace on a side that faces a comma. */
  predicate InnerEdgesClean(r: seq<string>)
  {
    (forall i :: 0 < i < |r| ==> StartsClean(r[i]))
    && (forall i :: 0 <= i < |r| - 1 ==> EndsClean(r[i]))
  }

  // Facts about the pieces of one string.

  /** A comma-free string before `b` becomes the start of `b`'s first piece. */
  lemma {:induction false} RawPiecesFront(a: string, b: string)
    requires NoComma(a)
    ensures RawPieces(a + b) == [a + RawPieces(b)[0]] + RawPieces(b)[1..]
    decreases |a|
  {
    if a != [] {
      assert (a + b)[0] == a[0] && a[0] != ',';
      assert (a + b)[1..] == a[1..] + b;
      assert NoComma(a[1..]) by {
        assert forall i :: 0 <= i < |a| - 1 ==> a[1..][i] == a[i + 1];
      }
      RawPiecesFront(a[1..], b);
      AppendAssociative([a[0]], a[1..], RawPieces(b)[0]);
      assert [a[0]] + a[1..] == a;
    } else {
      var r := RawPieces(b);
      assert a + b == b && a + r[0] == r[0];
      assert [r[0]] + r[1..] == r;
    }
  }

  lemma RawPiecesComma(b: string)
    ensures RawPieces("," + b) == [""] + RawPieces(b)
  {
    assert ("," + b)[1..] == b;
  }

  lemma RawPiecesOfCommaFree(a: string)
    requires NoComma(a)
    ensures RawPieces(a) == [a]
  {
    RawPiecesFront(a, "");
    assert a + "" == a;
  }

  /** The raw pieces have no commas. */
  lemma {:induction false} RawPiecesAreCommaFree(s: string)
    ensures forall i :: 0 <= i < |RawPieces(s)| ==> NoComma(RawPieces(s)[i])
    decreases |s|
  {
    if s != [] {
      RawPiecesAreCommaFree(s[1..]);
    }
  }

  lemma {:induction false} TrimStartIsSuffix(t: string)
    ensures |TrimStart(t)| <= |t| && TrimStart(t) == t[|t| - |TrimStart(t)|..]
    ensures StartsClean(TrimStart(t))
    decreases |t|
  {
    if t != [] && IsWhitespace(t[0]) {
      TrimStartIsSuffix(t[1..]);
    }
  }

  lemma {:induction false} TrimEndIsPrefix(t: string)
    ensures |TrimEnd(t)| <= |t| && TrimEnd(t) == t[..|TrimEnd(t)|]
    ensures EndsClean(TrimEnd(t))
    decreases |t|
  {
    if t != [] && IsWhitespace(t[|t| - 1]) {
      TrimEndIsPrefix(t[..|t| - 1]);
    }
  }

  /** Trimming either end keeps a string comma-free, and trimming the end keeps a clean start. */
  lemma TrimKeepsCommaFreeAndCleanStart(t: string)
    ensures NoComma(t) ==> NoComma(TrimStart(t)) && NoComma(TrimEnd(t)) && NoComma(TrimEnd(TrimStart(t)))
    ensures StartsClean(TrimEnd(TrimStart(t))) && EndsClean(TrimEnd(TrimStart(t)))
  {
    TrimStartIsSuffix(t);
    TrimEndIsPrefix(t);
    var u := TrimStart(t);
    TrimEndIsPrefix(u);
    if TrimEnd(u) != [] {
      assert TrimEnd(u)[0] == u[0];
    }
    if NoComma(t) {
      assert forall i :: 0 <= i < |u| ==> u[i] == t[|t| - |u| + i];
      assert forall i :: 0 <= i < |TrimEnd(t)| ==> TrimEnd(t)[i] == t[i];
      assert forall i :: 0 <= i < |TrimEnd(u)| ==> TrimEnd(u)[i] == u[i];
    }
  }

  /** The i-th piece after the commas: trimmed at its start, and at its end unless it is the last. */
  lemma {:induction false} TrimAfterCommasAt(raw: seq<string>, i: nat)
    requires i < |raw|
    ensures TrimAfterCommas(raw)[i] == if i == |raw| - 1 then TrimStart(raw[i]) else TrimEnd(TrimStart(raw[i]))
    decreases i
  {
    if i > 0 {
      TrimAfterCommasAt(raw[1..], i - 1);
      assert raw[1..][i - 1] == raw[i];
    }
  }

  lemma TrimAfterCommasEdges(raw: seq<string>)
    requires |raw| > 0
    requires forall i :: 0 <= i < |raw| ==> NoComma(raw[i])
    ensures forall i :: 0 <= i < |raw| ==> StartsClean(TrimAfterCommas(raw)[i]) && NoComma(TrimAfterCommas(raw)[i])
    ensures forall i :: 0 <= i < |raw| - 1 ==> EndsClean(TrimAfterCommas(raw)[i])
  {
    var r := TrimAfterCommas(raw);
    forall i | 0 <= i < |r|
      ensures StartsClean(r[i]) && NoComma(r[i]) && (i < |r| - 1 ==> EndsClean(r[i]))
    {
      TrimAfterCommasAt(raw, i);
      TrimKeepsCommaFreeAndCleanStart(raw[i]);
      TrimStartIsSuffix(raw[i]);
    }
  }

  /** Comma-free pieces without whitespace on any side that faces a comma. */
  predicate CleanPieces(r: seq<string>)
  {
    (forall i :: 0 <= i < |r| ==> NoComma(r[i])) && InnerEdgesClean(r)
  }

  /** A clean head followed by pieces that start clean keeps the pieces clean. */
  lemma CleanCons(h: string, tail: seq<string>)
    requires NoComma(h) && EndsClean(h)
    requires forall i :: 0 <= i < |tail| ==> StartsClean(tail[i]) && NoComma(tail[i])
    requires forall i :: 0 <= i < |tail| - 1 ==> EndsClean(tail[i])
    ensures CleanPieces([h] + tail)
  {
    var r := [h] + tail;
    assert forall i :: 0 < i < |r| ==> r[i] == tail[i - 1];
  }

  /** A prefix of clean pieces is clean. */
  lemma CleanPrefix(pieces: seq<string>, n: nat)
    requires n <= |pieces| && CleanPieces(pieces)
    ensures CleanPieces(pieces[..n])
  {
    assert forall i :: 0 <= i < n ==> pieces[..n][i] == pieces[i];
  }

  /** The pieces of a string with a comma are clean. */
  lemma PiecesAreClean(s: string)
    requires !NoComma(s)
    ensures CleanPieces(Pieces(s))
  {
    var raw := RawPieces(s);
    RawPiecesAreCommaFree(s);
    if |raw| == 1 {
      RawPiecesOfCommaFreeOnly(s);
    }
    var rest := raw[1..];
    assert forall i :: 0 <= i < |rest| ==> rest[i] == raw[i + 1];
    TrimAfterCommasEdges(rest);
    var tail := TrimAfterCommas(rest);
    assert NoComma(raw[0]);
    TrimEndIsPrefix(raw[0]);
    TrimKeepsCommaFreeAndCleanStart(raw[0]);
    CleanCons(TrimEnd(raw[0]), tail);
  }

  /**
   * What `split` returns holds no comma, and only the whitespace around
   * commas is removed: every item after the first starts, and every item
   * before the last ends, with something other than whitespace.
   */
  lemma SplitItemsAreTrimmedAtCommas(s: string)
    ensures forall i :: 0 <= i < |Split(s)| ==> NoComma(Split(s)[i])
    ensures InnerEdgesClean(Split(s))
  {
    if !NoComma(s) {
      PiecesAreClean(s);
      CleanPrefix(Pieces(s), |Split(s)|);
    }
  }

  /** A string with a comma has more than one raw piece. */
  lemma {:induction false} RawPiecesOfCommaFreeOnly(s: string)
    requires |RawPieces(s)| == 1
    ensures NoComma(s)
    decreases |s|
  {
    if s != [] {
      RawPiecesOfCommaFreeOnly(s[1..]);
      assert forall i :: 1 <= i < |s| ==> s[i] == s[1..][i - 1];
    }
  }

  // Splitting undoes joining.

  /** Items joined by a comma with the whitespace `left` before it and `right` after it. */
  function Join(items: seq<string>, left: string, right: string): string
    requires |items| > 0
  {
    if |items| == 1 then items[0] else items[0] + (left + ("," + (right + Join(items[1..], left, right))))
  }

  /** Items that `split` gives back from their joined text. */
  predicate SplittableItems(items: seq<string>)
  {
    |items| > 0
    && (forall i :: 0 <= i < |items| ==> items[i] != "" && NoComma(items[i]))
    && InnerEdgesClean(items)
  }

  /**
   * Splitting undoes joining: non-empty, comma-free items without
   * whitespace at the edges that face a comma come back as they were,
   * whatever whitespace surrounds the commas; whitespace at the very start
   * and the very end is kept.
   */
  lemma SplitJoinRoundTrip(items: seq<string>, left: string, right: string)
    requires SplittableItems(items) && AllWhitespace(left) && AllWhitespace(right)
    ensures Split(Join(items, left, right)) == items
  {
    if |items| == 1 {
      assert Join(items, left, right) == items[0];
    } else {
      PiecesOfJoin(items, left, right);
      assert items[|items| - 1] != "";
    }
  }

  /** Two or more joined items hold a comma, and their pieces are the items. */
  lemma PiecesOfJoin(items: seq<string>, left: string, right: string)
    requires SplittableItems(items) && |items| > 1 && AllWhitespace(left) && AllWhitespace(right)
    ensures !NoComma(Join(items, left, right)) && Pieces(Join(items, left, right)) == items
  {
    var x := items[0];
    var rest := items[1..];
    assert SplittableItems(rest) by {
      assert forall i :: 0 <= i < |rest| ==> rest[i] == items[i + 1];
    }
    var j := Join(items, left, right);
    JoinHasComma(items, left, right);
    RawPiecesOfJoin(items, left, right);
    var h := RawPieces(Join(rest, left, right));
    var raw := RawPieces(j);
    assert raw[0] == x + left && raw[1..] == [right + h[0]] + h[1..];
    TrimEndOfSuffix(x, left);
    AfterCommasOfJoin(rest, left, right);
    assert Pieces(j) == [TrimEnd(raw[0])] + TrimAfterCommas(raw[1..]);
    assert items == [x] + rest;
  }

  /** Two or more joined items hold a comma. */
  lemma JoinHasComma(items: seq<string>, left: string, right: string)
    requires |items| > 1 && NoComma(items[0]) && NoComma(left) && NoComma(right)
    ensures !NoComma(Join(items, left, right))
  {
    var j := Join(items, left, right);
    RawPiecesOfJoin(items, left, right);
    assert |RawPieces(j)| > 1;
    if NoComma(j) {
      RawPiecesOfCommaFree(j);
    }
  }

  /** The raw pieces of joined items: each item with the whitespace of the commas it faces. */
  lemma RawPiecesOfJoin(items: seq<string>, left: string, right: string)
    requires |items| > 1 && NoComma(items[0]) && NoComma(left) && NoComma(right)
    ensures var h := RawPieces(Join(items[1..], left, right));
      RawPieces(Join(items, left, right)) == [items[0] + left] + ([right + h[0]] + h[1..])
  {
    var t := Join(items[1..], left, right);
    RawPiecesFront(right, t);
    RawPiecesComma(right + t);
    RawPiecesFront(left, "," + (right + t));
    RawPiecesFront(items[0], left + ("," + (right + t)));
    AppendAssociative(items[0], left, "");
    assert left + "" == left;
  }

  /** After the first comma of joined items, the trimmed pieces are the remaining items. */
  lemma {:induction false} AfterCommasOfJoin(items: seq<string>, left: string, right: string)
    requires SplittableItems(items) && StartsClean(items[0]) && AllWhitespace(left) && AllWhitespace(right)
    ensures var h := RawPieces(Join(items, left, right));
      TrimAfterCommas([right + h[0]] + h[1..]) == items
    decreases |items|
  {
    var x := items[0];
    TrimStartOfPrefix(right, x);
    if |items| == 1 {
      RawPiecesOfCommaFree(x);
    } else {
      var rest := items[1..];
      assert SplittableItems(rest) by {
        assert forall i :: 0 <= i < |rest| ==> rest[i] == items[i + 1];
      }
      AfterCommasOfJoin(rest, left, right);
      RawPiecesOfJoin(items, left, right);
      var h' := RawPieces(Join(rest, left, right));
      AppendAssociative(right, x, left);
      TrimStartOfPrefix(right, x + left);
      TrimEndOfSuffix(x, left);
      var arg := [right + (x + left)] + ([right + h'[0]] + h'[1..]);
      assert arg[1..] == [right + h'[0]] + h'[1..];
      assert TrimAfterCommas(arg) == [x] + rest;
      assert items == [x] + rest;
    }
  }

  lemma {:induction false} TrimStartOfPrefix(w: string, t: string)
    requires AllWhitespace(w) && |t| > 0 && !IsWhitespace(t[0])
    ensures TrimStart(w + t) == t
    decreases |w|
  {
    if w == [] {
      assert w + t == t;
    } else {
      assert (w + t)[1..] == w[1..] + t;
      TrimStartOfPrefix(w[1..], t);
    }
  }

  lemma {:induction false} TrimEndOfSuffix(t: string, w: string)
    requires |t| > 0 && !IsWhitespace(t[|t| - 1]) && AllWhitespace(w)
    ensures TrimEnd(t + w) == t
    decreases |w|
  {
    if w == [] {
      assert t + w == t;
    } else {
      assert (t + w)[..|t + w| - 1] == t + w[..|w| - 1];
      TrimEndOfSuffix(t, w[..|w| - 1]);
    }
  }

  // ---------------------------------------------------------------------
  // `replaceFirst("^~", home)`

  predicate IsAsciiAlphanumeric(c: char)
  {
    'a' <= c <= 'z' || 'A' <= c <= 'Z' || '0' <= c <= '9'
  }

  /** How many ASCII letters and digits `s` starts with. */
  function GroupNameLength(s: string): (n: nat)
    ensures n <= |s|
  {
    if s == [] || !IsAsciiAlphanumeric(s[0]) then 0 else 1 + GroupNameLength(s[1..])
  }

  const EmptyGroupName: string := "named capturing group has 0 length name"
  const MissingBrace: string := "named capturing group is missing trailing '}'"
  const StartsWithDigit: string := "} starts with digit character"
  const NothingToEscape: string := "character to be escaped is missing"
  const MissingGroupIndex: string := "Illegal group reference: group index is missing"

  /** The error a `${...}` reference raises; the pattern `^~` has no named groups. */
  function NamedGroupError(afterBrace: string): (e: Exception)
    ensures e.IllegalArgumentException?
  {
    var n := GroupNameLength(afterBrace);
    var name := afterBrace[..n];
    if n == 0 then IllegalArgumentException(EmptyGroupName)
    else if n == |afterBrace| || afterBrace[n] != '}' then IllegalArgumentException(MissingBrace)
    else if IsDigit(name[0]) then IllegalArgumentException("capturing group name {" + name + StartsWithDigit)
    else IllegalArgumentException("No group with name {" + name + "}")
  }

  /** `s` without the run of '0' characters it starts with. */
  function DropZeros(s: string): (r: string)
    ensures |r| <= |s|
  {
    if s != [] && s[0] == '0' then DropZeros(s[1..]) else s
  }

  /**
   * What `Matcher.replaceFirst` inserts for the replacement string
   * `replacement` when the match is "~" and the pattern has no groups: a
   * backslash quotes the next character, `$0` (with any further zeros)
   * stands for the match, and every other `$` reference is an error.
   */
  function ExpandReplacement(replacement: string): (r: Result<string>)
    ensures r.Err? ==> r.error.IllegalArgumentException? || r.error.IndexOutOfBoundsException?
    ensures r.Ok? ==> |r.value| <= |replacement|
    decreases |replacement|
  {
    if replacement == [] then Ok([])
    else if replacement[0] == '\\' then
      if |replacement| == 1 then Err(IllegalArgumentException(NothingToEscape))
      else Prefixed([replacement[1]], ExpandReplacement(replacement[2..]))
    else if replacement[0] == '$' then
      if |replacement| == 1 then Err(IllegalArgumentException(MissingGroupIndex))
      else if replacement[1] == '{' then Err(NamedGroupError(replacement[2..]))
      else if !IsDigit(replacement[1]) then Err(IllegalArgumentException("Illegal group reference"))
      else if replacement[1] == '0' then Prefixed("~", ExpandReplacement(DropZeros(replacement[2..])))
      else Err(IndexOutOfBoundsException("No group " + [replacement[1]]))
    else Prefixed([replacement[0]], ExpandReplacement(replacement[1..]))
  }

  /** A string with neither a backslash nor a dollar sign. */
  predicate PlainReplacement(s: string)
  {
    forall i :: 0 <= i < |s| ==> s[i] != '\\' && s[i] != '$'
  }

  /** A replacement without `\` or `$` is inserted literally. */
  lemma {:induction false} PlainReplacementIsLiteral(replacement: string)
    requires PlainReplacement(replacement)
    ensures ExpandReplacement(replacement) == Ok(replacement)
    decreases |replacement|
  {
    if replacement != [] {
      PlainReplacementIsLiteral(replacement[1..]);
      assert [replacement[0]] + replacement[1..] == replacement;
    }
  }

  /** A path that starts with the "~" the pattern `^~` matches. */
  predicate StartsWithTilde(path: string)
  {
    path != [] && path[0] == '~'
  }

  /**
   * `sanitizePath(rawPath)` as written: `null` stays `null`; otherwise a
   * leading "~" is replaced with the home directory read as a replacement
   * string, so `\` and `$` in it are interpreted; a `null` home fails.
   */
  function SanitizePathAsWritten(rawPath: Option<string>, home: Option<string>): (r: Result<Option<string>>)
    ensures rawPath.None? ==> r == Ok(None)
    ensures rawPath.Some? && home.None? ==> r == Err(NullPointerException)
    ensures rawPath.Some? && home.Some? && !StartsWithTilde(rawPath.value) ==> r == Ok(rawPath)
    ensures rawPath.Some? && home.Some? && StartsWithTilde(rawPath.value) ==>
      (r.Ok? <==> ExpandReplacement(home.value).Ok?)
      && (r.Ok? ==> r.value == Some(ExpandReplacement(home.value).value + rawPath.value[1..]))
      && (r.Err? ==> r.error == ExpandReplacement(home.value).error)
  {
    match rawPath
    case None => Ok(None)
    case Some(raw) =>
      if home.None? then Err(NullPointerException)
      else if raw != [] && raw[0] == '~' then
        match ExpandReplacement(home.value)
        case Ok(h) => Ok(Some(h + raw[1..]))
        case Err(e) => Err(e)
      else Ok(rawPath)
  }

  /**
   * `sanitizePath` as intended: a leading "~" is replaced with the home
   * directory, character for character; any other path is unchanged.
   */
  function SanitizePath(rawPath: Option<string>, home: Option<string>): (r: Result<Option<string>>)
    ensures rawPath.None? ==> r == Ok(None)
    ensures rawPath.Some? && home.None? ==> r == Err(NullPointerException)
    ensures rawPath.Some? && home.Some? ==>
      (r.Ok? && r.value.Some?
       && |r.value.value| == |rawPath.value| + (if rawPath.value != [] && rawPath.value[0] == '~' then |home.value| - 1 else 0))
    ensures rawPath.Some? && home.Some? && (rawPath.value == [] || rawPath.value[0] != '~') ==> r == Ok(rawPath)
    ensures rawPath.Some? && home.Some? && rawPath.value != [] && rawPath.value[0] == '~' ==>
      (r.value.value[..|home.value|] == home.value && r.value.value[|home.value|..] == rawPath.value[1..])
  {
    match rawPath
    case None => Ok(None)
    case Some(raw) =>
      if home.None? then Err(NullPointerException)
      else if raw != [] && raw[0] == '~' then Ok(Some(home.value + raw[1..]))
      else Ok(rawPath)
  }

  /** Both readings agree whenever the home directory has no `\` and no `$`. */
  lemma SanitizePathAgreesOnPlainHome(rawPath: Option<string>, home: string)
    requires PlainReplacement(home)
    ensures SanitizePathAsWritten(rawPath, Some(home)) == SanitizePath(rawPath, Some(home))
  {
    PlainReplacementIsLiteral(home);
  }

  /** An escaped character stands for itself. */
  lemma EscapedCharacter(c: char, rest: string)
    ensures ExpandReplacement(['\\', c] + rest) == Prefixed([c], ExpandReplacement(rest))
  {
    assert (['\\', c] + rest)[2..] == rest;
  }

  /** A plain prefix is copied as it is. */
  lemma {:induction false} PlainPrefix(prefix: string, rest: string)
    requires PlainReplacement(prefix)
    ensures ExpandReplacement(prefix + rest) == Prefixed(prefix, ExpandReplacement(rest))
    decreases |prefix|
  {
    if prefix != [] {
      assert (prefix + rest)[0] == prefix[0];
      assert (prefix + rest)[1..] == prefix[1..] + rest;
      assert PlainReplacement(prefix[1..]) by {
        assert forall i :: 0 <= i < |prefix| - 1 ==> prefix[1..][i] == prefix[i + 1];
      }
      PlainPrefix(prefix[1..], rest);
      assert [prefix[0]] + prefix[1..] == prefix;
      match ExpandReplacement(rest) {
        case Ok(r) => AppendAssociative([prefix[0]], prefix[1..], r);
        case Err(_) =>
      }
    } else {
      assert prefix + rest == rest;
      match ExpandReplacement(rest) {
        case Ok(r) => assert prefix + r == r;
        case Err(_) =>
      }
    }
  }

  /** A single backslash between two plain parts of the home directory is dropped. */
  lemma BackslashIsDropped(before: string, c: char, after: string)
    requires PlainReplacement(before) && PlainReplacement([c] + after)
    ensures ExpandReplacement(before + (['\\', c] + after)) == Ok(before + ([c] + after))
  {
    assert PlainReplacement(after) by {
      assert forall i :: 0 <= i < |after| ==> after[i] == ([c] + after)[i + 1];
    }
    PlainReplacementIsLiteral(after);
    EscapedCharacter(c, after);
    PlainPrefix(before, ['\\', c] + after);
  }

  /**
   * A Windows home directory such as `C:\sam` loses its backslash in the
   * path as written, and keeps it in the path as intended.
   */
  lemma WindowsHomeLosesBackslash(rest: string)
    ensures SanitizePathAsWritten(Some("~" + rest), Some("C:\\sam")) == Ok(Some("C:sam" + rest))
    ensures SanitizePath(Some("~" + rest), Some("C:\\sam")) == Ok(Some("C:\\sam" + rest))
  {
    BackslashIsDropped("C:", 's', "am");
    assert "C:" + (['\\', 's'] + "am") == "C:\\sam";
    assert "C:" + (['s'] + "am") == "C:sam";
    assert ("~" + rest)[1..] == rest;
  }

  // ---------------------------------------------------------------------
  // The getters

  /** `SamzaRestConfig`: a view of a `Config`. */
  datatype SamzaRestConfig = SamzaRestConfig(config: Config)
  {
    /** A comma-separated class list: empty when the key is unset, else the split value. */
    function ClassList(key: string): (r: seq<string>)
      ensures key !in config ==> r == []
      ensures key in config ==> r == Split(config[key])
    {
      match Get(config, key)
      case None => []
      case Some(classList) => Split(classList)
    }

    /** `getResourceFactoryClassNames`. */
    function GetResourceFactoryClassNames(): (r: seq<string>)
      ensures ResourceFactoriesKey !in config ==> r == []
      ensures ResourceFactoriesKey in config ==> r == Split(config[ResourceFactoriesKey])
    {
      ClassList(ResourceFactoriesKey)
    }

    /** `getResourceClassNames`. */
    function GetResourceClassNames(): (r: seq<string>)
      ensures ResourceClassesKey !in config ==> r == []
      ensures ResourceClassesKey in config ==> r == Split(config[ResourceClassesKey])
    {
      ClassList(ResourceClassesKey)
    }

    /** `getConfigMonitorClassList`. */
    function GetConfigMonitorClassList(): (r: seq<string>)
      ensures MonitorClassListKey !in config ==> r == []
      ensures MonitorClassListKey in config ==> r == Split(config[MonitorClassListKey])
    {
      ClassList(MonitorClassListKey)
    }

    /** `getConfigMonitorIntervalMs`: the parsed value, or 60000 when unset. */
    function GetConfigMonitorIntervalMs(): (r: Result<int>)
      ensures MonitorIntervalKey !in config ==> r == Ok(DefaultMonitorInterval)
      ensures MonitorIntervalKey in config ==> r == ParseInt(config[MonitorIntervalKey])
    {
      if MonitorIntervalKey in config then ParseInt(config[MonitorIntervalKey]) else Ok(DefaultMonitorInterval)
    }

    /**
     * `getInstallationsPath`, with the home directory as a parameter: the
     * configured path with a leading "~" replaced as `replaceFirst` does,
     * reading the home directory as a replacement string.
     */
    function GetInstallationsPath(home: Option<string>): (r: Result<Option<string>>)
      ensures InstallationsPathKey !in config ==> r == Ok(None)
      ensures InstallationsPathKey in config && home.None? ==> r == Err(NullPointerException)
      ensures InstallationsPathKey in config && home.Some? && !StartsWithTilde(config[InstallationsPathKey]) ==>
        r == Ok(Some(config[InstallationsPathKey]))
      ensures InstallationsPathKey in config && home.Some? && StartsWithTilde(config[InstallationsPathKey]) ==>
        (r.Ok? <==> ExpandReplacement(home.value).Ok?)
        && (r.Ok? ==> r.value == Some(ExpandReplacement(home.value).value + config[InstallationsPathKey][1..]))
        && (r.Err? ==> r.error == ExpandReplacement(home.value).error)
    {
      SanitizePathAsWritten(Get(config, InstallationsPathKey), home)
    }

    /**
     * `getInstallationsPath` as intended: a leading "~" of the configured
     * path replaced by the home directory taken literally.
     */
    function GetInstallationsPathIntended(home: Option<string>): (r: Result<Option<string>>)
      ensures InstallationsPathKey !in config ==> r == Ok(None)
      ensures InstallationsPathKey in config && home.None? ==> r == Err(NullPointerException)
      ensures InstallationsPathKey in config && home.Some? ==>
        r == Ok(Some(if StartsWithTilde(config[InstallationsPathKey])
                     then home.value + config[InstallationsPathKey][1..]
                     else config[InstallationsPathKey]))
    {
      SanitizePath(Get(config, InstallationsPathKey), home)
    }
  }

  /** An interval written as decimal text is read back as itself. */
  lemma MonitorIntervalRoundTrip(config: Config, intervalMs: int)
    requires MinInt <= intervalMs <= MaxInt
    ensures SamzaRestConfig(config[MonitorIntervalKey := IntToDecimal(intervalMs)]).GetConfigMonitorIntervalMs()
      == Ok(intervalMs)
  {
    ParseIntRoundTrip(intervalMs);
  }

  /** A class list written with `", "` between class names reads back as the same names. */
  lemma ClassListRoundTrip(config: Config, key: string, classNames: seq<string>)
    requires SplittableItems(classNames)
    ensures SamzaRestConfig(config[key := Join(classNames, "", " ")]).ClassList(key) == classNames
  {
    SplitJoinRoundTrip(classNames, "", " ");
  }

  /** For a home directory without `\` and `$`, the installation path as written is the one intended. */
  lemma InstallationsPathAgreesOnPlainHome(restConfig: SamzaRestConfig, home: string)
    requires PlainReplacement(home)
    ensures restConfig.GetInstallationsPath(Some(home)) == restConfig.GetInstallationsPathIntended(Some(home))
  {
    SanitizePathAgreesOnPlainHome(Get(restConfig.config, InstallationsPathKey), home);
  }

  /**
   * The installation path "~/j" under the Windows home `C:\sam`: the code as
   * written drops the backslash, the intended reading keeps it.
   */
  lemma WindowsInstallationsPath()
    ensures SamzaRestConfig(map[InstallationsPathKey := "~/j"]).GetInstallationsPath(Some("C:\\sam")) == Ok(Some("C:sam/j"))
    ensures SamzaRestConfig(map[InstallationsPathKey := "~/j"]).GetInstallationsPathIntended(Some("C:\\sam"))
      == Ok(Some("C:\\sam/j"))
  {
    var restConfig := SamzaRestConfig(map[InstallationsPathKey := "~/j"]);
    WindowsHomeLosesBackslash("/j");
    assert "~" + "/j" == "~/j";
    assert Get(restConfig.config, InstallationsPathKey) == Some("~" + "/j");
    assert restConfig.GetInstallationsPath(Some("C:\\sam")) == SanitizePathAsWritten(Some("~" + "/j"), Some("C:\\sam"));
    assert restConfig.GetInstallationsPathIntended(Some("C:\\sam")) == SanitizePath(Some("~" + "/j"), Some("C:\\sam"));
    assert "C:sam" + "/j" == "C:sam/j";
    assert "C:\\sam" + "/j" == "C:\\sam/j";
  }

  /** A home directory `$H` makes the installation path as written fail, where the intended one succeeds. */
  lemma DollarHomeFails(rest: string)
    ensures SamzaRestConfig(map[InstallationsPathKey := "~" + rest]).GetInstallationsPath(Some("$H"))
      == Err(IllegalArgumentException("Illegal group reference"))
    ensures SamzaRestConfig(map[InstallationsPathKey := "~" + rest]).GetInstallationsPathIntended(Some("$H"))
      == Ok(Some("$H" + rest))
  {
    assert ("~" + rest)[1..] == rest;
  }
}
