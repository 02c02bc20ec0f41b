/**
 * String operations shared by the JavaScript and Python parts of the system:
 * separator split and join (`str.split(sep)` and `String.prototype.split(sep)`
 * agree for a non-empty separator), the two languages' whitespace stripping,
 * decimal rendering of integers, hexadecimal digits and ASCII case mapping.
 */
module Strings {
  import opened Wrappers

  // ---------------------------------------------------------------------------
  // Sequences of pieces
  // ---------------------------------------------------------------------------

  function Last<T>(s: seq<T>): T
    requires |s| > 0
  {
    s[|s| - 1]
  }

  function AllButLast<T>(s: seq<T>): seq<T>
    requires |s| > 0
  {
    s[..|s| - 1]
  }

  /** The pieces concatenated with `sep` between consecutive ones (`sep.join(parts)`). */
  function Join(parts: seq<string>, sep: string): string
  {
    if |parts| == 0 then ""
    else if |parts| == 1 then parts[0]
    else parts[0] + sep + Join(parts[1..], sep)
  }

  /** The pieces concatenated with nothing between them. */
  function Concat(parts: seq<string>): string
  {
    if |parts| == 0 then "" else parts[0] + Concat(parts[1..])
  }

  lemma {:induction false} ConcatAppend(a: seq<string>, b: seq<string>)
    ensures Concat(a + b) == Concat(a) + Concat(b)
    decreases |a|
  {
    if |a| == 0 {
      assert a + b == b;
    } else {
      assert (a + b)[1..] == a[1..] + b;
      ConcatAppend(a[1..], b);
    }
  }

  lemma ConcatSnoc(a: seq<string>, x: string)
    ensures Concat(a + [x]) == Concat(a) + x
  {
    ConcatAppend(a, [x]);
  }

  /** The text so far after each part. */
  function Texts(parts: seq<string>): (r: seq<string>)
    ensures |r| == |parts|
  {
    seq(|parts|, i requires 0 <= i < |parts| => Concat(parts[..i + 1]))
  }

  lemma TextsSnoc(parts: seq<string>)
    requires |parts| > 0
    ensures Texts(parts) == Texts(AllButLast(parts)) + [Concat(parts)]
  {
    TextsPrefix(parts);
    TextsOfAll(parts);
    LastSplit(Texts(parts));
  }

  /** Sequences with the same elements are equal. */
  lemma SameElements<T>(a: seq<T>, b: seq<T>)
    requires |a| == |b| && forall i :: 0 <= i < |a| ==> a[i] == b[i]
    ensures a == b
  {
  }

  lemma LastSplit<T>(s: seq<T>)
    requires |s| > 0
    ensures s == AllButLast(s) + [Last(s)]
  {
  }

  lemma TextsPrefix(parts: seq<string>)
    requires |parts| > 0
    ensures Texts(parts)[..|parts| - 1] == Texts(AllButLast(parts))
  {
    forall i | 0 <= i < |parts| - 1
      ensures Texts(AllButLast(parts))[i] == Texts(parts)[i]
    {
      TextsOfInit(parts, i);
    }
  }

  lemma TextsOfAll(parts: seq<string>)
    requires |parts| > 0
    ensures Texts(parts)[|parts| - 1] == Concat(parts)
  {
    assert parts[..|parts|] == parts;
  }

  lemma TextsOfInit(parts: seq<string>, i: nat)
    requires i < |parts| - 1
    ensures Texts(AllButLast(parts))[i] == Texts(parts)[i]
  {
    assert AllButLast(parts)[..i + 1] == parts[..i + 1];
  }

  /** The concatenation of the first `k + 1` parts. */
  lemma ConcatTake(parts: seq<string>, k: nat)
    requires k < |parts|
    ensures Concat(parts[..k + 1]) == Concat(parts[..k]) + parts[k]
  {
    assert parts[..k + 1] == parts[..k] + [parts[k]];
    ConcatSnoc(parts[..k], parts[k]);
  }

  lemma ConcatSplit(parts: seq<string>, k: nat)
    requires k <= |parts|
    ensures Concat(parts) == Concat(parts[..k]) + Concat(parts[k..])
  {
    assert parts == parts[..k] + parts[k..];
    ConcatAppend(parts[..k], parts[k..]);
  }

  // ---------------------------------------------------------------------------
  // Substring search and split on a separator
  // ---------------------------------------------------------------------------

  /** `pat` occurs in `s` starting at index `i`. */
  predicate OccursAt(s: string, pat: string, i: nat)
  {
    i + |pat| <= |s| && s[i..i + |pat|] == pat
  }

  /** `pat in s` in Python, `s.includes(pat)` in JavaScript. */
  predicate Contains(s: string, pat: string)
  {
    exists i: nat :: i <= |s| && OccursAt(s, pat, i)
  }

  /** The last index of `c` in `s` (`s.lastIndexOf(c)`, `s.rfind(c)`). */
  function LastIndexOf(s: string, c: char): (r: Option<nat>)
    ensures r.Some? ==> r.value < |s| && s[r.value] == c && forall j :: r.value < j < |s| ==> s[j] != c
    ensures r.None? ==> forall j :: 0 <= j < |s| ==> s[j] != c
  {
    if |s| == 0 then None
    else if s[|s| - 1] == c then Some(|s| - 1)
    else LastIndexOf(s[..|s| - 1], c)
  }

  /** The index `LastIndexOf` finds is the one after which `c` no longer occurs. */
  lemma {:induction false} LastIndexOfIs(s: string, c: char, k: nat)
    requires k < |s| && s[k] == c
    requires forall j :: k < j < |s| ==> s[j] != c
    ensures LastIndexOf(s, c) == Some(k)
    decreases |s|
  {
    if k < |s| - 1 {
      var t := s[..|s| - 1];
      assert forall j :: k < j < |t| ==> t[j] == s[j];
      LastIndexOfIs(t, c, k);
    }
  }

  /** The first index at or after `from` where `pat` occurs (`s.find(pat, from)`). */
  function FindFrom(s: string, pat: string, from: nat): (r: Option<nat>)
    requires from <= |s|
    ensures r.Some? ==> from <= r.value <= |s| && OccursAt(s, pat, r.value)
    ensures r.Some? ==> forall j: nat :: from <= j < r.value ==> !OccursAt(s, pat, j)
    ensures r.None? ==> forall j: nat :: from <= j <= |s| ==> !OccursAt(s, pat, j)
    decreases |s| - from
  {
    if OccursAt(s, pat, from) then Some(from)
    else if from == |s| then None
    else FindFrom(s, pat, from + 1)
  }

  function Find(s: string, pat: string): (r: Option<nat>)
    ensures r.Some? <==> Contains(s, pat)
    ensures r.Some? ==> OccursAt(s, pat, r.value) && forall j: nat :: j < r.value ==> !OccursAt(s, pat, j)
  {
    FindFrom(s, pat, 0)
  }

  /** The first occurrence is the one `Find` returns. */
  lemma FindFirst(s: string, pat: string, i: nat)
    requires OccursAt(s, pat, i)
    requires forall j: nat :: j < i ==> !OccursAt(s, pat, j)
    ensures Find(s, pat) == Some(i)
  {
    assert Contains(s, pat);
  }

  lemma NoOccurrenceWithin(s: string, pat: string, i: nat)
    requires i + |pat| <= |s| && s[i..i + |pat|] == pat
    ensures Contains(s, pat)
  {
    assert OccursAt(s, pat, i);
  }

  /** A text none of whose characters is `c` does not contain `c`. */
  lemma WithoutChar(s: string, c: char)
    requires forall i :: 0 <= i < |s| ==> s[i] != c
    ensures !Contains(s, [c])
  {
    forall i: nat | i <= |s|
      ensures !OccursAt(s, [c], i)
    {
      if i + 1 <= |s| {
        assert s[i..i + 1][0] == s[i];
      }
    }
  }

  /**
   * `s.split(sep)`: the maximal pieces between non-overlapping occurrences of
   * `sep`, scanning from the left.
   */
  function SplitOn(s: string, sep: string): (r: seq<string>)
    requires |sep| > 0
    ensures |r| >= 1
    decreases |s|
  {
    match Find(s, sep)
    case None => [s]
    case Some(i) => [s[..i]] + SplitOn(s[i + |sep|..], sep)
  }

  /** Joining the pieces with the separator gives the text back. */
  lemma {:induction false} SplitOnJoin(s: string, sep: string)
    requires |sep| > 0
    ensures Join(SplitOn(s, sep), sep) == s
    decreases |s|
  {
    match Find(s, sep)
    case None =>
    case Some(i) =>
      var t := s[i + |sep|..];
      var st := SplitOn(t, sep);
      SplitOnJoin(t, sep);
      ConsTail(s[..i], st);
      assert Join([s[..i]] + st, sep) == s[..i] + sep + Join(st, sep);
      assert s == s[..i] + sep + t;
  }

  /** No piece contains the separator. */
  lemma {:induction false} SplitOnPieces(s: string, sep: string)
    requires |sep| > 0
    ensures forall k :: 0 <= k < |SplitOn(s, sep)| ==> !Contains(SplitOn(s, sep)[k], sep)
    decreases |s|
  {
    match Find(s, sep)
    case None =>
    case Some(i) =>
      SplitOnPieces(s[i + |sep|..], sep);
      PrefixBeforeFirstOccurrence(s, sep, i);
  }

  lemma PrefixBeforeFirstOccurrence(s: string, sep: string, i: nat)
    requires |sep| > 0 && i + |sep| <= |s|
    requires forall j: nat :: j < i ==> !OccursAt(s, sep, j)
    ensures !Contains(s[..i], sep)
  {
    if Contains(s[..i], sep) {
      var j: nat :| j <= i && OccursAt(s[..i], sep, j);
      assert s[..i][j..j + |sep|] == s[j..j + |sep|];
      assert OccursAt(s, sep, j);
    }
  }

  /** The first occurrence inside `x` is still the first one once `y` follows. */
  lemma FindAppend(x: string, y: string, sep: string, i: nat)
    requires |sep| > 0 && Find(x, sep) == Some(i)
    ensures Find(x + y, sep) == Some(i)
  {
    var xy := x + y;
    assert xy[i..i + |sep|] == x[i..i + |sep|];
    assert OccursAt(xy, sep, i);
    forall j: nat | j < i
      ensures !OccursAt(xy, sep, j)
    {
      assert xy[j..j + |sep|] == x[j..j + |sep|];
      assert !OccursAt(x, sep, j);
    }
    match Find(xy, sep)
    case None =>
    case Some(k) =>
      if k > i {
      } else if k < i {
      }
  }

  /** One step of `SplitOn` at its first separator. */
  lemma SplitOnFirst(s: string, sep: string, i: nat)
    requires |sep| > 0 && Find(s, sep) == Some(i)
    ensures SplitOn(s, sep) == [s[..i]] + SplitOn(s[i + |sep|..], sep)
  {
  }

  /**
   * Splitting `x + y` splits `x` up to its last piece and then continues from
   * that piece followed by `y`: a piece only ends at a separator, and the
   * first separator found inside `x` is found first in `x + y` as well.
   */
  lemma {:induction false} SplitOnAppend(x: string, y: string, sep: string)
    requires |sep| > 0
    ensures SplitOn(x + y, sep)
         == AllButLast(SplitOn(x, sep)) + SplitOn(Last(SplitOn(x, sep)) + y, sep)
    decreases |x|
  {
    match Find(x, sep)
    case None =>
      assert SplitOn(x, sep) == [x];
      EmptyAppend(SplitOn(x + y, sep));
    case Some(i) =>
      var head, tail := x[..i], x[i + |sep|..];
      FindAppend(x, y, sep, i);
      assert (x + y)[..i] == head;
      assert (x + y)[i + |sep|..] == tail + y;
      SplitOnFirst(x + y, sep, i);
      SplitOnFirst(x, sep, i);
      SplitOnAppend(tail, y, sep);
      var st := SplitOn(tail, sep);
      PiecesCons(head, st);
      ConsAppend(head, AllButLast(st), SplitOn(Last(st) + y, sep));
  }

  lemma EmptyAppend<T>(s: seq<T>)
    ensures [] + s == s
  {
  }

  /** `f` applied to each element, in order. */
  function MapSeq<A, B>(f: A -> B, xs: seq<A>): (r: seq<B>)
    ensures |r| == |xs|
    ensures forall i :: 0 <= i < |xs| ==> r[i] == f(xs[i])
  {
    if |xs| == 0 then [] else [f(xs[0])] + MapSeq(f, xs[1..])
  }

  /**
   * `f` applied to each element, in order, built from the back as a loop
   * that appends builds it; `MapBackAt` gives its elements.
   */
  function MapBack<A, B>(f: A -> B, xs: seq<A>): (r: seq<B>)
    ensures |r| == |xs|
  {
    if |xs| == 0 then [] else MapBack(f, AllButLast(xs)) + [f(Last(xs))]
  }

  lemma {:induction false} MapBackAt<A, B>(f: A -> B, xs: seq<A>, i: nat)
    requires i < |xs|
    ensures MapBack(f, xs)[i] == f(xs[i])
    decreases |xs|
  {
    if i < |xs| - 1 {
      var init := AllButLast(xs);
      MapBackAt(f, init, i);
      assert init[i] == xs[i];
    }
  }

  lemma MapSeqCons<A, B>(f: A -> B, xs: seq<A>)
    requires |xs| > 0
    ensures MapSeq(f, xs) == [f(xs[0])] + MapSeq(f, xs[1..])
  {
  }

  lemma MapSeqSnoc<A, B>(f: A -> B, xs: seq<A>, x: A)
    ensures MapSeq(f, xs + [x]) == MapSeq(f, xs) + [f(x)]
  {
    var l := MapSeq(f, xs + [x]);
    var r := MapSeq(f, xs) + [f(x)];
    assert forall i :: 0 <= i < |l| ==> l[i] == r[i] by {
      assert forall i :: 0 <= i < |xs| ==> (xs + [x])[i] == xs[i];
    }
  }

  lemma ConsTail<T>(h: T, s: seq<T>)
    ensures ([h] + s)[0] == h && ([h] + s)[1..] == s
  {
  }

  lemma TakeSnoc<T>(s: seq<T>, j: nat)
    requires j < |s|
    ensures s[..j + 1] == s[..j] + [s[j]]
  {
  }

  lemma AppendEmpty<T>(s: seq<T>)
    ensures s + [] == s
  {
  }

  lemma AppendAssoc<T>(a: seq<T>, b: seq<T>, c: seq<T>)
    ensures a + (b + c) == (a + b) + c
  {
  }

  lemma ConsAppend<T>(h: T, a: seq<T>, b: seq<T>)
    ensures [h] + (a + b) == ([h] + a) + b
  {
  }

  lemma PiecesCons(head: string, st: seq<string>)
    requires |st| > 0
    ensures AllButLast([head] + st) == [head] + AllButLast(st)
    ensures Last([head] + st) == Last(st)
  {
  }

  lemma SplitWithoutSeparator(s: string, sep: string)
    requires |sep| > 0 && !Contains(s, sep)
    ensures SplitOn(s, sep) == [s]
  {
  }

  /** A text that ends with the separator has an empty last piece. */
  lemma SplitEndingInSeparator(s: string, sep: string)
    requires |sep| == 1
    requires |s| > 0 && s[|s| - 1] == sep[0]
    ensures Last(SplitOn(s, sep)) == ""
  {
    var x := s[..|s| - 1];
    assert s == x + sep;
    SplitOnAppend(x, sep, sep);
    var w := Last(SplitOn(x, sep));
    SplitOnPieces(x, sep);
    assert !Contains(w, sep);
    SeparatorAfterPiece(w, sep);
    SplitOnFirst(w + sep, sep, |w|);
    assert (w + sep)[|w| + 1..] == "";
  }

  lemma SeparatorAfterPiece(w: string, sep: string)
    requires |sep| == 1 && !Contains(w, sep)
    ensures Find(w + sep, sep) == Some(|w|)
  {
    var ws := w + sep;
    assert ws[|w|..|w| + 1] == sep;
    assert OccursAt(ws, sep, |w|);
    forall j: nat | j < |w|
      ensures !OccursAt(ws, sep, j)
    {
      assert ws[j..j + 1] == w[j..j + 1];
      assert !OccursAt(w, sep, j);
    }
    match Find(ws, sep)
    case None =>
    case Some(k) =>
      if k > |w| {
      } else if k < |w| {
      }
  }

  /** A line and its break come off the front of the text as one piece. */
  lemma SplitAfterLine(w: string, tail: string)
    requires !Contains(w, "\n")
    ensures SplitOn(w + "\n" + tail, "\n") == [w] + SplitOn(tail, "\n")
  {
    SeparatorAfterPiece(w, "\n");
    FindAppend(w + "\n", tail, "\n", |w|);
    var s := w + "\n" + tail;
    SplitOnFirst(s, "\n", |w|);
    assert s[..|w|] == w && s[|w| + 1..] == tail;
  }

  /** A line, its break and an empty line come off the front of the text as two pieces. */
  lemma SplitAfterBlankLine(w: string, tail: string)
    requires !Contains(w, "\n")
    ensures SplitOn(w + "\n\n" + tail, "\n") == [w, ""] + SplitOn(tail, "\n")
  {
    var t := "\n" + tail;
    assert w + "\n\n" + tail == w + "\n" + t;
    SplitAfterLine(w, t);
    WithoutChar("", '\n');
    assert t == "" + "\n" + tail;
    SplitAfterLine("", tail);
  }

  // ---------------------------------------------------------------------------
  // Whitespace stripping
  // ---------------------------------------------------------------------------

  /** Python's `str.isspace` for one character. */
  predicate IsPyWhitespace(c: char)
  {
    c == ' ' || ('\t' <= c <= '\r') || ('\U{1C}' <= c <= '\U{1F}')
    || c == '\U{85}' || c == '\U{A0}' || c == '\U{1680}' || ('\U{2000}' <= c <= '\U{200A}')
    || c == '\U{2028}' || c == '\U{2029}' || c == '\U{202F}' || c == '\U{205F}' || c == '\U{3000}'
  }

  /** ECMAScript WhiteSpace and LineTerminator: what `trim()` removes and `\s` matches. */
  predicate IsJsWhitespace(c: char)
  {
    c == ' ' || ('\t' <= c <= '\r') || c == '\U{A0}' || c == '\U{1680}'
    || ('\U{2000}' <= c <= '\U{200A}') || c == '\U{2028}' || c == '\U{2029}'
    || c == '\U{202F}' || c == '\U{205F}' || c == '\U{3000}' || c == '\U{FEFF}'
  }

  function TrimStartBy(s: string, ws: char -> bool): (r: string)
    ensures |r| <= |s| && r == s[|s| - |r|..]
    ensures |r| == 0 || !ws(r[0])
    ensures forall i :: 0 <= i < |s| - |r| ==> ws(s[i])
    decreases |s|
  {
    if |s| > 0 && ws(s[0]) then
      var r := TrimStartBy(s[1..], ws);
      assert s[1..][|s| - 1 - |r|..] == s[|s| - |r|..];
      assert forall i :: 1 <= i < |s| - |r| ==> s[i] == s[1..][i - 1];
      r
    else s
  }

  function TrimEndBy(s: string, ws: char -> bool): (r: string)
    ensures |r| <= |s| && r == s[..|r|]
    ensures |r| == 0 || !ws(r[|r| - 1])
    ensures forall i :: |r| <= i < |s| ==> ws(s[i])
    decreases |s|
  {
    if |s| > 0 && ws(s[|s| - 1]) then
      var r := TrimEndBy(s[..|s| - 1], ws);
      assert s[..|s| - 1][..|r|] == s[..|r|];
      assert forall i :: |r| <= i < |s| - 1 ==> s[i] == s[..|s| - 1][i];
      r
    else s
  }

  /** Both ends stripped of the characters `ws` accepts. */
  function StripBy(s: string, ws: char -> bool): (r: string)
    ensures |r| == 0 || (!ws(r[0]) && !ws(r[|r| - 1]))
    ensures Contains(s, r)
  {
    var a := TrimStartBy(s, ws);
    var r := TrimEndBy(a, ws);
    assert |r| > 0 ==> r[0] == a[0];
    PrefixOfSuffix(s, a, r);
    r
  }

  /** A prefix of a suffix of `s` occurs in `s`. */
  lemma PrefixOfSuffix(s: string, a: string, r: string)
    requires |a| <= |s| && a == s[|s| - |a|..]
    requires |r| <= |a| && r == a[..|r|]
    ensures Contains(s, r)
  {
    assert r == s[|s| - |a|..|s| - |a| + |r|];
    assert OccursAt(s, r, |s| - |a|);
  }

  /** A string that already starts and ends with a non-blank is its own strip. */
  lemma StripOfStripped(s: string, ws: char -> bool)
    requires |s| == 0 || (!ws(s[0]) && !ws(s[|s| - 1]))
    ensures StripBy(s, ws) == s
  {
  }

  /** Python `s.strip()`. */
  function PyStrip(s: string): string
  {
    StripBy(s, IsPyWhitespace)
  }

  /** JavaScript `s.trim()`. */
  function JsTrim(s: string): string
  {
    StripBy(s, IsJsWhitespace)
  }

  /** Every character of `s` satisfies `p`. */
  predicate All(s: string, p: char -> bool)
  {
    forall i :: 0 <= i < |s| ==> p(s[i])
  }

  /** Stripping leaves nothing exactly when the text is all blanks. */
  lemma {:induction false} StripEmptyIffBlank(s: string, ws: char -> bool)
    ensures StripBy(s, ws) == "" <==> All(s, ws)
  {
    var a := TrimStartBy(s, ws);
    if !All(s, ws) {
      var i :| 0 <= i < |s| && !ws(s[i]);
      assert i >= |s| - |a|;
      assert a[i - (|s| - |a|)] == s[i];
      assert |a| > 0 && !ws(a[0]);
      assert TrimEndBy(a, ws) != "";
    }
  }

  /** Every character that is not a blank survives stripping. */
  lemma StripKeepsNonBlank(s: string, ws: char -> bool, i: int)
    requires 0 <= i < |s| && !ws(s[i])
    ensures exists j :: 0 <= j < |StripBy(s, ws)| && StripBy(s, ws)[j] == s[i]
  {
    var a := TrimStartBy(s, ws);
    var r := TrimEndBy(a, ws);
    assert r == StripBy(s, ws);
    var k := i - (|s| - |a|);
    assert 0 <= k < |a| && a[k] == s[i];
    assert k < |r|;
    assert r[k] == s[i];
  }

  /** Every character of the stripped text comes from the text. */
  lemma StripFromText(s: string, ws: char -> bool, j: int)
    requires 0 <= j < |StripBy(s, ws)|
    ensures exists i :: 0 <= i < |s| && s[i] == StripBy(s, ws)[j]
  {
    var r := StripBy(s, ws);
    var k: nat :| k <= |s| && OccursAt(s, r, k);
    assert s[k + j] == s[k..k + |r|][j];
  }

  /** Leading blanks do not change what trimming the start leaves. */
  lemma {:induction false} TrimStartPadded(before: string, s: string, ws: char -> bool)
    requires All(before, ws)
    ensures TrimStartBy(before + s, ws) == TrimStartBy(s, ws)
    decreases |before|
  {
    if |before| > 0 {
      assert (before + s)[0] == before[0];
      assert (before + s)[1..] == before[1..] + s;
      TrimStartPadded(before[1..], s, ws);
    } else {
      assert before + s == s;
    }
  }

  /** Trailing blanks do not change what trimming the end leaves. */
  lemma {:induction false} TrimEndPadded(s: string, after: string, ws: char -> bool)
    requires All(after, ws)
    ensures TrimEndBy(s + after, ws) == TrimEndBy(s, ws)
    decreases |after|
  {
    if |after| > 0 {
      var t := s + after;
      assert t[|t| - 1] == after[|after| - 1];
      assert t[..|t| - 1] == s + after[..|after| - 1];
      TrimEndPadded(s, after[..|after| - 1], ws);
    } else {
      assert s + after == s;
    }
  }

  /** Once the start of `s` holds a non-blank, text after `s` is not trimmed. */
  lemma {:induction false} TrimStartKeepsTail(s: string, after: string, ws: char -> bool)
    requires |TrimStartBy(s, ws)| > 0
    ensures TrimStartBy(s + after, ws) == TrimStartBy(s, ws) + after
    decreases |s|
  {
    assert (s + after)[0] == s[0];
    if ws(s[0]) {
      assert (s + after)[1..] == s[1..] + after;
      TrimStartKeepsTail(s[1..], after, ws);
    }
  }

  /** Blanks around a text do not change what stripping leaves. */
  lemma StripPadded(before: string, s: string, after: string, ws: char -> bool)
    requires All(before, ws) && All(after, ws)
    ensures StripBy(before + s + after, ws) == StripBy(s, ws)
  {
    assert before + s + after == before + (s + after);
    TrimStartPadded(before, s + after, ws);
    var a := TrimStartBy(s, ws);
    if |a| > 0 {
      TrimStartKeepsTail(s, after, ws);
      TrimEndPadded(a, after, ws);
    } else {
      assert All(s, ws);
      TrimStartPadded(s, after, ws);
      StripEmptyIffBlank(after, ws);
    }
  }

  // ---------------------------------------------------------------------------
  // Integers
  // ---------------------------------------------------------------------------

  function Min(a: int, b: int): int { if a <= b then a else b }
  function Max(a: int, b: int): int { if a >= b then a else b }

  // ---------------------------------------------------------------------------
  // Decimal rendering
  // ---------------------------------------------------------------------------

  predicate IsDigit(c: char)
  {
    '0' <= c <= '9'
  }

  function DigitChar(d: nat): (c: char)
    requires d < 10
    ensures IsDigit(c) && c as int - '0' as int == d
  {
    (('0' as int) + d) as char
  }

  /** The value of a string of decimal digits. */
  function DigitsValue(s: string): nat
    requires forall i :: 0 <= i < |s| ==> IsDigit(s[i])
  {
    if |s| == 0 then 0
    else
      assert IsDigit(s[|s| - 1]);
      DigitsValue(s[..|s| - 1]) * 10 + (s[|s| - 1] as int - '0' as int)
  }

  /** `str(n)` / `String(n)` for a non-negative integer. */
  function NatToString(n: nat): (r: string)
    ensures |r| >= 1
    ensures forall i :: 0 <= i < |r| ==> IsDigit(r[i])
    ensures |r| > 1 ==> r[0] != '0'
    decreases n
  {
    if n < 10 then [DigitChar(n)] else NatToString(n / 10) + [DigitChar(n % 10)]
  }

  /** Reading the rendered digits back gives the number. */
  lemma {:induction false} NatToStringValue(n: nat)
    ensures DigitsValue(NatToString(n)) == n
    decreases n
  {
    if n >= 10 {
      var s := NatToString(n);
      assert s[..|s| - 1] == NatToString(n / 10);
      NatToStringValue(n / 10);
    }
  }

  lemma NatToStringInjective(m: nat, n: nat)
    requires NatToString(m) == NatToString(n)
    ensures m == n
  {
    NatToStringValue(m);
    NatToStringValue(n);
  }

  /** `String(i)` for any integer. */
  function IntToString(i: int): (r: string)
    ensures |r| >= 1
    ensures i >= 0 ==> r == NatToString(i)
    ensures i < 0 ==> r == "-" + NatToString(-i)
  {
    if i < 0 then "-" + NatToString(-i) else NatToString(i)
  }

  // ---------------------------------------------------------------------------
  // Hexadecimal digits and ASCII case
  // ---------------------------------------------------------------------------

  predicate IsHexDigit(c: char)
  {
    ('0' <= c <= '9') || ('a' <= c <= 'f') || ('A' <= c <= 'F')
  }

  /** `/^[0-9a-fA-F]{24}$/.test(s)`: the text form of a store object id. */
  predicate IsObjectIdHex(s: string)
  {
    |s| == 24 && forall i :: 0 <= i < |s| ==> IsHexDigit(s[i])
  }

  function LowerChar(c: char): (r: char)
    ensures 'A' <= c <= 'Z' ==> r as int == c as int + 32
    ensures !('A' <= c <= 'Z') ==> r == c
  {
    if 'A' <= c <= 'Z' then (c as int + 32) as char else c
  }

  function UpperChar(c: char): (r: char)
    ensures 'a' <= c <= 'z' ==> r as int == c as int - 32
    ensures !('a' <= c <= 'z') ==> r == c
  {
    if 'a' <= c <= 'z' then (c as int - 32) as char else c
  }

  /** `s.lower()` / `s.toLowerCase()` on the ASCII letters. */
  function Lower(s: string): (r: string)
    ensures |r| == |s| && forall i :: 0 <= i < |s| ==> r[i] == LowerChar(s[i])
  {
    seq(|s|, i requires 0 <= i < |s| => LowerChar(s[i]))
  }

  function Upper(s: string): (r: string)
    ensures |r| == |s| && forall i :: 0 <= i < |s| ==> r[i] == UpperChar(s[i])
  {
    seq(|s|, i requires 0 <= i < |s| => UpperChar(s[i]))
  }

  /** `s.slice(0, n)` / `s[:n]` for a non-negative `n`. */
  function Prefix(s: string, n: nat): (r: string)
    ensures |r| == if |s| < n then |s| else n
    ensures r <= s
  {
    if |s| <= n then s else s[..n]
  }

  // ---------------------------------------------------------------------------
  // UTF-16 lengths (JavaScript's `length` and `slice`)
  // ---------------------------------------------------------------------------

  /** The UTF-16 code units of one character: two beyond U+FFFF, where it is a surrogate pair. */
  function Utf16Units(c: char): nat
  {
    if c as int > 0xFFFF then 2 else 1
  }

  /** JavaScript's `s.length`: the number of UTF-16 code units. */
  function Utf16Length(s: string): (r: nat)
    ensures |s| <= r <= 2 * |s|
    ensures r == 0 <==> |s| == 0
  {
    if |s| == 0 then 0 else Utf16Units(s[0]) + Utf16Length(s[1..])
  }

  lemma {:induction false} Utf16LengthAppend(a: string, b: string)
    ensures Utf16Length(a + b) == Utf16Length(a) + Utf16Length(b)
    decreases |a|
  {
    if |a| == 0 {
      assert a + b == b;
    } else {
      assert (a + b)[0] == a[0] && (a + b)[1..] == a[1..] + b;
      Utf16LengthAppend(a[1..], b);
    }
  }

  /** A piece of a text is no longer than the text, in code units. */
  lemma Utf16LengthOccurs(s: string, t: string, i: nat)
    requires OccursAt(s, t, i)
    ensures Utf16Length(t) <= Utf16Length(s)
  {
    var a, b := s[..i], s[i + |t|..];
    assert s == a + t + b by {
      assert s[i..i + |t|] == t;
      assert s == s[..i] + s[i..i + |t|] + s[i + |t|..];
    }
    Utf16LengthAppend(a + t, b);
    Utf16LengthAppend(a, t);
  }

  /** Every character is in the Basic Multilingual Plane: one code unit each. */
  predicate InBmp(s: string)
  {
    forall i :: 0 <= i < |s| ==> s[i] as int <= 0xFFFF
  }

  lemma {:induction false} Utf16LengthBmp(s: string)
    requires InBmp(s)
    ensures Utf16Length(s) == |s|
    decreases |s|
  {
    if |s| > 0 {
      assert forall i :: 0 <= i < |s| - 1 ==> s[1..][i] == s[i + 1];
      Utf16LengthBmp(s[1..]);
    }
  }

  /**
   * `s.slice(0, n)` on whole characters: the longest prefix that fits in `n`
   * code units. A surrogate pair straddling unit `n` is left out whole.
   */
  function Utf16Prefix(s: string, n: nat): (r: string)
    ensures r <= s && Utf16Length(r) <= n
    ensures Utf16Length(s) <= n ==> r == s
    ensures Utf16Length(s) > n ==> |r| < |s| && Utf16Length(r) + Utf16Units(s[|r|]) > n
    decreases |s|
  {
    if |s| == 0 || Utf16Units(s[0]) > n then ""
    else
      var rest := Utf16Prefix(s[1..], n - Utf16Units(s[0]));
      var r := [s[0]] + rest;
      assert r[0] == s[0] && r[1..] == rest;
      assert |rest| < |s[1..]| ==> s[|r|] == s[1..][|rest|];
      r
  }

  /** On text inside the Basic Multilingual Plane the cut is the plain one. */
  lemma Utf16PrefixBmp(s: string, n: nat)
    requires InBmp(s)
    ensures Utf16Prefix(s, n) == Prefix(s, n)
  {
    var r := Utf16Prefix(s, n);
    Utf16LengthBmp(s);
    assert InBmp(r) by {
      assert forall i :: 0 <= i < |r| ==> r[i] == s[i];
    }
    Utf16LengthBmp(r);
    if |s| > n {
      assert |r| == n;
      assert r == s[..n];
    }
  }

  /** Every character lies beyond U+FFFF: two code units each. */
  predicate Astral(s: string)
  {
    forall i :: 0 <= i < |s| ==> s[i] as int > 0xFFFF
  }

  lemma {:induction false} Utf16LengthAstral(s: string)
    requires Astral(s)
    ensures Utf16Length(s) == 2 * |s|
    decreases |s|
  {
    if |s| > 0 {
      assert forall i :: 0 <= i < |s| - 1 ==> s[1..][i] == s[i + 1];
      Utf16LengthAstral(s[1..]);
    }
  }

  /** On text beyond the Basic Multilingual Plane, `n` code units hold `n / 2` characters. */
  lemma Utf16PrefixAstral(s: string, n: nat)
    requires Astral(s)
    ensures Utf16Prefix(s, n) == Prefix(s, n / 2)
  {
    var r := Utf16Prefix(s, n);
    assert Astral(r) by {
      assert forall i :: 0 <= i < |r| ==> r[i] == s[i];
    }
    Utf16LengthAstral(r);
    Utf16LengthAstral(s);
    if 2 * |s| > n {
      assert 2 * |r| <= n < 2 * |r| + 2;
      assert |r| == n / 2;
      assert r == s[..|r|];
    }
  }

  /** A character beyond U+FFFF counts twice: `"😀".length` is 2. */
  lemma Utf16AstralCounts()
    ensures Utf16Length("\U{1F600}\U{1F600}\U{1F600}") == 6
  {
    var t := "\U{1F600}\U{1F600}\U{1F600}";
    assert t[1..] == "\U{1F600}\U{1F600}" && t[1..][1..] == "\U{1F600}" && t[1..][1..][1..] == "";
  }
}
