/**
 * Python's `json.dumps` with its default settings, for the flat dictionaries
 * of string values the AI service streams: keys in insertion order, `", "`
 * between members and `": "` after keys, and `ensure_ascii`, so every
 * character outside printable ASCII is written as a `\uXXXX` escape (a
 * surrogate pair above U+FFFF). String escapes are those of RFC 8259,
 * section 7; `UnescapeString` reads them back.
 */
module PyJson {
  import opened Wrappers
  import opened Strings

  predicate IsPrintableAscii(c: char)
  {
    ' ' <= c <= '~'
  }

  function HexDigitLower(d: nat): (c: char)
    requires d < 16
    ensures IsPrintableAscii(c)
  {
    if d < 10 then ('0' as int + d) as char else ('a' as int + d - 10) as char
  }

  /** The value of one hexadecimal digit, either case. */
  function HexValue(c: char): (r: Option<nat>)
    ensures r.Some? ==> r.value < 16
  {
    if '0' <= c <= '9' then Some(c as int - '0' as int)
    else if 'a' <= c <= 'f' then Some(c as int - 'a' as int + 10)
    else if 'A' <= c <= 'F' then Some(c as int - 'A' as int + 10)
    else None
  }

  lemma HexDigitRoundTrip(d: nat)
    requires d < 16
    ensures HexValue(HexDigitLower(d)) == Some(d)
  {
  }

  /** Four lower-case hexadecimal digits of a UTF-16 code unit. */
  function Hex4(n: nat): (r: string)
    requires n < 0x10000
    ensures |r| == 4
  {
    var q := n / 16;
    var q' := q / 16;
    [HexDigitLower(q' / 16), HexDigitLower(q' % 16), HexDigitLower(q % 16), HexDigitLower(n % 16)]
  }

  function Hex4Value(s: string): (r: Option<nat>)
    requires |s| == 4
    ensures r.Some? ==> r.value < 0x10000
  {
    match (HexValue(s[0]), HexValue(s[1]), HexValue(s[2]), HexValue(s[3]))
    case (Some(a), Some(b), Some(c), Some(d)) => Some(a * 4096 + b * 256 + c * 16 + d)
    case _ => None
  }

  lemma Hex4RoundTrip(n: nat)
    requires n < 0x10000
    ensures Hex4Value(Hex4(n)) == Some(n)
  {
    var q := n / 16;
    var q' := q / 16;
    HexDigitRoundTrip(q' / 16);
    HexDigitRoundTrip(q' % 16);
    HexDigitRoundTrip(q % 16);
    HexDigitRoundTrip(n % 16);
    assert n == q * 16 + n % 16;
    assert q == q' * 16 + q % 16;
    assert q' == (q' / 16) * 16 + q' % 16;
    assert (q' / 16) * 4096 + (q' % 16) * 256 + (q % 16) * 16 + n % 16 == n;
  }

  predicate IsHighSurrogate(u: nat) { 0xD800 <= u < 0xDC00 }
  predicate IsLowSurrogate(u: nat) { 0xDC00 <= u < 0xE000 }

  /** How `json.dumps` writes one character of a string. */
  function EscapeChar(c: char): (r: string)
    ensures |r| > 0 && forall i :: 0 <= i < |r| ==> IsPrintableAscii(r[i])
  {
    if c == '"' then "\\\""
    else if c == '\\' then "\\\\"
    else if c == '\n' then "\\n"
    else if c == '\r' then "\\r"
    else if c == '\t' then "\\t"
    else if c == '\U{8}' then "\\b"
    else if c == '\U{C}' then "\\f"
    else if IsPrintableAscii(c) then [c]
    else if (c as int) < 0x10000 then "\\u" + Hex4(c as int)
    else
      var n := c as int - 0x10000;
      "\\u" + Hex4(0xD800 + n / 1024) + "\\u" + Hex4(0xDC00 + n % 1024)
  }

  function EscapeString(s: string): (r: string)
    ensures forall i :: 0 <= i < |r| ==> IsPrintableAscii(r[i])
    decreases |s|
  {
    if |s| == 0 then ""
    else
      var head, tail := EscapeChar(s[0]), EscapeString(s[1..]);
      assert forall i :: |head| <= i < |head| + |tail| ==> (head + tail)[i] == tail[i - |head|];
      head + tail
  }

  /** A JSON string literal. */
  function Quote(s: string): (r: string)
    ensures |r| >= 2 && r[0] == '"' && r[|r| - 1] == '"'
    ensures forall i :: 0 <= i < |r| ==> IsPrintableAscii(r[i])
  {
    "\"" + EscapeString(s) + "\""
  }

  /** `json.dumps` of a dictionary whose values are all strings. */
  function DumpsObject(fields: seq<(string, string)>): (r: string)
    ensures |r| >= 2 && r[0] == '{' && r[|r| - 1] == '}'
    ensures forall i :: 0 <= i < |r| ==> IsPrintableAscii(r[i])
  {
    var members := seq(|fields|, i requires 0 <= i < |fields| => Quote(fields[i].0) + ": " + Quote(fields[i].1));
    MembersPrintable(members);
    "{" + Join(members, ", ") + "}"
  }

  lemma {:induction false} MembersPrintable(members: seq<string>)
    requires forall k :: 0 <= k < |members| ==> forall i :: 0 <= i < |members[k]| ==> IsPrintableAscii(members[k][i])
    ensures forall i :: 0 <= i < |Join(members, ", ")| ==> IsPrintableAscii(Join(members, ", ")[i])
    decreases |members|
  {
    if |members| > 1 {
      MembersPrintable(members[1..]);
      var a, b := members[0] + ", ", Join(members[1..], ", ");
      assert Join(members, ", ") == a + b;
      assert forall i :: |a| <= i < |a| + |b| ==> (a + b)[i] == b[i - |a|];
    }
  }

  /** Nothing `json.dumps` writes here contains a line break. */
  lemma DumpsHasNoNewline(fields: seq<(string, string)>)
    ensures !Contains(DumpsObject(fields), "\n")
  {
    WithoutChar(DumpsObject(fields), '\n');
  }

  // ---------------------------------------------------------------------------
  // Reading the string escapes back (RFC 8259, section 7)
  // ---------------------------------------------------------------------------

  /**
   * The characters denoted by the inside of a JSON string literal, or None
   * when it holds an unknown escape, a lone surrogate or a raw `"`.
   */
  function UnescapeString(s: string): Option<string>
    decreases |s|
  {
    if |s| == 0 then Some("")
    else if s[0] == '"' then None
    else if s[0] != '\\' then Prepend(s[0], UnescapeString(s[1..]))
    else if |s| < 2 then None
    else
      var e := s[1];
      if e == '"' then Prepend('"', UnescapeString(s[2..]))
      else if e == '\\' then Prepend('\\', UnescapeString(s[2..]))
      else if e == '/' then Prepend('/', UnescapeString(s[2..]))
      else if e == 'b' then Prepend('\U{8}', UnescapeString(s[2..]))
      else if e == 'f' then Prepend('\U{C}', UnescapeString(s[2..]))
      else if e == 'n' then Prepend('\n', UnescapeString(s[2..]))
      else if e == 'r' then Prepend('\r', UnescapeString(s[2..]))
      else if e == 't' then Prepend('\t', UnescapeString(s[2..]))
      else if e == 'u' && |s| >= 6 then
        match Hex4Value(s[2..6])
        case None => None
        case Some(u) =>
          if IsLowSurrogate(u) then None
          else if !IsHighSurrogate(u) then Prepend(u as char, UnescapeString(s[6..]))
          else if |s| >= 12 && s[6] == '\\' && s[7] == 'u' then
            match Hex4Value(s[8..12])
            case None => None
            case Some(l) =>
              if IsLowSurrogate(l) then
                Prepend((0x10000 + (u - 0xD800) * 1024 + (l - 0xDC00)) as char, UnescapeString(s[12..]))
              else None
          else None
      else None
  }

  function Prepend(c: char, rest: Option<string>): Option<string>
  {
    match rest
    case None => None
    case Some(t) => Some([c] + t)
  }

  /** Reading one escaped character back, whatever escaped text follows it. */
  lemma UnescapeChar(c: char, rest: string)
    ensures UnescapeString(EscapeChar(c) + rest) == Prepend(c, UnescapeString(rest))
  {
    var s := EscapeChar(c) + rest;
    if c == '"' || c == '\\' || c == '\n' || c == '\r' || c == '\t' || c == '\U{8}' || c == '\U{C}' {
      assert s[2..] == rest;
    } else if IsPrintableAscii(c) {
      assert s[1..] == rest;
    } else if (c as int) < 0x10000 {
      UnescapeBmp(c, rest);
    } else {
      UnescapeAstral(c, rest);
    }
  }

  lemma UnescapeBmp(c: char, rest: string)
    requires !IsPrintableAscii(c) && (c as int) < 0x10000
    requires c != '\n' && c != '\r' && c != '\t' && c != '\U{8}' && c != '\U{C}'
    ensures UnescapeString("\\u" + Hex4(c as int) + rest) == Prepend(c, UnescapeString(rest))
  {
    var s := "\\u" + Hex4(c as int) + rest;
    Hex4RoundTrip(c as int);
    assert s[2..6] == Hex4(c as int);
    assert s[6..] == rest;
  }

  lemma UnescapeAstral(c: char, rest: string)
    requires (c as int) >= 0x10000
    ensures UnescapeString(EscapeChar(c) + rest) == Prepend(c, UnescapeString(rest))
  {
    var n := c as int - 0x10000;
    var hi, lo := 0xD800 + n / 1024, 0xDC00 + n % 1024;
    assert EscapeChar(c) == "\\u" + Hex4(hi) + "\\u" + Hex4(lo);
    assert n == (n / 1024) * 1024 + n % 1024;
    UnescapePair(hi, lo, rest);
    assert 0x10000 + (hi - 0xD800) * 1024 + (lo - 0xDC00) == c as int;
  }

  /** A surrogate pair reads back as the one character it encodes. */
  lemma UnescapePair(hi: nat, lo: nat, rest: string)
    requires IsHighSurrogate(hi) && IsLowSurrogate(lo)
    ensures UnescapeString("\\u" + Hex4(hi) + "\\u" + Hex4(lo) + rest)
         == Prepend((0x10000 + (hi - 0xD800) * 1024 + (lo - 0xDC00)) as char, UnescapeString(rest))
  {
    var s := "\\u" + Hex4(hi) + "\\u" + Hex4(lo) + rest;
    Hex4RoundTrip(hi);
    Hex4RoundTrip(lo);
    assert s[2..6] == Hex4(hi);
    assert s[6] == '\\' && s[7] == 'u';
    assert s[8..12] == Hex4(lo);
    assert s[12..] == rest;
  }

  /** The escapes `json.dumps` writes read back to the original text. */
  lemma {:induction false} EscapeRoundTrip(s: string)
    ensures UnescapeString(EscapeString(s)) == Some(s)
    decreases |s|
  {
    if |s| > 0 {
      EscapeRoundTrip(s[1..]);
      UnescapeChar(s[0], EscapeString(s[1..]));
      assert [s[0]] + s[1..] == s;
    }
  }
}
