/**
 * The JavaScript string built-ins the application's core relies on
 * (`trim`, `toLowerCase`, `startsWith`, `endsWith`, `includes`,
 * `substring(0, n)`, `split(' ')[0]`, `Array.prototype.join`, `Number#toString`),
 * stated over Dafny strings (sequences of Unicode scalar values), and the
 * array built-ins `findIndex` and `filter`, including the filter that drops
 * one position.
 */
module JsStrings {

  /** The characters `String.prototype.trim` removes: ECMAScript WhiteSpace
      (TAB, VT, FF, SP, NBSP, ZWNBSP and category Zs) and LineTerminator. */
  predicate IsWhitespace(c: char) {
    || c == '\t' || c == '\n' || c == '\U{000B}' || c == '\U{000C}' || c == '\r'
    || c == ' ' || c == '\U{00A0}' || c == '\U{1680}'
    || ('\U{2000}' <= c <= '\U{200A}')
    || c == '\U{2028}' || c == '\U{2029}' || c == '\U{202F}' || c == '\U{205F}'
    || c == '\U{3000}' || c == '\U{FEFF}'
  }

  /** The characters a regular-expression `.` does not match (LineTerminator). */
  predicate IsLineTerminator(c: char) {
    c == '\n' || c == '\r' || c == '\U{2028}' || c == '\U{2029}'
  }

  /** Leading whitespace removed. */
  function TrimStart(s: string): string {
    if s == [] then []
    else if IsWhitespace(s[0]) then TrimStart(s[1..])
    else s
  }

  /** The result of `TrimStart` is the longest suffix that does not start with whitespace. */
  lemma {:induction false} TrimStartSpec(s: string)
    ensures var r := TrimStart(s);
      && |r| <= |s| && r == s[|s| - |r|..]
      && (r != [] ==> !IsWhitespace(r[0]))
      && (forall i :: 0 <= i < |s| - |r| ==> IsWhitespace(s[i]))
  {
    if s != [] && IsWhitespace(s[0]) {
      var tail := s[1..];
      TrimStartSpec(tail);
      var r := TrimStart(tail);
      assert TrimStart(s) == r;
      assert tail[|tail| - |r|..] == s[|s| - |r|..];
      forall i | 0 <= i < |s| - |r|
        ensures IsWhitespace(s[i])
      {
        if i > 0 {
          assert s[i] == tail[i - 1];
        }
      }
    }
  }

  /** Trailing whitespace removed. */
  function TrimEnd(s: string): string {
    if s == [] then []
    else if IsWhitespace(s[|s| - 1]) then TrimEnd(s[..|s| - 1])
    else s
  }

  /** The result of `TrimEnd` is the longest prefix that does not end with whitespace. */
  lemma {:induction false} TrimEndSpec(s: string)
    ensures var r := TrimEnd(s);
      && |r| <= |s| && r == s[..|r|]
      && (r != [] ==> !IsWhitespace(r[|r| - 1]))
      && (forall i :: |r| <= i < |s| ==> IsWhitespace(s[i]))
  {
    if s != [] && IsWhitespace(s[|s| - 1]) {
      var init := s[..|s| - 1];
      TrimEndSpec(init);
      var r := TrimEnd(init);
      assert TrimEnd(s) == r;
      assert init[..|r|] == s[..|r|];
      forall i | |r| <= i < |s|
        ensures IsWhitespace(s[i])
      {
        if i < |s| - 1 {
          assert s[i] == init[i];
        }
      }
    }
  }

  /** `String.prototype.trim`. */
  function Trim(s: string): string {
    TrimEnd(TrimStart(s))
  }

  /** A string that neither starts nor ends with whitespace is its own trim. */
  lemma TrimOfUnpadded(s: string)
    requires s != [] && !IsWhitespace(s[0]) && !IsWhitespace(s[|s| - 1])
    ensures Trim(s) == s
  {
    TrimStartSpec(s);
    TrimEndSpec(s);
  }

  /** `toLowerCase` on the Basic Latin and Latin-1 letters (A-Z and U+00C0..U+00DE except U+00D7). */
  function LowerChar(c: char): (r: char)
    ensures IsWhitespace(r) <==> IsWhitespace(c)
    ensures !('A' <= r <= 'Z')
  {
    if 'A' <= c <= 'Z' || ('\U{00C0}' <= c <= '\U{00DE}' && c != '\U{00D7}') then
      (c as int + 32) as char
    else c
  }

  function ToLower(s: string): (r: string)
    ensures |r| == |s|
    ensures forall i :: 0 <= i < |s| ==> r[i] == LowerChar(s[i])
  {
    seq(|s|, i requires 0 <= i < |s| => LowerChar(s[i]))
  }

  predicate StartsWith(s: string, prefix: string) {
    |prefix| <= |s| && s[..|prefix|] == prefix
  }

  predicate EndsWith(s: string, suffix: string) {
    |suffix| <= |s| && s[|s| - |suffix|..] == suffix
  }

  /** `t` occurs in `s` at offset `i`. */
  predicate OccursAt(s: string, t: string, i: int) {
    0 <= i <= |s| - |t| && s[i..i + |t|] == t
  }

  /** `String.prototype.includes`: `t` occurs in `s` at some offset. */
  predicate Contains(s: string, t: string) {
    exists i | 0 <= i <= |s| - |t| :: OccursAt(s, t, i)
  }

  /** `s.substring(0, n)`. */
  function Take(s: string, n: nat): (r: string)
    ensures |r| == if |s| < n then |s| else n
    ensures r == s[..|r|]
  {
    if |s| <= n then s else s[..n]
  }

  /** `s.split(' ')[0]`: everything before the first space. */
  function FirstWord(s: string): (r: string)
    ensures ' ' !in r
    ensures StartsWith(s, r)
    ensures |r| < |s| ==> s[|r|] == ' '
  {
    if s == [] || s[0] == ' ' then [] else [s[0]] + FirstWord(s[1..])
  }

  /** `list.join(sep)`. */
  function Join(list: seq<string>, sep: string): string {
    if list == [] then []
    else if |list| == 1 then list[0]
    else list[0] + sep + Join(list[1..], sep)
  }

  /** JavaScript's `a || b` on strings: the empty string is falsy. */
  function OrElse(a: string, b: string): string {
    if a != [] then a else b
  }

  function DigitChar(d: nat): (c: char)
    requires d < 10
    ensures '0' <= c <= '9'
  {
    ['0', '1', '2', '3', '4', '5', '6', '7', '8', '9'][d]
  }

  /** `n.toString()` for a natural number: its decimal digits. */
  function NatToString(n: nat): (r: string)
    ensures |r| >= 1
    ensures forall i :: 0 <= i < |r| ==> '0' <= r[i] <= '9'
  {
    if n < 10 then [DigitChar(n)] else NatToString(n / 10) + [DigitChar(n % 10)]
  }

  /** The characters `encodeURIComponent` leaves as they are. */
  predicate IsUriUnreserved(c: char) {
    ('A' <= c <= 'Z') || ('a' <= c <= 'z') || ('0' <= c <= '9')
    || c == '-' || c == '_' || c == '.' || c == '!' || c == '~' || c == '*' || c == '\'' || c == '(' || c == ')'
  }

  function HexDigit(d: nat): (c: char)
    requires d < 16
    ensures ('0' <= c <= '9') || ('A' <= c <= 'F')
  {
    ['0', '1', '2', '3', '4', '5', '6', '7', '8', '9', 'A', 'B', 'C', 'D', 'E', 'F'][d]
  }

  /** The UTF-8 encoding of one Unicode scalar value. */
  function Utf8(c: char): (bytes: seq<nat>)
    ensures 1 <= |bytes| <= 4
    ensures forall i :: 0 <= i < |bytes| ==> bytes[i] < 256
  {
    var n := c as int;
    if n < 0x80 then [n]
    else if n < 0x800 then [0xC0 + n / 0x40, 0x80 + n % 0x40]
    else if n < 0x1_0000 then [0xE0 + n / 0x1000, 0x80 + (n / 0x40) % 0x40, 0x80 + n % 0x40]
    else [0xF0 + n / 0x4_0000, 0x80 + (n / 0x1000) % 0x40, 0x80 + (n / 0x40) % 0x40, 0x80 + n % 0x40]
  }

  /** Each byte written as `%` and two upper-case hexadecimal digits. */
  function PercentBytes(bytes: seq<nat>): (r: string)
    requires forall i :: 0 <= i < |bytes| ==> bytes[i] < 256
    ensures |r| == 3 * |bytes|
    ensures forall i :: 0 <= i < |r| ==> r[i] == '%' || ('0' <= r[i] <= '9') || ('A' <= r[i] <= 'F')
  {
    if bytes == [] then []
    else ['%', HexDigit(bytes[0] / 16), HexDigit(bytes[0] % 16)] + PercentBytes(bytes[1..])
  }

  /** A character that may appear in the output of `encodeURIComponent`. */
  predicate IsUriComponentChar(c: char) {
    IsUriUnreserved(c) || c == '%'
  }

  /** `encodeURIComponent`: unreserved characters are kept, every other
      character becomes the percent-escaped bytes of its UTF-8 encoding. */
  function EncodeUriComponent(s: string): (r: string)
    ensures forall i :: 0 <= i < |r| ==> IsUriComponentChar(r[i])
  {
    if s == [] then []
    else (if IsUriUnreserved(s[0]) then [s[0]] else PercentBytes(Utf8(s[0]))) + EncodeUriComponent(s[1..])
  }

  // ---------------------------------------------------------------------------
  // Facts about the primitives that the modules below use.

  lemma {:induction false} TrimEndOfTrimmedStart(s: string)
    requires s == [] || !IsWhitespace(s[0])
    ensures TrimStart(TrimEnd(s)) == TrimEnd(s)
  {
    TrimEndSpec(s);
  }

  /** Trimming twice is trimming once. */
  lemma TrimIdempotent(s: string)
    ensures Trim(Trim(s)) == Trim(s)
  {
    var t := TrimStart(s);
    TrimStartSpec(s);
    TrimEndOfTrimmedStart(t);
    var u := TrimEnd(t);
    TrimEndSpec(t);
    assert TrimEnd(u) == u;
  }

  /** Trimming and lowercasing commute, because lowercasing never turns a
      whitespace character into a non-whitespace one or back. */
  lemma {:induction false} TrimStartLower(s: string)
    ensures TrimStart(ToLower(s)) == ToLower(TrimStart(s))
  {
    if s != [] {
      assert ToLower(s)[1..] == ToLower(s[1..]);
      if IsWhitespace(s[0]) {
        TrimStartLower(s[1..]);
      }
    }
  }

  lemma {:induction false} TrimEndLower(s: string)
    ensures TrimEnd(ToLower(s)) == ToLower(TrimEnd(s))
  {
    if s != [] {
      assert ToLower(s)[..|s| - 1] == ToLower(s[..|s| - 1]);
      if IsWhitespace(s[|s| - 1]) {
        TrimEndLower(s[..|s| - 1]);
      }
    }
  }

  lemma TrimLower(s: string)
    ensures Trim(ToLower(s)) == ToLower(Trim(s))
  {
    TrimStartLower(s);
    TrimEndLower(TrimStart(s));
  }

  lemma ToLowerIdempotent(s: string)
    ensures ToLower(ToLower(s)) == ToLower(s)
  {
  }

  /** Leading whitespace in front of a string that starts with a non-whitespace
      character is exactly what `TrimStart` removes. */
  lemma {:induction false} TrimStartAfterWhitespace(ws: string, s: string)
    requires forall i :: 0 <= i < |ws| ==> IsWhitespace(ws[i])
    requires s != [] && !IsWhitespace(s[0])
    ensures TrimStart(ws + s) == s
  {
    if ws != [] {
      assert (ws + s)[1..] == ws[1..] + s;
      TrimStartAfterWhitespace(ws[1..], s);
    }
  }

  /** A string containing `t` contains every character of `t`. */
  lemma ContainsChar(s: string, t: string, k: nat)
    requires Contains(s, t) && k < |t|
    ensures t[k] in s
  {
    var i :| 0 <= i <= |s| - |t| && OccursAt(s, t, i);
    assert s[i..i + |t|][k] == t[k];
    assert s[i + k] == t[k];
  }

  /** A string of unreserved characters is its own encoding. */
  lemma {:induction false} EncodeUnreservedIdentity(s: string)
    requires forall i :: 0 <= i < |s| ==> IsUriUnreserved(s[i])
    ensures EncodeUriComponent(s) == s
  {
    if s != [] {
      EncodeUnreservedIdentity(s[1..]);
    }
  }

  lemma PrefixOfConcat(a: string, b: string)
    ensures StartsWith(a + b, a) && EndsWith(a + b, b)
  {
    assert (a + b)[..|a|] == a;
    assert (a + b)[|a + b| - |b|..] == b;
  }

  /** Appending two strings to `a` keeps `a` in front, and gives `a` back exactly when both are empty. */
  lemma ExtendedTwice(a: string, b: string, c: string)
    ensures StartsWith(a + b + c, a)
    ensures a + b + c == a <==> b == [] && c == []
  {
    assert (a + b + c)[..|a|] == a;
    if a + b + c == a {
      assert |a + b + c| == |a|;
    }
  }

  /** `b` occurs in `a + (b + c)` right after `a`. */
  lemma InfixOfConcat(a: string, b: string, c: string)
    ensures OccursAt(a + (b + c), b, |a|)
  {
    assert (a + (b + c))[|a|..|a| + |b|] == b;
  }

  /** The list without position `index`, every other element kept in order
      (`filter((_, i) => i !== index)`). */
  function WithoutIndex<T>(list: seq<T>, index: int): seq<T> {
    if list == [] then []
    else WithoutIndex(list[..|list| - 1], index) + (if |list| - 1 != index then [list[|list| - 1]] else [])
  }

  /** The filter is a splice at `index`, and the identity for an index out of range. */
  lemma {:induction false} WithoutIndexIsSplice<T>(list: seq<T>, index: int)
    ensures WithoutIndex(list, index) == if 0 <= index < |list| then list[..index] + list[index + 1..] else list
  {
    if list != [] {
      var n := |list| - 1;
      var init := list[..n];
      WithoutIndexIsSplice(init, index);
      if 0 <= index < n {
        assert init[..index] + init[index + 1..] + [list[n]] == list[..index] + list[index + 1..];
      } else if index == n {
        assert init == list[..index] && list[index + 1..] == [];
      } else {
        assert init + [list[n]] == list;
      }
    }
  }

  /** `list.findIndex(p)`: the first position whose element satisfies `p`,
      or -1 when there is none. */
  function FindIndex<T>(list: seq<T>, p: T -> bool): (r: int)
    ensures -1 <= r < |list|
    ensures r >= 0 ==> p(list[r])
    ensures forall j :: 0 <= j < |list| && (r == -1 || j < r) ==> !p(list[j])
  {
    if list == [] then -1
    else if p(list[0]) then 0
    else
      var k := FindIndex(list[1..], p);
      assert forall j :: 1 <= j < |list| ==> list[j] == list[1..][j - 1];
      if k == -1 then -1 else k + 1
  }

  /** `list.filter(keep)`. */
  function Filter<T>(list: seq<T>, keep: T -> bool): seq<T> {
    if list == [] then []
    else Filter(list[..|list| - 1], keep) + (if keep(list[|list| - 1]) then [list[|list| - 1]] else [])
  }

  /** The filter keeps exactly the elements that pass, and no more of them. */
  lemma {:induction false} FilterMembers<T>(list: seq<T>, keep: T -> bool)
    ensures |Filter(list, keep)| <= |list|
    ensures forall x :: x in Filter(list, keep) <==> x in list && keep(x)
  {
    if list != [] {
      var init := list[..|list| - 1];
      FilterMembers(init, keep);
      assert list == init + [list[|list| - 1]];
    }
  }

  /** The filter works element by element, so it keeps the order: filtering a
      concatenation concatenates the filtered parts. */
  lemma {:induction false} FilterAppend<T>(a: seq<T>, b: seq<T>, keep: T -> bool)
    ensures Filter(a + b, keep) == Filter(a, keep) + Filter(b, keep)
  {
    if b == [] {
      assert a + b == a;
    } else {
      var init := b[..|b| - 1];
      assert (a + b)[..|a + b| - 1] == a + init;
      FilterAppend(a, init, keep);
    }
  }

  /** A filter that every element passes leaves the list as it is. */
  lemma {:induction false} FilterKeepsAll<T>(list: seq<T>, keep: T -> bool)
    requires forall j :: 0 <= j < |list| ==> keep(list[j])
    ensures Filter(list, keep) == list
  {
    if list != [] {
      FilterKeepsAll(list[..|list| - 1], keep);
    }
  }
}
