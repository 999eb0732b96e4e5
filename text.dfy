/** String helpers the server and the client both rely on: JavaScript's
    `trim()`, the UTF-16 length that `String.length` reports, and the
    lexicographic order of the `<` and `>` operators on strings. */
module Text {

  /** The characters removed by `String.prototype.trim()` and matched by the
      regular-expression class `\s`: the WhiteSpace and LineTerminator
      characters of ECMA-262. */
  predicate IsWhitespace(c: char) {
    || c == ' ' || c == '\t' || c == '\n' || c == '\U{000B}' || c == '\U{000C}' || c == '\r'
    || c == '\U{00A0}' || c == '\U{1680}' || ('\U{2000}' <= c <= '\U{200A}')
    || c == '\U{2028}' || c == '\U{2029}' || c == '\U{202F}' || c == '\U{205F}'
    || c == '\U{3000}' || c == '\U{FEFF}'
  }

  /** No whitespace at either end. */
  predicate IsTrimmed(s: string) {
    s == [] || (!IsWhitespace(s[0]) && !IsWhitespace(s[|s| - 1]))
  }

  /** Every character is whitespace (JavaScript: `!s.trim()`). */
  predicate IsBlank(s: string) {
    forall i :: 0 <= i < |s| ==> IsWhitespace(s[i])
  }

  /** Drops the leading whitespace: the result is the suffix of `s` that
      starts at its first non-whitespace character. */
  function TrimStart(s: string): (r: string)
    ensures |r| <= |s| && r == s[|s| - |r|..]
    ensures r == [] || !IsWhitespace(r[0])
    ensures forall i :: 0 <= i < |s| - |r| ==> IsWhitespace(s[i])
  {
    if s != [] && IsWhitespace(s[0]) then TrimStart(s[1..]) else s
  }

  /** Drops the trailing whitespace: the result is the prefix of `s` that
      ends at its last non-whitespace character. */
  function TrimEnd(s: string): (r: string)
    ensures |r| <= |s| && r == s[..|r|]
    ensures r == [] || !IsWhitespace(r[|r| - 1])
    ensures forall i :: |r| <= i < |s| ==> IsWhitespace(s[i])
  {
    if s != [] && IsWhitespace(s[|s| - 1]) then TrimEnd(s[..|s| - 1]) else s
  }

  /** `r` is the run of `s` starting at `i`, and everything of `s` before
      and after that run is whitespace. */
  predicate TrimsTo(s: string, r: string, i: int) {
    && 0 <= i && i + |r| <= |s|
    && (forall k :: 0 <= k < |r| ==> r[k] == s[i + k])
    && (forall k :: 0 <= k < i ==> IsWhitespace(s[k]))
    && (forall k :: i + |r| <= k < |s| ==> IsWhitespace(s[k]))
  }

  /** `String.prototype.trim()`: the part of `s` left when the whitespace
      at both ends is removed. */
  function Trim(s: string): (r: string)
    ensures IsTrimmed(r)
    ensures |r| <= |s|
    ensures r == [] <==> IsBlank(s)
  {
    var t := TrimStart(s);
    var r := TrimEnd(t);
    EdgesRemoved(s, t, r);
    r
  }

  /** What `trim()` removes is whitespace at the two ends and nothing
      else: the result is a run of `s` with only whitespace around it, and
      it neither starts nor ends with whitespace. These two facts fix the
      result. */
  lemma TrimRemovesEdges(s: string)
    ensures exists i :: TrimsTo(s, Trim(s), i)
    ensures IsTrimmed(Trim(s))
  {
    var t := TrimStart(s);
    EdgesRemoved(s, t, TrimEnd(t));
    assert TrimsTo(s, Trim(s), |s| - |t|);
  }

  /** Removing a whitespace prefix and then a whitespace suffix leaves a
      run of the original string with whitespace around it. */
  lemma EdgesRemoved(s: string, t: string, r: string)
    requires |t| <= |s| && t == s[|s| - |t|..]
    requires forall k :: 0 <= k < |s| - |t| ==> IsWhitespace(s[k])
    requires |r| <= |t| && r == t[..|r|]
    requires forall k :: |r| <= k < |t| ==> IsWhitespace(t[k])
    requires t == [] || !IsWhitespace(t[0])
    requires r == [] || !IsWhitespace(r[|r| - 1])
    ensures TrimsTo(s, r, |s| - |t|)
    ensures IsTrimmed(r)
    ensures r == [] <==> IsBlank(s)
  {
    var i := |s| - |t|;
    assert r != [] ==> r[0] == t[0];
    forall k | i + |r| <= k < |s| ensures IsWhitespace(s[k]) {
      assert s[k] == t[k - i];
    }
  }

  /** Trimming a trimmed string changes nothing. */
  lemma {:induction false} TrimmedIsFixedPoint(s: string)
    requires IsTrimmed(s)
    ensures Trim(s) == s
  {
  }

  /** `trim()` is idempotent. */
  lemma TrimIdempotent(s: string)
    ensures Trim(Trim(s)) == Trim(s)
  {
    TrimmedIsFixedPoint(Trim(s));
  }

  /** The number of UTF-16 code units of `s`: what JavaScript's `length`
      reports and what `substring` counts in. Characters above U+FFFF take a
      surrogate pair. */
  function Utf16Length(s: string): (n: nat)
    ensures |s| <= n <= 2 * |s|
  {
    if s == [] then 0 else Utf16Units(s[0]) + Utf16Length(s[1..])
  }

  function Utf16Units(c: char): nat {
    if c as int > 0xFFFF then 2 else 1
  }

  lemma {:induction false} Utf16LengthAppend(a: string, b: string)
    ensures Utf16Length(a + b) == Utf16Length(a) + Utf16Length(b)
  {
    if a == [] {
      assert a + b == b;
    } else {
      var ab := a + b;
      assert ab[0] == a[0] && ab[1..] == a[1..] + b;
      Utf16LengthAppend(a[1..], b);
      assert Utf16Length(ab) == Utf16Units(ab[0]) + Utf16Length(ab[1..]);
    }
  }

  /** A UTF-16 code unit. */
  type CodeUnit = x: int | 0 <= x < 0x1_0000

  /** The code units of one character: the character itself below U+10000,
      its surrogate pair above. */
  function EncodeChar(c: char): (r: seq<CodeUnit>)
    ensures |r| == Utf16Units(c)
    ensures |r| == 1 ==> r[0] == c as int
    ensures |r| == 2 ==> 0xD800 <= r[0] < 0xDC00 <= r[1] < 0xE000
    ensures |r| == 2 ==> 0x1_0000 + (r[0] as int - 0xD800) * 0x400 + (r[1] as int - 0xDC00) == c as int
  {
    var v := c as int;
    if v <= 0xFFFF then [v]
    else [0xD800 + (v - 0x1_0000) / 0x400, 0xDC00 + (v - 0x1_0000) % 0x400]
  }

  /** The JavaScript string holding `s`: its UTF-16 code units. */
  function Utf16Encode(s: string): (r: seq<CodeUnit>)
    ensures |r| == Utf16Length(s)
  {
    if s == [] then [] else EncodeChar(s[0]) + Utf16Encode(s[1..])
  }

  /** Trimming never lengthens a string, counted in UTF-16 code units. */
  lemma TrimShortensUtf16(s: string)
    ensures Utf16Length(Trim(s)) <= Utf16Length(s)
  {
    var t := TrimStart(s);
    assert Trim(s) == TrimEnd(t);
    SuffixShortensUtf16(s, |s| - |t|);
    PrefixShortensUtf16(t, |TrimEnd(t)|);
  }

  /** A suffix is no longer than the whole, in UTF-16 units. */
  lemma SuffixShortensUtf16(s: string, i: nat)
    requires i <= |s|
    ensures Utf16Length(s[i..]) <= Utf16Length(s)
  {
    assert s == s[..i] + s[i..];
    Utf16LengthAppend(s[..i], s[i..]);
  }

  /** A prefix is no longer than the whole, in UTF-16 units. */
  lemma PrefixShortensUtf16(s: string, j: nat)
    requires j <= |s|
    ensures Utf16Length(s[..j]) <= Utf16Length(s)
  {
    assert s == s[..j] + s[j..];
    Utf16LengthAppend(s[..j], s[j..]);
  }

  /** Strict lexicographic order of JavaScript's `<` on strings, comparing
      character by character, a proper prefix first. */
  predicate Less(a: string, b: string) {
    if a == [] then b != []
    else b != [] && (a[0] < b[0] || (a[0] == b[0] && Less(a[1..], b[1..])))
  }

  lemma {:induction false} LessIrreflexive(a: string)
    ensures !Less(a, a)
  {
    if a != [] {
      LessIrreflexive(a[1..]);
    }
  }

  lemma {:induction false} LessAsymmetric(a: string, b: string)
    requires Less(a, b)
    ensures !Less(b, a)
  {
    if a != [] && b != [] && a[0] == b[0] {
      LessAsymmetric(a[1..], b[1..]);
    }
  }

  lemma {:induction false} LessTransitive(a: string, b: string, c: string)
    requires Less(a, b) && Less(b, c)
    ensures Less(a, c)
  {
    if a != [] && a[0] == b[0] && b[0] == c[0] {
      LessTransitive(a[1..], b[1..], c[1..]);
    }
  }

  /** Two strings are equal or one is below the other. */
  lemma {:induction false} LessTotal(a: string, b: string)
    ensures a == b || Less(a, b) || Less(b, a)
  {
    if a != [] && b != [] && a[0] == b[0] {
      LessTotal(a[1..], b[1..]);
      if a[1..] == b[1..] {
        assert a == [a[0]] + a[1..] && b == [b[0]] + b[1..];
      }
    }
  }
}
