/** String helpers with JavaScript semantics: `String.prototype.trim`,
    `String.prototype.includes`, and the decimal text of a non-negative
    integer as a template literal renders it. */
module Text {

  /** The code points JavaScript's `trim()` removes: WhiteSpace and LineTerminator. */
  predicate IsWhitespace(c: char) {
    || c == ' ' || c == '\t' || c == '\n' || c == '\r'
    || c == '\U{000B}' || c == '\U{000C}' || c == '\U{00A0}' || c == '\U{1680}'
    || ('\U{2000}' <= c <= '\U{200A}')
    || c == '\U{2028}' || c == '\U{2029}' || c == '\U{202F}' || c == '\U{205F}'
    || c == '\U{3000}' || c == '\U{FEFF}'
  }

  /** Every character is whitespace; JavaScript's `!s.trim()`. */
  predicate IsBlank(s: string) {
    forall i :: 0 <= i < |s| ==> IsWhitespace(s[i])
  }

  /** Where `s.trim()` starts: the first non-whitespace position at or
      after `from`, or `|s|` when there is none. */
  function FirstNonWhitespace(s: string, from: nat): (i: nat)
    requires from <= |s|
    ensures from <= i <= |s|
    ensures forall k :: from <= k < i ==> IsWhitespace(s[k])
    ensures i == |s| || !IsWhitespace(s[i])
    decreases |s| - from
  {
    if from == |s| || !IsWhitespace(s[from]) then from else FirstNonWhitespace(s, from + 1)
  }

  /** Where `s.trim()` ends: one past the last non-whitespace position
      before `hi`, and not below `lo`. */
  function EndOfText(s: string, lo: nat, hi: nat): (j: nat)
    requires lo <= hi <= |s|
    ensures lo <= j <= hi
    ensures forall k :: j <= k < hi ==> IsWhitespace(s[k])
    ensures j == lo || !IsWhitespace(s[j - 1])
    decreases hi
  {
    if hi == lo || !IsWhitespace(s[hi - 1]) then hi else EndOfText(s, lo, hi - 1)
  }

  function TrimStartIndex(s: string): nat {
    FirstNonWhitespace(s, 0)
  }

  function TrimEndIndex(s: string): (j: nat)
    ensures TrimStartIndex(s) <= j <= |s|
  {
    EndOfText(s, TrimStartIndex(s), |s|)
  }

  /** JavaScript's `s.trim()`: the slice between the leading and the
      trailing whitespace. */
  function Trim(s: string): string {
    s[TrimStartIndex(s)..TrimEndIndex(s)]
  }

  /** The trimmed text is empty exactly when `s` is blank. */
  lemma BlankIffTrimEmpty(s: string)
    ensures IsBlank(s) <==> Trim(s) == ""
  {
    var a := TrimStartIndex(s);
    var b := TrimEndIndex(s);
    if !IsBlank(s) {
      var k :| 0 <= k < |s| && !IsWhitespace(s[k]);
      assert a <= k;
      assert a < b;
      assert |Trim(s)| == b - a;
    }
  }

  /** Trimming leaves no whitespace at either end, and trimming twice is
      trimming once. */
  lemma TrimIdempotent(s: string)
    ensures Trim(s) == [] || (!IsWhitespace(Trim(s)[0]) && !IsWhitespace(Trim(s)[|Trim(s)| - 1]))
    ensures Trim(Trim(s)) == Trim(s)
  {
    var t := Trim(s);
    var a := TrimStartIndex(s);
    var b := TrimEndIndex(s);
    if t != [] {
      assert t[0] == s[a] && t[|t| - 1] == s[b - 1];
    }
  }

  /** A character outside the Basic Multilingual Plane, which UTF-16
      stores as a surrogate pair. */
  predicate IsAstral(c: char) {
    c > '\U{FFFF}'
  }

  /** JavaScript's `s.length`: UTF-16 code units, two for each astral
      character and one for every other. It equals the character count
      exactly when no character is astral. */
  function Utf16Length(s: string): (n: nat)
    ensures |s| <= n <= 2 * |s|
    ensures n == |s| <==> forall i :: 0 <= i < |s| ==> !IsAstral(s[i])
  {
    if s == [] then 0
    else
      assert forall i :: 1 <= i < |s| ==> s[i] == s[1..][i - 1];
      (if IsAstral(s[0]) then 2 else 1) + Utf16Length(s[1..])
  }

  predicate IsDigit(c: char) {
    '0' <= c <= '9'
  }

  function DigitChar(d: nat): (c: char)
    requires d < 10
    ensures IsDigit(c)
  {
    ('0' as int + d) as char
  }

  function DigitValue(c: char): (d: nat)
    requires IsDigit(c)
    ensures d < 10
  {
    c as int - '0' as int
  }

  predicate AllDigits(s: string) {
    forall i :: 0 <= i < |s| ==> IsDigit(s[i])
  }

  /** The decimal text of `n`, as `${n}` renders a non-negative integer:
      non-empty, digits only, no leading zero. */
  function NatToString(n: nat): (r: string)
    ensures |r| >= 1 && AllDigits(r)
    ensures |r| > 1 ==> r[0] != '0'
  {
    if n < 10 then [DigitChar(n)] else NatToString(n / 10) + [DigitChar(n % 10)]
  }

  /** The value of a string of decimal digits (the reference reading of
      decimal text, the inverse of NatToString). */
  function ParseDecimal(s: string): nat
    requires AllDigits(s)
  {
    if s == [] then 0 else 10 * ParseDecimal(s[..|s| - 1]) + DigitValue(s[|s| - 1])
  }

  lemma {:induction false} ParseNatToString(n: nat)
    ensures ParseDecimal(NatToString(n)) == n
  {
    var r := NatToString(n);
    if n >= 10 {
      ParseNatToString(n / 10);
      assert r[..|r| - 1] == NatToString(n / 10);
    }
  }

  /** Distinct numbers render as distinct text. */
  lemma NatToStringInjective(m: nat, n: nat)
    ensures NatToString(m) == NatToString(n) ==> m == n
  {
    ParseNatToString(m);
    ParseNatToString(n);
  }

  /** `needle` occurs in `hay` starting at index `i`. */
  predicate OccursAt(hay: string, needle: string, i: nat) {
    i + |needle| <= |hay| && hay[i..i + |needle|] == needle
  }

  /** JavaScript's `hay.includes(needle)`, scanning left to right. */
  function Includes(hay: string, needle: string): bool
  {
    if |needle| > |hay| then false
    else if hay[..|needle|] == needle then true
    else Includes(hay[1..], needle)
  }

  /** The scan finds `needle` exactly when it occurs at some index. */
  lemma {:induction false} IncludesIffOccurs(hay: string, needle: string)
    ensures Includes(hay, needle) <==> exists i: nat :: OccursAt(hay, needle, i)
  {
    if |needle| > |hay| {
    } else if hay[..|needle|] == needle {
      assert OccursAt(hay, needle, 0);
    } else {
      IncludesIffOccurs(hay[1..], needle);
      if Includes(hay[1..], needle) {
        var j: nat :| OccursAt(hay[1..], needle, j);
        assert hay[j + 1..j + 1 + |needle|] == hay[1..][j..j + |needle|];
        assert OccursAt(hay, needle, j + 1);
      }
      if i: nat :| OccursAt(hay, needle, i) {
        assert i != 0;
        assert hay[1..][i - 1..i - 1 + |needle|] == hay[i..i + |needle|];
        assert OccursAt(hay[1..], needle, i - 1);
      }
    }
  }

  /** A text built as `prefix + needle + suffix` includes `needle`. */
  lemma IncludesInfix(prefix: string, needle: string, suffix: string)
    ensures Includes(prefix + needle + suffix, needle)
  {
    var hay := prefix + needle + suffix;
    assert hay[|prefix|..|prefix| + |needle|] == needle;
    assert OccursAt(hay, needle, |prefix|);
    IncludesIffOccurs(hay, needle);
  }

  predicate StartsWith(s: string, prefix: string) {
    |prefix| <= |s| && s[..|prefix|] == prefix
  }
}
