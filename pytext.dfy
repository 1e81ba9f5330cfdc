/**
 * The few Python string and integer primitives the services rely on,
 * written out with the exact behaviour of CPython: `str.split` with an
 * explicit separator, `str.strip()`, `str(int)`, `int(str)`, the `:02d`
 * format and `str.upper()` on ASCII text.
 */
module PyText {
  import opened Wrappers

  // ---------------------------------------------------------------------
  // Whitespace and str.strip()
  // ---------------------------------------------------------------------

  /** The characters for which Python's `str.isspace()` holds, the ones `str.strip()` removes. */
  predicate IsSpace(c: char) {
    ('\U{9}' <= c <= '\U{D}') || ('\U{1C}' <= c <= '\U{20}') || c == '\U{85}' || c == '\U{A0}'
    || c == '\U{1680}' || ('\U{2000}' <= c <= '\U{200A}') || c == '\U{2028}' || c == '\U{2029}'
    || c == '\U{202F}' || c == '\U{205F}' || c == '\U{3000}'
  }

  predicate AllSpace(s: string) {
    forall i :: 0 <= i < |s| ==> IsSpace(s[i])
  }

  /** The position of the first non-whitespace character of `s` at or after `i`, or `|s|` when there is none. */
  function SkipSpace(s: string, i: nat): (j: nat)
    requires i <= |s|
    ensures i <= j <= |s|
    ensures forall k :: i <= k < j ==> IsSpace(s[k])
    ensures j < |s| ==> !IsSpace(s[j])
    decreases |s| - i
  {
    if i < |s| && IsSpace(s[i]) then SkipSpace(s, i + 1) else i
  }

  /** The end of `s[lo..hi]` once its trailing whitespace is dropped. */
  function SkipSpaceBack(s: string, lo: nat, hi: nat): (j: nat)
    requires lo <= hi <= |s|
    ensures lo <= j <= hi
    ensures forall k :: j <= k < hi ==> IsSpace(s[k])
    ensures j > lo ==> !IsSpace(s[j - 1])
    decreases hi
  {
    if hi > lo && IsSpace(s[hi - 1]) then SkipSpaceBack(s, lo, hi - 1) else hi
  }

  /** Where the text `strip()` keeps begins. */
  function StripStart(s: string): nat {
    SkipSpace(s, 0)
  }

  /** Where the text `strip()` keeps ends: leading whitespace goes first, then trailing whitespace. */
  function StripEnd(s: string): (j: nat)
    ensures StripStart(s) <= j <= |s|
  {
    SkipSpaceBack(s, StripStart(s), |s|)
  }

  /** Python's `s.strip()`: leading and trailing whitespace removed. */
  function Strip(s: string): (r: string)
    ensures |r| <= |s|
  {
    s[StripStart(s)..StripEnd(s)]
  }

  /**
   * The result of `strip()` is empty exactly when `s` is all whitespace,
   * and otherwise it neither starts nor ends with whitespace.
   */
  lemma StripSpec(s: string)
    ensures Strip(s) == [] <==> AllSpace(s)
    ensures Strip(s) != [] ==> !IsSpace(Strip(s)[0]) && !IsSpace(Strip(s)[|Strip(s)| - 1])
  {
    var lo, hi := StripStart(s), StripEnd(s);
    if lo < hi {
      assert !IsSpace(s[lo]);
    }
  }

  /** `SkipSpace` stops at the first non-whitespace character after a run of whitespace. */
  lemma SkipSpaceAt(s: string, i: nat, j: nat)
    requires i <= j < |s|
    requires forall k :: i <= k < j ==> IsSpace(s[k])
    requires !IsSpace(s[j])
    ensures SkipSpace(s, i) == j
  {
  }

  /** `SkipSpaceBack` stops right after the last non-whitespace character before a run of whitespace. */
  lemma SkipSpaceBackAt(s: string, lo: nat, hi: nat, j: nat)
    requires lo < j <= hi <= |s|
    requires forall k :: j <= k < hi ==> IsSpace(s[k])
    requires !IsSpace(s[j - 1])
    ensures SkipSpaceBack(s, lo, hi) == j
  {
  }

  /** Whitespace around a text whose ends are not whitespace is exactly what `strip()` removes. */
  lemma StripPadded(pre: string, mid: string, post: string)
    requires AllSpace(pre) && AllSpace(post)
    requires mid != [] && !IsSpace(mid[0]) && !IsSpace(mid[|mid| - 1])
    ensures Strip(pre + mid + post) == mid
  {
    var s := pre + mid + post;
    var lo, hi := |pre|, |pre| + |mid|;
    assert s[lo] == mid[0] && s[hi - 1] == mid[|mid| - 1];
    assert forall k :: 0 <= k < lo ==> s[k] == pre[k];
    SkipSpaceAt(s, 0, lo);
    assert forall k :: hi <= k < |s| ==> s[k] == post[k - hi];
    SkipSpaceBackAt(s, lo, |s|, hi);
    assert s[lo..hi] == mid;
  }

  /** A text that neither starts nor ends with whitespace is left alone by `strip()`. */
  lemma StripUnpadded(s: string)
    requires s != [] && !IsSpace(s[0]) && !IsSpace(s[|s| - 1])
    ensures Strip(s) == s
  {
    SkipSpaceAt(s, 0, 0);
    SkipSpaceBackAt(s, 0, |s|, |s|);
  }

  // ---------------------------------------------------------------------
  // str.split(sep)
  // ---------------------------------------------------------------------

  /** `sep.join(parts)` */
  function Join(parts: seq<string>, sep: char): string
    requires |parts| >= 1
  {
    if |parts| == 1 then parts[0] else parts[0] + [sep] + Join(parts[1..], sep)
  }

  /**
   * Python's `s.split(sep)` for a one-character separator: the pieces
   * between separators, empty ones included, so that joining them back
   * with the separator gives `s` again.
   */
  function Split(s: string, sep: char): (parts: seq<string>)
    ensures |parts| >= 1
    ensures forall k :: 0 <= k < |parts| ==> sep !in parts[k]
    ensures Join(parts, sep) == s
  {
    if |s| == 0 then [""]
    else
      var rest := Split(s[1..], sep);
      if s[0] == sep then
        assert [""] + rest == [""] + rest;
        assert ([""] + rest)[1..] == rest;
        [""] + rest
      else
        var parts := [[s[0]] + rest[0]] + rest[1..];
        assert parts[1..] == rest[1..];
        assert Join(parts, sep) == s by {
          if |rest| == 1 {
          } else {
            assert Join(rest, sep) == rest[0] + [sep] + Join(rest[1..], sep);
          }
        }
        parts
  }

  // ---------------------------------------------------------------------
  // str(int), the :02d format and int(str)
  // ---------------------------------------------------------------------

  function DigitChar(d: nat): char
    requires d < 10
  {
    ('0' as int + d) as char
  }

  predicate IsDigit(c: char) {
    '0' <= c <= '9'
  }

  /** The decimal digits of `n`, without leading zeros. */
  function NatDigits(n: nat): (s: string)
    ensures |s| >= 1
    decreases n
  {
    if n < 10 then [DigitChar(n)] else NatDigits(n / 10) + [DigitChar(n % 10)]
  }

  /** Python's `str(n)` for an integer. */
  function Decimal(n: int): string {
    if n < 0 then "-" + NatDigits(-n) else NatDigits(n)
  }

  /** Python's `f"{n:02d}"`: zero-padded to width two; a sign counts towards the width. */
  function Pad2(n: int): string {
    if 0 <= n < 10 then "0" + Decimal(n) else Decimal(n)
  }

  /** What an f-string prints for an optional integer: the number, or `None`. */
  function IdText(id: Option<int>): string {
    match id
    case None => "None"
    case Some(v) => Decimal(v)
  }

  /** `s[lo..hi]` consists of decimal digits. */
  predicate DigitsIn(s: string, lo: nat, hi: nat)
    requires lo <= hi <= |s|
  {
    forall i :: lo <= i < hi ==> IsDigit(s[i])
  }

  predicate IsDigits(s: string) {
    |s| > 0 && DigitsIn(s, 0, |s|)
  }

  function DigitValue(c: char): nat
    requires IsDigit(c)
  {
    c as int - '0' as int
  }

  /** The value of the decimal digits `s[lo..hi]`, most significant first. */
  function ValueIn(s: string, lo: nat, hi: nat): nat
    requires lo <= hi <= |s| && DigitsIn(s, lo, hi)
    decreases hi
  {
    if hi == lo then 0 else 10 * ValueIn(s, lo, hi - 1) + DigitValue(s[hi - 1])
  }

  /** The value of a string of decimal digits. */
  function DigitsValue(s: string): nat
    requires IsDigits(s)
  {
    ValueIn(s, 0, |s|)
  }

  /**
   * Python's `int(s)` on a string: surrounding whitespace is ignored, an
   * optional sign is accepted, and the rest must be decimal digits; any
   * other text raises `ValueError`, modelled as `None`.
   */
  function ParseInt(s: string): Option<int> {
    ParseSpan(s, StripStart(s), StripEnd(s))
  }

  /** `int()` of the stripped text `s[lo..hi]`. */
  function ParseSpan(s: string, lo: nat, hi: nat): Option<int>
    requires lo <= hi <= |s|
  {
    if lo < hi && (s[lo] == '+' || s[lo] == '-') then
      if lo + 1 < hi && DigitsIn(s, lo + 1, hi) then
        Some(if s[lo] == '-' then -(ValueIn(s, lo + 1, hi) as int) else ValueIn(s, lo + 1, hi) as int)
      else None
    else if lo < hi && DigitsIn(s, lo, hi) then Some(ValueIn(s, lo, hi))
    else None
  }

  /** Digits copied `k` places further along keep their value. */
  lemma {:induction false} ValueShift(s: string, t: string, k: nat, lo: nat, hi: nat)
    requires lo <= hi <= |t| && hi + k <= |s|
    requires forall i :: lo <= i < hi ==> s[i + k] == t[i]
    requires DigitsIn(t, lo, hi)
    ensures DigitsIn(s, lo + k, hi + k)
    ensures ValueIn(s, lo + k, hi + k) == ValueIn(t, lo, hi)
    decreases hi
  {
    forall i | lo + k <= i < hi + k ensures IsDigit(s[i]) {
      assert s[(i - k) + k] == t[i - k];
    }
    if hi > lo {
      ValueShift(s, t, k, lo, hi - 1);
      assert s[hi - 1 + k] == t[hi - 1];
    }
  }

  /** The rendering of a natural number is a string of digits that has that number as its value. */
  lemma {:induction false} DigitsValueOfNatDigits(n: nat)
    ensures IsDigits(NatDigits(n))
    ensures DigitsValue(NatDigits(n)) == n
    decreases n
  {
    var s := NatDigits(n);
    if n < 10 {
      assert s == [DigitChar(n)];
    } else {
      var p := NatDigits(n / 10);
      DigitsValueOfNatDigits(n / 10);
      assert s == p + [DigitChar(n % 10)];
      ValueShift(s, p, 0, 0, |p|);
      assert IsDigit(s[|p|]) && DigitValue(s[|p|]) == n % 10;
      assert ValueIn(s, 0, |p| + 1) == 10 * (n / 10) + n % 10;
    }
  }

  /** A string of decimal digits reads back as its value. */
  lemma ParseDigits(d: string)
    requires IsDigits(d)
    ensures ParseInt(d) == Some(DigitsValue(d))
  {
    assert IsDigit(d[0]) && IsDigit(d[|d| - 1]);
    StripUnpadded(d);
  }

  /** A minus sign followed by decimal digits reads back as the negated value. */
  lemma ParseNegatedDigits(d: string)
    requires IsDigits(d)
    ensures ParseInt("-" + d) == Some(-(DigitsValue(d) as int))
  {
    var s := "-" + d;
    assert s[0] == '-' && s[|s| - 1] == d[|d| - 1] && IsDigit(d[|d| - 1]);
    StripUnpadded(s);
    ValueShift(s, d, 1, 0, |d|);
  }

  /** `int(str(n)) == n`: the decimal rendering of an integer reads back as that integer. */
  lemma DecimalRoundTrip(n: int)
    ensures ParseInt(Decimal(n)) == Some(n)
  {
    if n < 0 {
      var d := NatDigits(-n);
      DigitsValueOfNatDigits(-n);
      ParseNegatedDigits(d);
    } else {
      DigitsValueOfNatDigits(n);
      ParseDigits(NatDigits(n));
    }
  }

  /** `int(f"{n:02d}") == n`, and for 0..99 the rendering is exactly two digits. */
  lemma Pad2RoundTrip(n: int)
    ensures ParseInt(Pad2(n)) == Some(n)
    ensures 0 <= n < 100 ==> |Pad2(n)| == 2 && IsDigits(Pad2(n))
  {
    if 0 <= n < 10 {
      var s := Pad2(n);
      assert s == [DigitChar(0), DigitChar(n)];
      assert ValueIn(s, 0, 2) == n;
      ParseDigits(s);
    } else {
      DecimalRoundTrip(n);
      if 10 <= n < 100 {
        DigitsValueOfNatDigits(n);
        assert NatDigits(n) == NatDigits(n / 10) + [DigitChar(n % 10)];
      }
    }
  }

  // ---------------------------------------------------------------------
  // str.upper() on ASCII text
  // ---------------------------------------------------------------------

  function UpperChar(c: char): char {
    if 'a' <= c <= 'z' then (c as int - 32) as char else c
  }

  /** Python's `str.upper()` for ASCII text. */
  function Upper(s: string): (r: string)
    ensures |r| == |s|
  {
    seq(|s|, i requires 0 <= i < |s| => UpperChar(s[i]))
  }
}
