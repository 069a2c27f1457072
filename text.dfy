/**
 * The few string operations of Python's `str` that the client core relies on,
 * restricted to ASCII: `lower()`, `strip()`, the `in` substring test,
 * `split(";")[0]` and `int()` on a header value.
 */
module Text {
  import opened Wrappers

  /** ASCII case folding, as `str.lower()` does on ASCII letters. */
  function LowerChar(c: char): (d: char)
    ensures 'A' <= c <= 'Z' ==> 'a' <= d <= 'z' && d as int == c as int + 32
    ensures !('A' <= c <= 'Z') ==> d == c
  {
    if 'A' <= c <= 'Z' then (c as int + 32) as char else c
  }

  function Lower(s: string): (r: string)
    ensures |r| == |s|
    ensures forall i {:trigger r[i]} :: 0 <= i < |s| ==> r[i] == LowerChar(s[i])
    ensures forall i :: 0 <= i < |r| ==> !('A' <= r[i] <= 'Z')
  {
    if s == [] then [] else [LowerChar(s[0])] + Lower(s[1..])
  }

  /** The ASCII characters for which `str.isspace()` holds. */
  predicate IsSpace(c: char)
  {
    c == ' ' || c == '\t' || c == '\n' || c == '\r' || c == '\U{B}' || c == '\U{C}'
    || ('\U{1C}' <= c <= '\U{1F}')
  }

  /** The index of the first non-space character at or after `i`, or `|s|`. */
  function SkipSpaces(s: string, i: nat): (k: nat)
    requires i <= |s|
    ensures i <= k <= |s|
    ensures k < |s| ==> !IsSpace(s[k])
    ensures forall j :: i <= j < k ==> IsSpace(s[j])
    decreases |s| - i
  {
    if i < |s| && IsSpace(s[i]) then SkipSpaces(s, i + 1) else i
  }

  /** The end of `s[lo..hi]` once its trailing spaces are cut off. */
  function TrimEnd(s: string, lo: nat, hi: nat): (k: nat)
    requires lo <= hi <= |s|
    ensures lo <= k <= hi
    ensures k > lo ==> !IsSpace(s[k - 1])
    ensures forall j :: k <= j < hi ==> IsSpace(s[j])
  {
    if hi > lo && IsSpace(s[hi - 1]) then TrimEnd(s, lo, hi - 1) else hi
  }

  /** `str.strip()`: drop leading and trailing whitespace, keep the middle as it is. */
  function Strip(s: string): (r: string)
    ensures r == [] || (!IsSpace(r[0]) && !IsSpace(r[|r| - 1]))
    ensures Contains(s, r)
    ensures (forall i :: 0 <= i < |s| ==> IsSpace(s[i])) <==> r == []
    ensures exists lo, hi :: (&& 0 <= lo <= hi <= |s| && r == s[lo..hi]
                              && (forall k :: 0 <= k < lo ==> IsSpace(s[k]))
                              && (forall k :: hi <= k < |s| ==> IsSpace(s[k])))
  {
    var lo := SkipSpaces(s, 0);
    var hi := TrimEnd(s, lo, |s|);
    assert forall k :: 0 <= k < lo ==> IsSpace(s[k]);
    assert OccursAt(s, s[lo..hi], lo);
    assert lo < hi ==> s[lo..hi][0] == s[lo];
    s[lo..hi]
  }

  /** `sub` occurs in `s` starting at index `i`. */
  predicate OccursAt(s: string, sub: string, i: nat)
  {
    i + |sub| <= |s| && s[i..i + |sub|] == sub
  }

  /** Python's `sub in s`. */
  predicate Contains(s: string, sub: string)
  {
    exists i: nat | i <= |s| :: OccursAt(s, sub, i)
  }

  /** `s.split(sep)[0]`: everything before the first `sep`, or all of `s`. */
  function BeforeFirst(s: string, sep: char): (r: string)
    ensures |r| <= |s| && r == s[..|r|]
    ensures sep !in r
    ensures |r| < |s| ==> s[|r|] == sep
  {
    if s == [] || s[0] == sep then [] else [s[0]] + BeforeFirst(s[1..], sep)
  }

  // ---------------------------------------------------------------------
  // `int(text)` for base-10 text, as Python accepts it: surrounding
  // whitespace, an optional sign, digits with single underscores between them.

  predicate IsDigit(c: char) { '0' <= c <= '9' }

  function DigitValue(c: char): (d: nat)
    requires IsDigit(c)
    ensures d < 10
  {
    c as int - '0' as int
  }

  function DigitChar(d: nat): (c: char)
    requires d < 10
    ensures IsDigit(c) && DigitValue(c) == d
  {
    ('0' as int + d) as char
  }

  /** The value of a string of decimal digits, most significant first. */
  function DecimalValue(s: string): nat
    requires forall i :: 0 <= i < |s| ==> IsDigit(s[i])
  {
    if s == [] then 0 else DecimalValue(s[..|s| - 1]) * 10 + DigitValue(s[|s| - 1])
  }

  /** Digits separated by single underscores, starting and ending with a digit. */
  predicate WellFormedDigits(s: string)
  {
    && |s| > 0
    && IsDigit(s[0]) && IsDigit(s[|s| - 1])
    && (forall i :: 0 <= i < |s| ==> IsDigit(s[i]) || s[i] == '_')
    && (forall i :: 0 <= i < |s| - 1 ==> !(s[i] == '_' && s[i + 1] == '_'))
  }

  function RemoveUnderscores(s: string): (r: string)
    requires forall i :: 0 <= i < |s| ==> IsDigit(s[i]) || s[i] == '_'
    ensures forall i :: 0 <= i < |r| ==> IsDigit(r[i])
    ensures (forall i :: 0 <= i < |s| ==> IsDigit(s[i])) ==> r == s
  {
    if s == [] then []
    else if s[0] == '_' then RemoveUnderscores(s[1..])
    else [s[0]] + RemoveUnderscores(s[1..])
  }

  function ParseDigits(s: string): Option<nat>
  {
    if WellFormedDigits(s) then Some(DecimalValue(RemoveUnderscores(s))) else None
  }

  /** A sign applied to a parsed magnitude. */
  function Signed(negative: bool, magnitude: Option<nat>): Option<int>
  {
    match magnitude
    case None => None
    case Some(n) => Some(if negative then -(n as int) else n as int)
  }

  /** `int(s)` in base 10; `None` where Python raises `ValueError`. */
  function ParseInt(s: string): (r: Option<int>)
    ensures r.Some? ==> Strip(s) != []
    ensures var t := Strip(s);
      r.Some? <==> t != [] && (if t[0] == '-' || t[0] == '+' then WellFormedDigits(t[1..]) else WellFormedDigits(t))
    ensures r.Some? && Strip(s)[0] == '-' ==> r.value <= 0
    ensures r.Some? && Strip(s)[0] != '-' ==> r.value >= 0
    ensures r.Some? ==>
      var t := Strip(s);
      var digits := if t[0] == '-' || t[0] == '+' then t[1..] else t;
      && WellFormedDigits(digits)
      && r.value == (if t[0] == '-' then -1 else 1) * DecimalValue(RemoveUnderscores(digits))
  {
    var t := Strip(s);
    if t == [] then None
    else if t[0] == '-' then Signed(true, ParseDigits(t[1..]))
    else if t[0] == '+' then Signed(false, ParseDigits(t[1..]))
    else Signed(false, ParseDigits(t))
  }

  /** `str(n)` for a natural number. */
  function ShowNat(n: nat): (s: string)
    ensures |s| > 0 && forall i :: 0 <= i < |s| ==> IsDigit(s[i])
  {
    if n < 10 then [DigitChar(n)] else ShowNat(n / 10) + [DigitChar(n % 10)]
  }

  /** `str(n)` for any integer. */
  function ShowInt(n: int): string
  {
    if n < 0 then "-" + ShowNat(-n) else ShowNat(n)
  }

  lemma {:induction false} ShowNatValue(n: nat)
    ensures DecimalValue(ShowNat(n)) == n
  {
    if n >= 10 {
      var s := ShowNat(n);
      assert s[..|s| - 1] == ShowNat(n / 10);
      ShowNatValue(n / 10);
    }
  }

  lemma StripNoSpace(s: string)
    requires |s| > 0 && !IsSpace(s[0]) && !IsSpace(s[|s| - 1])
    ensures Strip(s) == s
  {
  }

  lemma ParseShowNat(n: nat)
    ensures ParseDigits(ShowNat(n)) == Some(n)
  {
    var digits := ShowNat(n);
    ShowNatValue(n);
    assert WellFormedDigits(digits);
    assert RemoveUnderscores(digits) == digits;
  }

  /** `int(str(n)) == n`: what the server writes with `str()` comes back unchanged. */
  lemma ParseShowInt(n: int)
    ensures ParseInt(ShowInt(n)) == Some(n)
  {
    if n < 0 {
      var digits := ShowNat(-n);
      ParseShowNat(-n);
      var s := "-" + digits;
      assert s[1..] == digits;
      assert !IsSpace(s[|s| - 1]) by { assert s[|s| - 1] == digits[|digits| - 1]; }
      StripNoSpace(s);
      assert ParseInt(s) == Signed(true, ParseDigits(digits));
    } else {
      var digits := ShowNat(n);
      ParseShowNat(n);
      StripNoSpace(digits);
      assert digits[0] != '-' && digits[0] != '+';
      assert ParseInt(digits) == Signed(false, ParseDigits(digits));
    }
  }
}
