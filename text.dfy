/**
 * The string primitives the wizard relies on: `Number.prototype.toString`
 * on whole numbers, `parseFloat` on the integer strings the wizard stores,
 * `String.prototype.trim` and `String.prototype.padStart`.
 */
module Text {
  import opened Wrappers

  predicate IsDigit(c: char) {
    '0' <= c <= '9'
  }

  predicate AllDigits(s: string) {
    forall i :: 0 <= i < |s| ==> IsDigit(s[i])
  }

  /** The white-space characters `trim` and `parseFloat` skip (ASCII and the common Unicode ones). */
  predicate IsSpace(c: char) {
    c == ' ' || '\t' <= c <= '\r' || c == '\U{00A0}' || '\U{2028}' <= c <= '\U{2029}' || c == '\U{FEFF}'
  }

  /** Nothing but white space. */
  predicate Blank(s: string) {
    s == [] || (IsSpace(s[0]) && Blank(s[1..]))
  }

  function DigitChar(d: nat): (c: char)
    requires d < 10
    ensures IsDigit(c)
  {
    (48 + d) as char
  }

  function DigitValue(c: char): (d: nat)
    requires IsDigit(c)
    ensures d < 10
  {
    (c as int) - 48
  }

  /** Decimal rendering of a whole number, as `n.toString()` gives it. */
  function NatToString(n: nat): (s: string)
    ensures |s| >= 1 && AllDigits(s)
    ensures s[0] == '0' <==> n == 0
    ensures n < 10 <==> |s| == 1
    ensures n < 100 ==> |s| <= 2
  {
    if n < 10 then [DigitChar(n)] else NatToString(n / 10) + [DigitChar(n % 10)]
  }

  /** The number a string of decimal digits denotes (leading zeros allowed). */
  function DigitsValue(s: string): nat
    requires AllDigits(s)
  {
    if s == [] then 0 else DigitsValue(s[..|s| - 1]) * 10 + DigitValue(s[|s| - 1])
  }

  /** How many decimal digits `s` starts with. */
  function LeadingDigits(s: string): (k: nat)
    ensures k <= |s| && AllDigits(s[..k])
    ensures k < |s| ==> !IsDigit(s[k])
  {
    if s == [] || !IsDigit(s[0]) then 0
    else
      var k := 1 + LeadingDigits(s[1..]);
      assert s[..k] == [s[0]] + s[1..][..k - 1];
      k
  }

  function TrimStart(s: string): (r: string)
    ensures |r| <= |s| && r == s[|s| - |r|..]
    ensures r == [] || !IsSpace(r[0])
    ensures Blank(s[..|s| - |r|])
  {
    if s != [] && IsSpace(s[0]) then
      var r := TrimStart(s[1..]);
      assert s[1..][|s| - 1 - |r|..] == s[|s| - |r|..];
      BlankCons(s, |s| - 1 - |r|);
      r
    else
      s
  }

  function TrimEnd(s: string): (r: string)
    ensures |r| <= |s| && r == s[..|r|]
    ensures r == [] || !IsSpace(r[|r| - 1])
    ensures Blank(s[|r|..])
  {
    if s != [] && IsSpace(s[|s| - 1]) then
      var r := TrimEnd(s[..|s| - 1]);
      assert s[|r|..] == s[..|s| - 1][|r|..] + [s[|s| - 1]];
      BlankConcat(s[..|s| - 1][|r|..], [s[|s| - 1]]);
      r
    else
      s
  }

  /** `s.trim()`: white space removed at both ends; empty exactly when `s` is blank. */
  function Trim(s: string): (r: string)
    ensures |r| <= |s|
    ensures r == [] || (!IsSpace(r[0]) && !IsSpace(r[|r| - 1]))
    ensures r == [] <==> Blank(s)
    ensures exists i :: Stripped(s, r, i)
  {
    TrimEmptyIffBlank(s);
    TrimIsSlice(s);
    TrimEnd(TrimStart(s))
  }

  /** `r` is `s` with the blank prefix `s[..i]` and a blank suffix cut off. */
  predicate Stripped(s: string, r: string, i: int) {
    0 <= i <= |s| - |r| && r == s[i..i + |r|] && Blank(s[..i]) && Blank(s[i + |r|..])
  }

  /** Trimming cuts only white space, and only from the two ends: what is left is a slice of the input. */
  lemma TrimIsSlice(s: string)
    ensures Stripped(s, TrimEnd(TrimStart(s)), |s| - |TrimStart(s)|)
  {
    var t := TrimStart(s);
    var r := TrimEnd(t);
    var i := |s| - |t|;
    assert t == s[i..];
    SliceOfSuffix(s, i, |r|);
    StrippedParts(s, r, i);
  }

  lemma StrippedParts(s: string, r: string, i: nat)
    requires i + |r| <= |s| && r == s[i..i + |r|]
    requires Blank(s[..i]) && Blank(s[i + |r|..])
    ensures Stripped(s, r, i)
  {
  }

  lemma SliceOfSuffix(s: string, i: nat, n: nat)
    requires i + n <= |s|
    ensures s[i..][..n] == s[i..i + n] && s[i..][n..] == s[i + n..]
  {
  }

  /** A blank prefix of `s[1..]` stays blank with a blank `s[0]` in front of it. */
  lemma BlankCons(s: string, k: nat)
    requires s != [] && IsSpace(s[0]) && k < |s| && Blank(s[1..][..k])
    ensures Blank(s[..k + 1])
  {
    assert s[..k + 1][0] == s[0];
    assert s[..k + 1][1..] == s[1..][..k];
  }

  lemma TrimEndKeeps(s: string)
    requires s != [] && !IsSpace(s[|s| - 1])
    ensures TrimEnd(s) == s
  {
  }

  lemma TrimEmptyIffBlank(s: string)
    ensures TrimEnd(TrimStart(s)) == [] <==> Blank(s)
  {
    TrimStartBlank(s);
    TrimEndEmptyIffBlank(TrimStart(s));
  }

  /** Cutting the leading white space does not change whether a string is blank. */
  lemma TrimStartBlank(s: string)
    ensures Blank(TrimStart(s)) <==> Blank(s)
  {
    var t := TrimStart(s);
    BlankAfterBlankPrefix(s, |s| - |t|);
  }

  lemma BlankAfterBlankPrefix(s: string, k: nat)
    requires k <= |s| && Blank(s[..k])
    ensures Blank(s[k..]) <==> Blank(s)
  {
    assert s == s[..k] + s[k..];
    BlankConcat(s[..k], s[k..]);
  }

  lemma TrimEndEmptyIffBlank(t: string)
    ensures TrimEnd(t) == [] <==> Blank(t)
  {
    var r := TrimEnd(t);
    if r == [] {
      assert t[0..] == t;
    } else {
      assert t[|r| - 1] == r[|r| - 1];
      BlankAt(t, |r| - 1);
    }
  }

  /** Every character of a blank string is white space. */
  lemma {:induction false} BlankAt(s: string, j: nat)
    requires j < |s|
    ensures Blank(s) ==> IsSpace(s[j])
  {
    if j > 0 {
      assert s[1..][j - 1] == s[j];
      BlankAt(s[1..], j - 1);
    }
  }

  lemma {:induction false} BlankConcat(a: string, b: string)
    ensures Blank(a + b) <==> Blank(a) && Blank(b)
  {
    if a == [] {
      assert a + b == b;
    } else {
      assert (a + b)[0] == a[0];
      assert (a + b)[1..] == a[1..] + b;
      BlankConcat(a[1..], b);
    }
  }

  /** A string whose first character is not white space is not blank, so its trimmed form is not empty. */
  lemma TrimNonEmpty(s: string)
    requires s != [] && !IsSpace(s[0])
    ensures Trim(s) != []
  {
    assert !Blank(s);
  }

  /** `k` copies of `c`. */
  function Repeat(c: char, k: nat): (r: string)
    ensures |r| == k && forall i :: 0 <= i < k ==> r[i] == c
  {
    if k == 0 then [] else [c] + Repeat(c, k - 1)
  }

  /** `s.padStart(width, [fill])`: `fill` repeated in front of `s` up to `width` characters. */
  function PadStart(s: string, width: nat, fill: char): (r: string)
    ensures |r| == if |s| < width then width else |s|
    ensures r[|r| - |s|..] == s
    ensures forall i :: 0 <= i < |r| - |s| ==> r[i] == fill
  {
    if |s| >= width then s
    else
      var r := Repeat(fill, width - |s|) + s;
      assert r[|r| - |s|..] == s;
      r
  }

  function ParseDigits(s: string): (r: Option<nat>)
    ensures r.None? <==> (s == [] || !IsDigit(s[0]))
  {
    var k := LeadingDigits(s);
    if k == 0 then None else Some(DigitsValue(s[..k]))
  }

  /**
   * `parseFloat(s)` restricted to whole numbers: leading white space is
   * skipped, an optional sign is read, then the longest run of digits;
   * whatever follows is ignored. `None` stands for NaN.
   */
  function ParseNumber(s: string): Option<int> {
    ParseSigned(TrimStart(s))
  }

  /** An optional sign, then the longest run of digits. */
  function ParseSigned(t: string): Option<int> {
    if t != [] && (t[0] == '-' || t[0] == '+') then
      match ParseDigits(t[1..])
      case None => None
      case Some(v) => Some(if t[0] == '-' then 0 - v as int else v as int)
    else
      match ParseDigits(t)
      case None => None
      case Some(v) => Some(v as int)
  }

  /** `parseFloat(s) || 0`: NaN (and zero) become 0. */
  function ParseOrZero(s: string): int {
    ParseNumber(s).GetOr(0)
  }

  lemma {:induction false} DigitsValueOfNatToString(n: nat)
    ensures DigitsValue(NatToString(n)) == n
  {
    if n >= 10 {
      var s := NatToString(n);
      assert s[..|s| - 1] == NatToString(n / 10);
      DigitsValueOfNatToString(n / 10);
    }
  }

  lemma {:induction false} LeadingDigitsOfDigits(s: string)
    requires AllDigits(s)
    ensures LeadingDigits(s) == |s|
  {
    if s != [] {
      LeadingDigitsOfDigits(s[1..]);
    }
  }

  /** A leading zero does not change the value of a digit string. */
  lemma {:induction false} DigitsValueLeadingZero(s: string)
    requires AllDigits(s)
    ensures AllDigits(['0'] + s) && DigitsValue(['0'] + s) == DigitsValue(s)
  {
    var z := ['0'] + s;
    if s != [] {
      assert z[..|z| - 1] == ['0'] + s[..|s| - 1];
      DigitsValueLeadingZero(s[..|s| - 1]);
    } else {
      assert z[..|z| - 1] == [];
    }
  }

  lemma TrimStartKeeps(s: string)
    requires s != [] && !IsSpace(s[0])
    ensures TrimStart(s) == s
  {
  }

  lemma ParseDigitsAll(s: string)
    requires |s| >= 1 && AllDigits(s)
    ensures ParseDigits(s) == Some(DigitsValue(s))
  {
    LeadingDigitsOfDigits(s);
    assert s[..|s|] == s;
  }

  /** A non-empty string of digits parses to the number it denotes. */
  lemma ParseDigitString(s: string)
    requires |s| >= 1 && AllDigits(s)
    ensures ParseNumber(s) == Some(DigitsValue(s) as int)
  {
    TrimStartKeeps(s);
    ParseDigitsAll(s);
    assert s[0] != '-' && s[0] != '+';
  }

  /** Round trip: `parseFloat(n.toString())` gives back `n` for every whole number. */
  lemma ParseNatToString(n: nat)
    ensures ParseNumber(NatToString(n)) == Some(n)
    ensures ParseOrZero(NatToString(n)) == n
  {
    ParseDigitString(NatToString(n));
    DigitsValueOfNatToString(n);
  }

  /** White space before a number is skipped. */
  lemma ParseSkipsLeadingSpace(c: char, s: string)
    requires IsSpace(c)
    ensures ParseNumber([c] + s) == ParseNumber(s)
  {
    var cs := [c] + s;
    assert cs[1..] == s;
    assert TrimStart(cs) == TrimStart(s);
  }

  /** A minus sign before the digits negates the value. */
  lemma ParseNegative(n: nat)
    ensures ParseNumber("-" + NatToString(n)) == Some(0 - n)
    ensures ParseOrZero("-" + NatToString(n)) == 0 - n
  {
    var digits := NatToString(n);
    var s := "-" + digits;
    TrimStartKeeps(s);
    assert s[0] == '-' && s[1..] == digits;
    ParseDigitsAll(digits);
    DigitsValueOfNatToString(n);
    assert ParseDigits(s[1..]) == Some(n);
  }

  /**
   * Text that starts with neither white space, a sign, a digit, a decimal
   * point nor the `I` of `Infinity` is NaN, which `|| 0` turns into 0.
   */
  lemma ParseNotNumber(s: string)
    requires s == [] || (!IsSpace(s[0]) && !IsDigit(s[0]) && s[0] != '-' && s[0] != '+' && s[0] != '.' && s[0] != 'I')
    ensures ParseNumber(s).None? && ParseOrZero(s) == 0
  {
    if s != [] {
      TrimStartKeeps(s);
    }
  }
}
