/** Decimal text for integers, as Python's `str(int)` writes it and
    `int(str)` reads it back (ASCII digits and whitespace only). */
module Decimal {
  import opened Common

  predicate IsDigit(c: char) {
    '0' <= c <= '9'
  }

  /** The ASCII whitespace `int()` skips around its digits. */
  predicate IsSpace(c: char) {
    c == ' ' || c == '\t' || c == '\n' || c == '\r' || c == '\U{B}' || c == '\U{C}'
  }

  predicate AllDigits(s: string) {
    forall i :: 0 <= i < |s| ==> IsDigit(s[i])
  }

  function DigitChar(d: nat): (c: char)
    requires d < 10
    ensures IsDigit(c)
  {
    ['0', '1', '2', '3', '4', '5', '6', '7', '8', '9'][d]
  }

  function DigitValue(c: char): (d: nat)
    requires IsDigit(c)
    ensures d < 10 && DigitChar(d) == c
  {
    (c as int - '0' as int) as nat
  }

  /** `str(n)` for a non-negative integer: most significant digit first,
      no leading zeros. */
  function NatToString(n: nat): (s: string)
    ensures |s| > 0 && AllDigits(s)
    ensures n >= 10 <==> |s| > 1
    decreases n
  {
    if n < 10 then [DigitChar(n)] else NatToString(n / 10) + [DigitChar(n % 10)]
  }

  /** The value of a string of decimal digits. */
  function DigitsValue(s: string): nat
    requires AllDigits(s)
  {
    if s == [] then 0 else DigitsValue(s[..|s| - 1]) * 10 + DigitValue(s[|s| - 1])
  }

  /** Drops leading whitespace. */
  function TrimLeft(s: string): (r: string)
    ensures |r| <= |s| && r == s[|s| - |r|..]
    ensures r == [] || !IsSpace(r[0])
    ensures forall i :: 0 <= i < |s| - |r| ==> IsSpace(s[i])
  {
    if |s| > 0 && IsSpace(s[0]) then TrimLeft(s[1..]) else s
  }

  /** Drops trailing whitespace. */
  function TrimRight(s: string): (r: string)
    ensures |r| <= |s| && r == s[..|r|]
    ensures r == [] || !IsSpace(r[|r| - 1])
    ensures forall i :: |r| <= i < |s| ==> IsSpace(s[i])
  {
    if |s| > 0 && IsSpace(s[|s| - 1]) then TrimRight(s[..|s| - 1]) else s
  }

  /** Drops the ASCII whitespace `int()` skips at both ends. */
  function Trim(s: string): string {
    TrimRight(TrimLeft(s))
  }

  /** The digit part `int()` accepts: digits, with single underscores
      allowed between two digits. */
  predicate WellFormedDigits(s: string) {
    && |s| > 0
    && IsDigit(s[0])
    && IsDigit(s[|s| - 1])
    && (forall i :: 0 <= i < |s| ==> IsDigit(s[i]) || s[i] == '_')
    && (forall i :: 0 <= i < |s| - 1 ==> s[i] == '_' ==> s[i + 1] != '_')
  }

  /** Removes the grouping underscores. */
  function WithoutUnderscores(s: string): (r: string)
    requires forall i :: 0 <= i < |s| ==> IsDigit(s[i]) || s[i] == '_'
    ensures AllDigits(r) && |r| <= |s|
  {
    if s == [] then []
    else if s[0] == '_' then WithoutUnderscores(s[1..])
    else [s[0]] + WithoutUnderscores(s[1..])
  }

  /** The default `sys.get_int_max_str_digits()` of Python 3.12: `int()`
      refuses a decimal text with more digits than this. */
  const MaxStrDigits: nat := 4300

  /** The magnitude `int()` reads from the text after whitespace and sign:
      `None` for a malformed digit part or one past the digit limit. */
  function Magnitude(body: string): (r: Option<nat>)
    ensures r.Some? ==> |body| > 0 && IsDigit(body[0])
  {
    if WellFormedDigits(body) && |WithoutUnderscores(body)| <= MaxStrDigits then
      Some(DigitsValue(WithoutUnderscores(body)))
    else
      None
  }

  /** `int(s)` for a `str` argument in base 10: `Some(value)`, or `None`
      where Python raises `ValueError` (a malformed text, or one with more
      than `MaxStrDigits` digits, underscores not counted). */
  function ParseInt(s: string): (r: Option<int>)
    ensures r.Some? ==> exists i :: 0 <= i < |s| && IsDigit(s[i])
  {
    var t := Trim(s);
    var signed := |t| > 0 && (t[0] == '+' || t[0] == '-');
    var body := if signed then t[1..] else t;
    match Magnitude(body)
    case None => None
    case Some(magnitude) =>
      assert exists i :: 0 <= i < |s| && IsDigit(s[i]) by {
        var k := |s| - |TrimLeft(s)| + (if signed then 1 else 0);
        assert s[k] == body[0];
      }
      var value: int := if signed && t[0] == '-' then -(magnitude as int) else magnitude;
      Some(value)
  }

  lemma {:induction false} DigitsValueOfNatToString(n: nat)
    ensures DigitsValue(NatToString(n)) == n
    decreases n
  {
    var s := NatToString(n);
    if n >= 10 {
      DigitsValueOfNatToString(n / 10);
      assert s[..|s| - 1] == NatToString(n / 10);
    }
  }

  lemma {:induction false} NoUnderscoresUnchanged(s: string)
    requires AllDigits(s)
    ensures WithoutUnderscores(s) == s
  {
    if s != [] {
      NoUnderscoresUnchanged(s[1..]);
    }
  }

  /** A text of plain decimal digits, leading zeros included, reads as its
      value when it is within the digit limit. */
  lemma ParseIntOfDigits(s: string)
    requires s != [] && AllDigits(s) && |s| <= MaxStrDigits
    ensures ParseInt(s) == Some(DigitsValue(s))
  {
    TrimDigits(s);
    assert s[0] != '+' && s[0] != '-';
    MagnitudeOfDigits(s);
  }

  /** Plain digits within the limit are a well-formed digit part. */
  lemma MagnitudeOfDigits(s: string)
    requires s != [] && AllDigits(s) && |s| <= MaxStrDigits
    ensures Magnitude(s) == Some(DigitsValue(s))
  {
    NoUnderscoresUnchanged(s);
    assert WellFormedDigits(s);
  }

  /** Digits carry no whitespace to strip. */
  lemma TrimDigits(s: string)
    requires s != [] && AllDigits(s)
    ensures Trim(s) == s
  {
    assert !IsSpace(s[0]) && !IsSpace(s[|s| - 1]);
    assert TrimLeft(s) == s;
    assert TrimRight(s) == s;
  }

  /** Past the digit limit `int()` refuses even plain digits. */
  lemma ParseIntRefusesLongDigits(s: string)
    requires AllDigits(s) && |s| > MaxStrDigits
    ensures ParseInt(s) == None
  {
    TrimDigits(s);
    assert s[0] != '+' && s[0] != '-';
    NoUnderscoresUnchanged(s);
  }

  /** A character other than a digit, whitespace, a sign or an underscore
      anywhere in the text makes `int()` refuse it. */
  lemma ParseIntRefusesForeign(s: string, i: nat)
    requires i < |s| && !IsDigit(s[i]) && !IsSpace(s[i]) && s[i] !in "+-_"
    ensures ParseInt(s) == None
  {
    var t := Trim(s);
    var j := TrimKeeps(s, i);
    var signed := |t| > 0 && (t[0] == '+' || t[0] == '-');
    var body := if signed then t[1..] else t;
    var k := if signed then j - 1 else j;
    assert 0 <= k < |body| && body[k] == s[i];
    MagnitudeRefusesForeign(body, k);
  }

  /** A character that is not whitespace stays in the trimmed text. */
  lemma TrimKeeps(s: string, i: nat) returns (j: nat)
    requires i < |s| && !IsSpace(s[i])
    ensures j < |Trim(s)| && Trim(s)[j] == s[i]
  {
    var left := TrimLeft(s);
    var skipped := |s| - |left|;
    assert i >= skipped;
    assert left[i - skipped] == s[i];
    j := i - skipped;
    assert j < |TrimRight(left)|;
  }

  /** A character that is neither a digit nor an underscore spoils the
      digit part. */
  lemma MagnitudeRefusesForeign(body: string, k: nat)
    requires k < |body| && !IsDigit(body[k]) && body[k] != '_'
    ensures Magnitude(body) == None
  {
    assert !WellFormedDigits(body);
  }

  /** Reading back what `str` wrote gives the number: `int(str(n)) == n`,
      for every text `str` writes within the digit limit. */
  lemma ParseIntOfNatToString(n: nat)
    requires |NatToString(n)| <= MaxStrDigits
    ensures ParseInt(NatToString(n)) == Some(n)
  {
    ParseIntOfDigits(NatToString(n));
    DigitsValueOfNatToString(n);
  }

  /** Numbers below 10^k have at most k digits: a port below 65536 has at
      most five. */
  lemma {:induction false} NatToStringLength(n: nat, k: nat)
    requires 1 <= k && n < Pow10(k)
    ensures |NatToString(n)| <= k
    decreases k
  {
    if n >= 10 {
      assert Pow10(1) == 10;
      assert n / 10 < Pow10(k - 1);
      NatToStringLength(n / 10, k - 1);
    }
  }

  function Pow10(k: nat): (p: nat)
    ensures p >= 1
  {
    if k == 0 then 1 else 10 * Pow10(k - 1)
  }

  /** Distinct numbers have distinct decimal texts. */
  lemma NatToStringInjective(m: nat, n: nat)
    requires NatToString(m) == NatToString(n)
    ensures m == n
  {
    DigitsValueOfNatToString(m);
    DigitsValueOfNatToString(n);
  }
}
