/** Printing and parsing of sequence numbers, as `to_string` and `strtol` do, and the filter on replies. */
module SequenceNumbers {

  const TWO31 := 0x8000_0000
  const TWO32 := 0x1_0000_0000

  function Digit(d: nat): char
    requires d < 10
  {
    ['0', '1', '2', '3', '4', '5', '6', '7', '8', '9'][d]
  }

  predicate IsDigit(c: char) {
    '0' <= c <= '9'
  }

  function DigitValue(c: char): nat
    requires IsDigit(c)
  {
    c as nat - '0' as nat
  }

  /** The decimal print of `n`. */
  function ToString(n: nat): (s: string)
    ensures s != [] && forall i :: 0 <= i < |s| ==> IsDigit(s[i])
  {
    if n < 10 then [Digit(n)] else ToString(n / 10) + [Digit(n % 10)]
  }

  /** The C string at the start of `s`. */
  function CString(s: string): string {
    if s == [] || s[0] == '\0' then [] else [s[0]] + CString(s[1..])
  }

  predicate IsSpace(c: char) {
    c == ' ' || '\t' <= c <= '\r'
  }

  function Spaces(s: string): (i: nat)
    ensures i <= |s|
  {
    if s == [] || !IsSpace(s[0]) then 0 else 1 + Spaces(s[1..])
  }

  function DigitRun(s: string): (k: nat)
    ensures k <= |s| && forall i :: 0 <= i < k ==> IsDigit(s[i])
  {
    if s == [] || !IsDigit(s[0]) then 0 else 1 + DigitRun(s[1..])
  }

  function Value(s: string): nat
    requires forall i :: 0 <= i < |s| ==> IsDigit(s[i])
  {
    if s == [] then 0 else Value(s[..|s| - 1]) * 10 + DigitValue(s[|s| - 1])
  }

  function Clamp(w: int, longMax: int): int {
    if w > longMax then longMax else if w < -longMax - 1 then -longMax - 1 else w
  }

  /** The result of a conversion in base 10, and how much of the string it used; nothing if there are no digits. */
  function Strtol(s: string, longMax: nat): (int, nat) {
    var i := Spaces(s);
    var signed := i < |s| && (s[i] == '-' || s[i] == '+');
    ConvertAt(s, if signed then i + 1 else i, signed && s[i] == '-', longMax)
  }

  /** The conversion of the digits at `j`. */
  function ConvertAt(s: string, j: nat, negative: bool, longMax: nat): (int, nat)
    requires j <= |s|
  {
    var k := DigitRun(s[j..]);
    if k == 0 then (0, 0)
    else
      var v: int := Value(s[j..][..k]);
      (Clamp(if negative then -v else v, longMax), j + k)
  }

  /** What a `long` becomes in an `int` of 32 bits. */
  function ToInt(v: int): int {
    var r := v % TWO32;
    if r < TWO31 then r else r - TWO32
  }

  /** `longMax` is the largest `long`: 2^31 - 1 on some platforms and 2^63 - 1 on others. */
  function StoSeq(s: string, longMax: nat): int {
    var c := CString(s);
    var (v, end) := Strtol(c, longMax);
    if end == |c| then ToInt(v) else -1
  }

  /**
    The filter on replies: a number that is not the latest sequence number is
    turned away; the comparison is unsigned.
  */
  predicate Accepted(control: string, sequence: nat, longMax: nat) {
    var n := StoSeq(control, longMax);
    n == -1 || n % TWO32 == sequence
  }

  lemma {:induction false} CStringOfDigits(s: string)
    requires forall i :: 0 <= i < |s| ==> IsDigit(s[i])
    ensures CString(s) == s && DigitRun(s) == |s|
  {
    if s == [] {
    } else {
      CStringOfDigits(s[1..]);
    }
  }

  lemma {:induction false} ValueOfPrint(n: nat)
    ensures Value(ToString(n)) == n
  {
    if n < 10 {
    } else {
      ValueOfPrint(n / 10);
      assert ToString(n)[..|ToString(n)| - 1] == ToString(n / 10);
    }
  }

  lemma PrintedIsParsed(n: nat, longMax: nat)
    ensures StoSeq(ToString(n), longMax) == ToInt(if n > longMax then longMax else n)
  {
    var s := ToString(n);
    CStringOfDigits(s);
    ValueOfPrint(n);
    assert s[0..] == s && s[0..][..|s|] == s;
  }

  /** Parsing the print of a number that an `int` can hold gives it back, however wide a `long` is. */
  lemma PrintParseRoundTrip(n: nat, longMax: nat)
    requires n < TWO31 && longMax >= TWO31 - 1
    ensures StoSeq(ToString(n), longMax) == n
  {
    PrintedIsParsed(n, longMax);
  }

  /**
    When the echo of request number `n` is accepted with `m` the latest: exactly
    if n is m, for all numbers below 2^31.  Above, it depends on the platform:
    with a long of 64 bits 2^32 - 1 is taken for "no number", and with a long
    of 32 bits every number from 2^31 on is read as 2^31 - 1.
  */
  lemma EchoAccepted(n: nat, m: nat, longMax: nat)
    requires n < TWO32 && m < TWO32
    ensures longMax >= TWO32 ==> (Accepted(ToString(n), m, longMax) <==> n == m || n == TWO32 - 1)
    ensures longMax == TWO31 - 1 ==>
      (Accepted(ToString(n), m, longMax) <==> m == if n < TWO31 then n else TWO31 - 1)
    ensures n < TWO31 && longMax >= TWO31 - 1 ==> (Accepted(ToString(n), m, longMax) <==> n == m)
  {
    PrintedIsParsed(n, longMax);
    var v := if n > longMax then longMax else n;
    if v < TWO32 {
      ToIntOfUnsigned(v);
    }
  }

  lemma ToIntOfUnsigned(v: nat)
    requires v < TWO32
    ensures ToInt(v) % TWO32 == v
    ensures ToInt(v) == -1 <==> v == TWO32 - 1
  {
    if v >= TWO31 {
      assert ToInt(v) == v - TWO32;
    }
  }

  /** A string that begins like no number is accepted whatever the latest sequence number is. */
  lemma NonNumericAccepted(s: string, m: nat, longMax: nat)
    requires s != [] && !IsDigit(s[0]) && !IsSpace(s[0]) && s[0] != '-' && s[0] != '+' && s[0] != '\0'
    ensures Accepted(s, m, longMax)
  {
    var c := CString(s);
    assert c[0] == s[0] && c[0..] == c;
  }

  // ---------------------------------------------------------------- other strings

  datatype Sign = Plain | Plus | Minus

  function Text(sign: Sign): string {
    match sign case Plain => "" case Plus => "+" case Minus => "-"
  }

  /** `c` is that sign, or the first digit where there is none. */
  predicate SignAt(sign: Sign, c: char) {
    match sign case Plain => IsDigit(c) case Plus => c == '+' case Minus => c == '-'
  }

  /** Spaces, perhaps a sign, and a number in decimal. */
  function Signed(spaces: string, sign: Sign, n: nat): string {
    spaces + (Text(sign) + ToString(n))
  }

  lemma {:induction false} CStringWhole(s: string)
    requires '\0' !in s
    ensures CString(s) == s
  {
    if s == [] {
    } else {
      CStringWhole(s[1..]);
    }
  }

  lemma {:induction false} SpacesSkipped(spaces: string, rest: string)
    requires (forall i :: 0 <= i < |spaces| ==> IsSpace(spaces[i])) && rest != [] && !IsSpace(rest[0])
    ensures Spaces(spaces + rest) == |spaces|
  {
    if spaces == [] {
      assert spaces + rest == rest;
    } else {
      assert (spaces + rest)[1..] == spaces[1..] + rest;
      SpacesSkipped(spaces[1..], rest);
    }
  }

  lemma {:induction false} DigitsTaken(s: string, rest: string)
    requires (forall i :: 0 <= i < |s| ==> IsDigit(s[i])) && (rest == [] || !IsDigit(rest[0]))
    ensures DigitRun(s + rest) == |s|
  {
    if s == [] {
      assert s + rest == rest;
    } else {
      assert (s + rest)[1..] == s[1..] + rest;
      DigitsTaken(s[1..], rest);
    }
  }

  function Negated(sign: Sign, n: nat): int {
    if sign.Minus? then 0 - n else n
  }

  lemma FirstOfSigned(sign: Sign, n: nat, rest: string)
    ensures var s := Text(sign) + (ToString(n) + rest);
      && s != [] && !IsSpace(s[0]) && s[|Text(sign)|..] == ToString(n) + rest
      && SignAt(sign, s[0])
  {
    var d := ToString(n);
    if sign.Plain? {
      assert "" + (d + rest) == d + rest;
      assert (d + rest)[0] == d[0] && IsDigit(d[0]);
    }
  }

  lemma DigitsOfSigned(n: nat, rest: string)
    requires rest == [] || !IsDigit(rest[0])
    ensures var d := ToString(n);
      DigitRun(d + rest) == |d| > 0 && Value((d + rest)[..DigitRun(d + rest)]) == n
  {
    var d := ToString(n);
    DigitsTaken(d, rest);
    ValueOfPrint(n);
    assert (d + rest)[..|d|] == d;
  }

  lemma LengthOfSigned(spaces: string, sign: Sign, n: nat, rest: string)
    ensures Signed(spaces, sign, n) + rest == spaces + (Text(sign) + (ToString(n) + rest))
    ensures |Signed(spaces, sign, n)| == |spaces| + |Text(sign)| + |ToString(n)|
  {
  }

  lemma DigitsConvert(s: string, j: nat, digits: string, negative: bool, longMax: nat)
    requires j <= |s| && s[j..] == digits && DigitRun(digits) > 0
    ensures var k, v := DigitRun(digits), Value(digits[..DigitRun(digits)]);
      ConvertAt(s, j, negative, longMax) == (Clamp(if negative then 0 - v else v, longMax), j + k)
  {
  }

  lemma StrtolConverts(s: string, i: nat, j: nat, sign: Sign, longMax: nat)
    requires i == Spaces(s) && i < |s| && j == i + |Text(sign)| <= |s| && SignAt(sign, s[i])
    ensures Strtol(s, longMax) == ConvertAt(s, j, sign.Minus?, longMax)
  {
  }

  lemma StrtolOfTail(spaces: string, tail: string, sign: Sign, digits: string, longMax: nat)
    requires (forall i :: 0 <= i < |spaces| ==> IsSpace(spaces[i])) && tail != [] && !IsSpace(tail[0])
    requires SignAt(sign, tail[0]) && |Text(sign)| <= |tail| && tail[|Text(sign)|..] == digits && DigitRun(digits) > 0
    ensures var k := DigitRun(digits);
      Strtol(spaces + tail, longMax)
      == (Clamp(Negated(sign, Value(digits[..k])), longMax), |spaces| + |Text(sign)| + k)
  {
    var j := |spaces| + |Text(sign)|;
    SpacesSkipped(spaces, tail);
    TailAt(spaces, tail, |Text(sign)|);
    StrtolConverts(spaces + tail, |spaces|, j, sign, longMax);
    DigitsConvert(spaces + tail, j, digits, sign.Minus?, longMax);
  }

  /** What a conversion makes of a number, with spaces and a sign before it and anything that is no digit behind. */
  lemma StrtolOfSigned(spaces: string, sign: Sign, n: nat, rest: string, longMax: nat)
    requires (forall i :: 0 <= i < |spaces| ==> IsSpace(spaces[i]))
    requires rest == [] || !IsDigit(rest[0])
    ensures Strtol(Signed(spaces, sign, n) + rest, longMax)
         == (Clamp(Negated(sign, n), longMax), |Signed(spaces, sign, n)|)
  {
    FirstOfSigned(sign, n, rest);
    DigitsOfSigned(n, rest);
    LengthOfSigned(spaces, sign, n, rest);
    StrtolOfTail(spaces, Text(sign) + (ToString(n) + rest), sign, ToString(n) + rest, longMax);
  }

  lemma TailAt(a: string, b: string, i: nat)
    requires i <= |b| && b != []
    ensures (a + b)[|a| + i..] == b[i..] && (a + b)[|a|] == b[0]
  {
  }

  /** A number with spaces and a sign before it is read as that; with anything behind it is no number. */
  lemma SignedIsParsed(spaces: string, sign: Sign, n: nat, rest: string, longMax: nat)
    requires (forall i :: 0 <= i < |spaces| ==> IsSpace(spaces[i]))
    requires (rest == [] || !IsDigit(rest[0])) && '\0' !in rest
    ensures StoSeq(Signed(spaces, sign, n) + rest, longMax)
         == if rest == [] then ToInt(Clamp(Negated(sign, n), longMax)) else -1
  {
    CStringWhole(Signed(spaces, sign, n) + rest);
    StrtolOfSigned(spaces, sign, n, rest, longMax);
  }
}
