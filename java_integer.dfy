/** The two members of java.lang.Integer that the argument parser relies on:
    parseInt(String), which reads a signed decimal 32-bit integer or throws
    NumberFormatException, and toString(int), its canonical inverse.
    Only the ASCII digits '0'..'9' are treated as decimal digits. */
module JavaInteger {
  import opened Wrappers

  /** Integer.MIN_VALUE and Integer.MAX_VALUE. */
  const MinValue: int := -0x8000_0000
  const MaxValue: int := 0x7fff_ffff

  /** The values of Java's `int`. */
  type Int32 = x: int | MinValue <= x <= MaxValue

  /** NumberFormatException.forInputString: the exception names the rejected text. */
  datatype NumberFormatException = NumberFormatException(input: string)

  predicate IsDigit(c: char) {
    '0' <= c <= '9'
  }

  predicate AllDigits(s: string) {
    forall i :: 0 <= i < |s| ==> IsDigit(s[i])
  }

  function DigitValue(c: char): (d: nat)
    requires IsDigit(c)
    ensures d < 10
  {
    c as int - '0' as int
  }

  function DigitChar(d: nat): (c: char)
    requires d < 10
    ensures IsDigit(c) && DigitValue(c) == d
  {
    (d + '0' as int) as char
  }

  /** The natural number a string of decimal digits denotes (0 for the empty string). */
  function DigitsValue(s: string): nat
    requires AllDigits(s)
    decreases |s|
  {
    if s == [] then 0 else DigitsValue(s[..|s| - 1]) * 10 + DigitValue(s[|s| - 1])
  }

  predicate HasSign(s: string) {
    |s| > 0 && (s[0] == '+' || s[0] == '-')
  }

  /** The text after an optional leading sign. */
  function Magnitude(s: string): string {
    if HasSign(s) then s[1..] else s
  }

  /** An optional single '+' or '-' followed by one or more decimal digits. */
  predicate IsDecimal(s: string) {
    |Magnitude(s)| > 0 && AllDigits(Magnitude(s))
  }

  /** The mathematical value of decimal text, before any range check. */
  function DecimalValue(s: string): int
    requires IsDecimal(s)
  {
    if s[0] == '-' then -(DigitsValue(Magnitude(s)) as int) else DigitsValue(Magnitude(s))
  }

  /** Integer.parseInt(s): the value of s when s is decimal text whose value
      fits in an int; NumberFormatException for anything else, the empty
      string and a lone sign included. */
  function ParseInt(s: string): (r: Result<Int32, NumberFormatException>)
    ensures r.Success? <==> IsDecimal(s) && MinValue <= DecimalValue(s) <= MaxValue
    ensures r.Success? ==> r.value == DecimalValue(s)
    ensures r.Failure? ==> r.error == NumberFormatException(s)
  {
    if IsDecimal(s) && MinValue <= DecimalValue(s) <= MaxValue then
      Success(DecimalValue(s))
    else
      Failure(NumberFormatException(s))
  }

  /** Decimal digits of n, most significant first, with no leading zero. */
  function NatToDigits(n: nat): (s: string)
    ensures |s| > 0 && AllDigits(s)
    decreases n
  {
    if n < 10 then [DigitChar(n)] else NatToDigits(n / 10) + [DigitChar(n % 10)]
  }

  /** Integer.toString(n): a '-' for negative n, then the digits of |n|. */
  function IntToString(n: int): (s: string)
    ensures IsDecimal(s) && !(|s| > 0 && s[0] == '+')
  {
    if n < 0 then "-" + NatToDigits(-n) else NatToDigits(n)
  }

  /** Digits with no superfluous leading zero ("0" itself is canonical). */
  predicate IsCanonicalDigits(d: string) {
    |d| > 0 && AllDigits(d) && (d[0] == '0' ==> |d| == 1)
  }

  /** The form Integer.toString produces: no '+', no leading zeros, no "-0". */
  predicate IsCanonicalDecimal(s: string) {
    if |s| > 0 && s[0] == '-' then IsCanonicalDigits(s[1..]) && s[1..] != "0"
    else IsCanonicalDigits(s)
  }

  lemma {:induction false} DigitsValueOfNatToDigits(n: nat)
    ensures DigitsValue(NatToDigits(n)) == n
    decreases n
  {
    var s := NatToDigits(n);
    if n >= 10 {
      DigitsValueOfNatToDigits(n / 10);
      assert s[..|s| - 1] == NatToDigits(n / 10);
    }
  }

  lemma {:induction false} NatToDigitsIsCanonical(n: nat)
    ensures IsCanonicalDigits(NatToDigits(n))
    decreases n
  {
    if n >= 10 {
      NatToDigitsIsCanonical(n / 10);
    }
  }

  /** A leading digit that is not zero makes the value positive. */
  lemma {:induction false} LeadingNonZeroIsPositive(d: string)
    requires |d| > 0 && AllDigits(d) && d[0] != '0'
    ensures DigitsValue(d) >= 1
    decreases |d|
  {
    if |d| > 1 {
      LeadingNonZeroIsPositive(d[..|d| - 1]);
    }
  }

  lemma {:induction false} NatToDigitsOfDigitsValue(d: string)
    requires IsCanonicalDigits(d)
    ensures NatToDigits(DigitsValue(d)) == d
    decreases |d|
  {
    if |d| > 1 {
      var p := d[..|d| - 1];
      var n := DigitsValue(d);
      LeadingNonZeroIsPositive(p);
      NatToDigitsOfDigitsValue(p);
      assert n / 10 == DigitsValue(p) && n % 10 == DigitValue(d[|d| - 1]);
      assert d == p + [d[|d| - 1]];
    }
  }

  /** Integer.toString followed by Integer.parseInt gives back every int. */
  lemma ParseIntToString(n: Int32)
    ensures IsCanonicalDecimal(IntToString(n))
    ensures ParseInt(IntToString(n)) == Success(n)
  {
    var m: int := n;
    var sign := if m < 0 then "-" else "";
    var magnitude: nat := if m < 0 then -m else m;
    var d := NatToDigits(magnitude);
    assert IntToString(n) == sign + d;
    DigitsValueOfNatToDigits(magnitude);
    NatToDigitsIsCanonical(magnitude);
    SignedDigits(sign, d);
  }

  /** Integer.parseInt followed by Integer.toString gives back every
      canonical decimal text that parses. */
  lemma ToStringOfParseInt(s: string)
    requires IsCanonicalDecimal(s) && ParseInt(s).Success?
    ensures IntToString(ParseInt(s).value) == s
  {
    if s[0] == '-' {
      var d := s[1..];
      NatToDigitsOfDigitsValue(d);
      LeadingNonZeroIsPositive(d);
      assert s == "-" + d;
    } else {
      NatToDigitsOfDigitsValue(s);
    }
  }

  lemma {:induction false} LeadingZeroIgnoredInDigits(d: string)
    requires AllDigits(d)
    ensures AllDigits("0" + d) && DigitsValue("0" + d) == DigitsValue(d)
    decreases |d|
  {
    if d != [] {
      var p := d[..|d| - 1];
      LeadingZeroIgnoredInDigits(p);
      assert ("0" + d)[..|d|] == "0" + p;
    }
  }

  /** Sign followed by digits: the digits are the magnitude and the sign
      decides the value's sign. */
  lemma SignedDigits(sign: string, d: string)
    requires sign == "" || sign == "+" || sign == "-"
    requires |d| > 0 && AllDigits(d)
    ensures IsDecimal(sign + d) && Magnitude(sign + d) == d
    ensures DecimalValue(sign + d) == if sign == "-" then -(DigitsValue(d) as int) else DigitsValue(d)
  {
    if sign != "" {
      assert (sign + d)[1..] == d;
    }
  }

  /** Leading zeros after the optional sign do not change what parseInt accepts or returns. */
  lemma LeadingZeroIgnored(sign: string, d: string)
    requires sign == "" || sign == "+" || sign == "-"
    requires |d| > 0 && AllDigits(d)
    ensures ParseInt(sign + "0" + d).Success? == ParseInt(sign + d).Success?
    ensures ParseInt(sign + d).Success? ==> ParseInt(sign + "0" + d).value == ParseInt(sign + d).value
  {
    LeadingZeroIgnoredInDigits(d);
    assert sign + "0" + d == sign + ("0" + d);
    SignedDigits(sign, "0" + d);
    SignedDigits(sign, d);
  }

  /** A leading '+' is accepted and does not change the value. */
  lemma PlusSignIgnored(d: string)
    requires |d| > 0 && AllDigits(d)
    ensures ParseInt("+" + d).Success? == ParseInt(d).Success?
    ensures ParseInt(d).Success? ==> ParseInt("+" + d).value == ParseInt(d).value
  {
    assert Magnitude("+" + d) == d;
  }

  /** Text that is not a signed run of decimal digits is rejected: the empty
      string, a lone sign, a doubled sign, letters and surrounding blanks. */
  lemma MalformedTextRejected()
    ensures ParseInt("") == Failure(NumberFormatException(""))
    ensures ParseInt("+").Failure? && ParseInt("-").Failure?
    ensures ParseInt("+-1").Failure? && ParseInt("--1").Failure?
    ensures ParseInt("abc").Failure? && ParseInt("12a").Failure?
    ensures ParseInt(" 1").Failure? && ParseInt("1 ").Failure?
  {
    assert !IsDigit('a') && !IsDigit(' ') && !IsDigit('-');
    assert "abc"[0] == 'a' && "12a"[2] == 'a';
    assert Magnitude("+-1")[0] == '-' && Magnitude("--1")[0] == '-';
    assert " 1"[0] == ' ' && "1 "[1] == ' ';
  }

  /** The top of the int range: Integer.MAX_VALUE parses, one more does not. */
  lemma UpperRangeEdge()
    ensures ParseInt("2147483647") == Success(MaxValue)
    ensures ParseInt("2147483648").Failure?
  {
    DigitsPrefixes();
    SignedDigits("", "2147483647");
    SignedDigits("", "2147483648");
  }

  /** The bottom of the int range: Integer.MIN_VALUE parses, one less does not. */
  lemma LowerRangeEdge()
    ensures ParseInt("-2147483648") == Success(MinValue)
    ensures ParseInt("-2147483649").Failure?
  {
    DigitsPrefixes();
    assert "-2147483648" == "-" + "2147483648" && "-2147483649" == "-" + "2147483649";
    SignedDigits("-", "2147483648");
    SignedDigits("-", "2147483649");
  }

  /** The values of three ten-digit texts, one digit at a time. */
  lemma DigitsPrefixes()
    ensures DigitsValue("2147483647") == 2147483647
    ensures DigitsValue("2147483648") == 2147483648
    ensures DigitsValue("2147483649") == 2147483649
  {
    assert "21"[..1] == "2";
    assert "214"[..2] == "21";
    assert "2147"[..3] == "214";
    assert "21474"[..4] == "2147";
    assert "214748"[..5] == "21474";
    assert "2147483"[..6] == "214748";
    assert "21474836"[..7] == "2147483";
    assert "214748364"[..8] == "21474836";
    assert "2147483647"[..9] == "2147483648"[..9] == "2147483649"[..9] == "214748364";
  }
}
