/** The two number renderings the request URL uses: `std::to_string(int)`
    (plain decimal) and `std::to_string(float)` (printf "%f", six fractional
    digits), each with a decoder that proves the rendering loses nothing
    beyond the rounding to millionths. */
module DecimalText {
  import opened Outcomes

  function Pow10(n: nat): (p: nat)
    ensures p >= 1
  {
    if n == 0 then 1 else 10 * Pow10(n - 1)
  }

  predicate IsDigit(c: char) {
    '0' <= c <= '9'
  }

  predicate AllDigits(s: string) {
    forall i :: 0 <= i < |s| ==> IsDigit(s[i])
  }

  /** Characters that may appear in a rendered number. */
  predicate NumberChars(s: string) {
    forall i :: 0 <= i < |s| ==> IsDigit(s[i]) || s[i] == '-' || s[i] == '.'
  }

  function DigitChar(d: nat): (c: char)
    requires d < 10
    ensures IsDigit(c) && c as int - '0' as int == d
  {
    ('0' as int + d) as char
  }

  /** Decimal digits of `n`, most significant first, no leading zeros. */
  function NatDec(n: nat): (s: string)
    ensures |s| >= 1 && AllDigits(s)
    ensures n >= 10 <==> s[0] != '0' && |s| >= 2
  {
    if n < 10 then [DigitChar(n)] else NatDec(n / 10) + [DigitChar(n % 10)]
  }

  /** `std::to_string` of an integer. */
  function Dec(i: int): (s: string)
    ensures |s| >= 1 && NumberChars(s)
    ensures (s[0] == '-') <==> i < 0
  {
    if i < 0 then "-" + NatDec(-i) else NatDec(i)
  }

  /** Exactly `width` digits of `k`, zero-padded on the left. */
  function PadDigits(k: nat, width: nat): (s: string)
    requires k < Pow10(width)
    ensures |s| == width && AllDigits(s)
  {
    if width == 0 then [] else PadDigits(k / 10, width - 1) + [DigitChar(k % 10)]
  }

  /** Value of a string of digits. */
  function DigitsValue(s: string): nat
    requires AllDigits(s)
  {
    if s == [] then 0 else DigitsValue(s[..|s| - 1]) * 10 + (s[|s| - 1] as int - '0' as int)
  }

  function DecodeNat(s: string): Option<nat> {
    if |s| > 0 && AllDigits(s) then Some(DigitsValue(s)) else None
  }

  function DecodeInt(s: string): Option<int> {
    if |s| > 0 && s[0] == '-' then
      match DecodeNat(s[1..])
      case Some(n) => Some(-(n as int))
      case None => None
    else
      match DecodeNat(s)
      case Some(n) => Some(n)
      case None => None
  }

  lemma {:induction false} DigitsValueOfNatDec(n: nat)
    ensures DigitsValue(NatDec(n)) == n
  {
    if n >= 10 {
      var s := NatDec(n);
      assert s[..|s| - 1] == NatDec(n / 10);
      DigitsValueOfNatDec(n / 10);
    }
  }

  lemma {:induction false} DigitsValueOfPadDigits(k: nat, width: nat)
    requires k < Pow10(width)
    ensures DigitsValue(PadDigits(k, width)) == k
  {
    if width > 0 {
      var s := PadDigits(k, width);
      assert s[..|s| - 1] == PadDigits(k / 10, width - 1);
      DigitsValueOfPadDigits(k / 10, width - 1);
    }
  }

  /** Decoding the decimal rendering of an integer gives the integer back. */
  lemma DecodeDec(i: int)
    ensures DecodeInt(Dec(i)) == Some(i)
  {
    var s := Dec(i);
    if i < 0 {
      var t := NatDec(-i);
      assert s == "-" + t;
      assert s[1..] == t;
      DigitsValueOfNatDec(-i);
      assert DecodeNat(t) == Some(-i);
    } else {
      var t := NatDec(i);
      assert s == t && IsDigit(t[0]);
      DigitsValueOfNatDec(i);
      assert DecodeNat(t) == Some(i);
    }
  }

  /** Rounding to the nearest integer, ties to the even neighbour: what printf
      does with the exact value of its argument. */
  function RoundHalfEven(y: real): (m: int)
    ensures -0.5 <= y - m as real <= 0.5
    ensures (y - m as real == 0.5 || y - m as real == -0.5) ==> m % 2 == 0
  {
    var f := y.Floor;
    var frac := y - f as real;
    if frac < 0.5 then f
    else if frac > 0.5 then f + 1
    else if f % 2 == 0 then f
    else f + 1
  }

  /** A coordinate in millionths, as "%f" rounds it. */
  function Micro(x: real): (m: int)
    ensures -0.5 <= x * 1000000.0 - m as real <= 0.5
    ensures x < 0.0 ==> m <= 0
    ensures x >= 0.0 ==> m >= 0
  {
    RoundHalfEven(x * 1000000.0)
  }

  function Abs(i: int): nat {
    if i < 0 then -i else i
  }

  /** `std::to_string` of a float: printf "%f", six digits after the point.
      The sign comes from the value itself, so a small negative value that
      rounds to zero prints as "-0.000000". */
  function Fixed6(x: real): (s: string)
    ensures NumberChars(s)
  {
    SignedMicroText(x < 0.0, Abs(Micro(x)))
  }

  /** A sign and a magnitude in millionths, as "%f" lays them out. */
  function SignedMicroText(neg: bool, a: nat): (s: string)
    ensures NumberChars(s)
  {
    (if neg then "-" else "") + NatDec(a / 1000000) + "." + PadDigits(a % 1000000, 6)
  }

  /** Reads back an unsigned "%f" rendering as a count of millionths. */
  function DecodeUnsigned6(body: string): Option<nat> {
    if |body| < 8 || body[|body| - 7] != '.' then None
    else
      match (DecodeNat(body[..|body| - 7]), DecodeNat(body[|body| - 6..]))
      case (Some(ip), Some(fp)) => Some(ip * 1000000 + fp)
      case _ => None
  }

  /** Reads back a "%f" rendering as a count of millionths. */
  function DecodeFixed6(s: string): Option<int> {
    if |s| > 0 && s[0] == '-' then
      match DecodeUnsigned6(s[1..])
      case Some(m) => Some(-(m as int))
      case None => None
    else
      match DecodeUnsigned6(s)
      case Some(m) => Some(m as int)
      case None => None
  }

  lemma DecodeUnsigned6Parts(ip: string, fp: string)
    requires |ip| >= 1 && AllDigits(ip) && |fp| == 6 && AllDigits(fp)
    ensures DecodeUnsigned6(ip + "." + fp) == Some(DigitsValue(ip) * 1000000 + DigitsValue(fp))
  {
    var body := ip + "." + fp;
    assert |body| == |ip| + 7;
    assert body[..|body| - 7] == ip;
    assert body[|body| - 6..] == fp;
    assert body[|body| - 7] == '.';
    assert DecodeNat(ip) == Some(DigitsValue(ip));
    assert DecodeNat(fp) == Some(DigitsValue(fp));
  }

  lemma DecodeSignedMicroText(neg: bool, a: nat)
    ensures DecodeFixed6(SignedMicroText(neg, a)) == Some(if neg then -(a as int) else a)
  {
    var ip, fp := NatDec(a / 1000000), PadDigits(a % 1000000, 6);
    DigitsValueOfNatDec(a / 1000000);
    DigitsValueOfPadDigits(a % 1000000, 6);
    DecodeUnsigned6Parts(ip, fp);
    var body := ip + "." + fp;
    assert DecodeUnsigned6(body) == Some(a);
    if neg {
      assert SignedMicroText(neg, a) == "-" + body;
      assert ("-" + body)[1..] == body;
    } else {
      assert SignedMicroText(neg, a) == body;
      assert IsDigit(body[0]);
    }
  }

  /** The six-decimal rendering keeps exactly the value rounded to millionths. */
  lemma DecodeFixed6OfFixed6(x: real)
    ensures DecodeFixed6(Fixed6(x)) == Some(Micro(x))
  {
    DecodeSignedMicroText(x < 0.0, Abs(Micro(x)));
  }

  /** An integer value renders as its decimal form followed by ".000000"
      (the URL test with coordinate 50 rests on this). */
  lemma Fixed6OfInteger(k: int)
    ensures Fixed6(k as real) == Dec(k) + ".000000"
  {
    assert Micro(k as real) == k * 1000000;
    var a := Abs(k * 1000000);
    assert a / 1000000 == Abs(k) && a % 1000000 == 0;
    assert PadDigits(0, 6) == "000000";
    assert Fixed6(k as real) == SignedMicroText(k < 0, a);
  }
}
