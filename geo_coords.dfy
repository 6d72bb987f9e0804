/** The `HandleGeoCoords<T>` validators of YR_forecast.h. The int, float,
    double and string overloads are folded into one function per axis over a
    tagged input; `exit(EXIT_FAILURE)` becomes the `Fatal` outcome and the
    console diagnostics are dropped. */
module GeoCoords {
  import opened Outcomes

  /** What the caller hands to an overload: an `int`, a `float`/`double`, or
      a `std::string`. */
  datatype Input = Int(i: int) | Num(x: real) | Text(s: string)

  const LatitudeLimit: real := 85.0
  const LongitudeLimit: real := 180.0

  /** The number an integer or floating-point input stands for. */
  function NumericValue(inp: Input): real
    requires !inp.Text?
  {
    if inp.Int? then inp.i as real else inp.x
  }

  /** The shared shape of validateLatitude and validateLongitude: numeric input
      inside the closed range [-limit, limit] comes back unchanged, numeric
      input outside it ends the program, and text falls back to 0.0. */
  function ValidateCoord(inp: Input, limit: real): (r: Checked<real>)
    ensures inp.Text? ==> r == Ok(0.0)
    ensures !inp.Text? ==> (r.Ok? <==> -limit <= NumericValue(inp) <= limit)
    ensures !inp.Text? && r.Ok? ==> r.value == NumericValue(inp)
  {
    match inp
    case Int(i) => if -limit <= i as real <= limit then Ok(i as real) else Fatal
    case Num(x) => if -limit <= x <= limit then Ok(x) else Fatal
    case Text(_) => Ok(0.0)
  }

  function ValidateLatitude(inp: Input): (r: Checked<real>)
    ensures inp.Text? ==> r == Ok(0.0)
    ensures inp.Num? ==> (r.Fatal? <==> inp.x < -85.0 || 85.0 < inp.x)
    ensures inp.Int? ==> (r.Fatal? <==> inp.i < -85 || 85 < inp.i)
    ensures r.Ok? && !inp.Text? ==> r.value == NumericValue(inp)
  {
    ValidateCoord(inp, LatitudeLimit)
  }

  function ValidateLongitude(inp: Input): (r: Checked<real>)
    ensures inp.Text? ==> r == Ok(0.0)
    ensures inp.Num? ==> (r.Fatal? <==> inp.x < -180.0 || 180.0 < inp.x)
    ensures inp.Int? ==> (r.Fatal? <==> inp.i < -180 || 180 < inp.i)
    ensures r.Ok? && !inp.Text? ==> r.value == NumericValue(inp)
  {
    ValidateCoord(inp, LongitudeLimit)
  }

  /** `static_cast<int>` of a floating-point value: truncation toward zero. */
  function TruncateTowardZero(x: real): (n: int)
    ensures 0.0 <= x ==> n as real <= x < n as real + 1.0
    ensures x < 0.0 ==> n as real - 1.0 < x <= n as real
  {
    if x >= 0.0 then x.Floor else -((-x).Floor)
  }

  /** validateAltitude: no range restriction and no failure path. */
  function ValidateAltitude(inp: Input): (a: int)
    ensures inp.Int? ==> a == inp.i
    ensures inp.Num? ==> (0.0 <= a as real <= inp.x || inp.x <= a as real <= 0.0)
    ensures inp.Num? && a != 0 ==> (a > 0 <==> inp.x > 0.0)
    ensures inp.Num? ==> -1.0 < inp.x - a as real < 1.0
    ensures inp.Text? ==> a == 0
  {
    match inp
    case Int(i) => i
    case Num(x) => TruncateTowardZero(x)
    case Text(_) => 0
  }

  /** Re-validating an accepted latitude gives it back. */
  lemma LatitudeIdempotent(inp: Input)
    requires ValidateLatitude(inp).Ok?
    ensures ValidateLatitude(Num(ValidateLatitude(inp).value)) == ValidateLatitude(inp)
  {
  }

  /** Re-validating an accepted longitude gives it back. */
  lemma LongitudeIdempotent(inp: Input)
    requires ValidateLongitude(inp).Ok?
    ensures ValidateLongitude(Num(ValidateLongitude(inp).value)) == ValidateLongitude(inp)
  {
  }

  /** The integer overloads agree with the floating-point ones on the same number. */
  lemma IntOverloadsAgree(i: int)
    ensures ValidateLatitude(Int(i)) == ValidateLatitude(Num(i as real))
    ensures ValidateLongitude(Int(i)) == ValidateLongitude(Num(i as real))
    ensures ValidateAltitude(Int(i)) == ValidateAltitude(Num(i as real))
  {
  }

  /** Both ends of each range are accepted; one ten-thousandth beyond is not. */
  lemma RangeBoundaries()
    ensures ValidateLatitude(Num(85.0)) == Ok(85.0) && ValidateLatitude(Num(-85.0)) == Ok(-85.0)
    ensures ValidateLatitude(Num(85.0001)) == Fatal && ValidateLatitude(Num(-85.0001)) == Fatal
    ensures ValidateLongitude(Num(180.0)) == Ok(180.0) && ValidateLongitude(Num(-180.0)) == Ok(-180.0)
    ensures ValidateLongitude(Num(180.0001)) == Fatal && ValidateLongitude(Num(-180.0001)) == Fatal
  {
  }

  /** The cases the repository's unit tests exercise. */
  lemma UnitTestCases()
    ensures ValidateLongitude(Int(4)) == Ok(4.0)
    ensures ValidateLongitude(Num(4.999)) == Ok(4.999)
    ensures ValidateLongitude(Num(4.5555555)) == Ok(4.5555555)
    ensures ValidateLongitude(Text("four")) == Ok(0.0)
    ensures ValidateLongitude(Int(400)) == Fatal
    ensures ValidateLongitude(Num(400.788)) == Fatal
    ensures ValidateLongitude(Num(400.899988)) == Fatal
    ensures ValidateAltitude(Int(4)) == 4
    ensures ValidateAltitude(Num(4.5555)) == 4
    ensures ValidateAltitude(Num(4.555555555)) == 4
  {
  }
}
