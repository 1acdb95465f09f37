/** Temperature conversions and the central second difference
    (technoeconomics/utils.py and utils.py, which carry the same conversions). */
module Units {
  import opened Base

  const ZeroCelsius: real := 273.15

  /** `celsius_to_kelvin`: refuses a result below absolute zero. */
  function CelsiusToKelvin(t: real): (r: Result<real>)
    ensures r.Ok? <==> t >= -ZeroCelsius
    ensures r.Ok? ==> r.value >= 0.0 && r.value - t == ZeroCelsius
  {
    var kelvin := t + ZeroCelsius;
    if kelvin < 0.0 then Err("Temperature in Kelvin cannot be less than 0") else Ok(kelvin)
  }

  /** `kelvin_to_celsius`: refuses a negative absolute temperature. */
  function KelvinToCelsius(t: real): (r: Result<real>)
    ensures r.Ok? <==> t >= 0.0
    ensures r.Ok? ==> r.value >= -ZeroCelsius && t - r.value == ZeroCelsius
  {
    if t < 0.0 then Err("Temperature in Kelvin cannot be less than 0") else Ok(t - ZeroCelsius)
  }

  /** The two conversions undo each other wherever the first one succeeds. */
  lemma ConversionRoundTrips(celsius: real, kelvin: real)
    ensures CelsiusToKelvin(celsius).Ok? ==> KelvinToCelsius(CelsiusToKelvin(celsius).value) == Ok(celsius)
    ensures KelvinToCelsius(kelvin).Ok? ==> CelsiusToKelvin(KelvinToCelsius(kelvin).value) == Ok(kelvin)
  {
  }

  /** The values the repository's unit test expects. */
  lemma ConversionExamples()
    ensures CelsiusToKelvin(0.0) == Ok(273.15)
    ensures KelvinToCelsius(3000.0) == Ok(2726.85)
  {
  }

  /** `differentiate_second_order_central`: (f(x+h) - 2 f(x) + f(x-h)) / h**2;
      a zero step raises ZeroDivisionError. The division by h**2 is written as
      two divisions by h, which is the same quotient over the reals. */
  function SecondCentralDifference(f: real -> real, x: real, h: real): (r: Result<real>)
    ensures r.Err? <==> h == 0.0
  {
    if h == 0.0 then Err("float division by zero")
    else Ok((f(x + h) - 2.0 * f(x) + f(x - h)) / h / h)
  }

  lemma DivideExact(n: real, d: real, q: real)
    requires d != 0.0 && n == q * d
    ensures n / d == q
  {
  }

  /** The central second difference is exact on quadratics: it yields 2a for
      a*y*y + b*y + c at every point and every non-zero step. */
  lemma SecondDifferenceOfQuadratic(f: real -> real, a: real, b: real, c: real, x: real, h: real)
    requires forall y :: f(y) == a * y * y + b * y + c
    requires h != 0.0
    ensures SecondCentralDifference(f, x, h) == Ok(2.0 * a)
  {
    assert f(x + h) - 2.0 * f(x) + f(x - h) == (2.0 * a * h) * h by {
      assert f(x + h) == a * (x + h) * (x + h) + b * (x + h) + c;
      assert f(x - h) == a * (x - h) * (x - h) + b * (x - h) + c;
      assert f(x) == a * x * x + b * x + c;
    }
    DivideExact(f(x + h) - 2.0 * f(x) + f(x - h), h, 2.0 * a * h);
    DivideExact((f(x + h) - 2.0 * f(x) + f(x - h)) / h, h, 2.0 * a);
  }

  /** The step enters only through x + h and x - h and its square, so h and
      -h give the same difference. */
  lemma SecondDifferenceSymmetric(f: real -> real, x: real, h: real)
    ensures SecondCentralDifference(f, x, h) == SecondCentralDifference(f, x, -h)
  {
    if h != 0.0 {
      var n := f(x + h) - 2.0 * f(x) + f(x - h);
      assert f(x + -h) - 2.0 * f(x) + f(x - -h) == n by {
        assert x + -h == x - h && x - -h == x + h;
      }
      var q := n / h;
      var p := q / h;
      assert q * h == n && p * h == q;
      DivideExact(n, -h, -q);
      DivideExact(-q, -h, p);
    }
  }

  /** On a linear function the central second difference is zero for every
      non-zero step. */
  lemma SecondDifferenceOfLinear(f: real -> real, b: real, c: real, x: real, h: real)
    requires forall y :: f(y) == b * y + c
    requires h != 0.0
    ensures SecondCentralDifference(f, x, h) == Ok(0.0)
  {
    SecondDifferenceOfQuadratic(f, 0.0, b, c, x, h);
  }
}
