/** Azimuthal placement of identical coils: `numpy.linspace(0, 360, n,
    endpoint=False)` spreads `n` angles (degrees) evenly around the machine
    axis, starting at 0. */
module Azimuth {
  import opened Wrappers

  /** A non-empty run of decimal digits. */
  predicate IsDigits(s: string)
  {
    |s| > 0 && forall k :: 0 <= k < |s| ==> '0' <= s[k] <= '9'
  }

  /** The number a run of decimal digits denotes, most significant first. */
  function DigitsValue(s: string): nat
    requires forall k :: 0 <= k < |s| ==> '0' <= s[k] <= '9'
  {
    if |s| == 0 then 0
    else 10 * DigitsValue(s[..|s| - 1]) + (s[|s| - 1] as int - '0' as int)
  }

  /** The decimal digits of `n`, as Python's `str` writes an integer: they
      denote `n`, and only 0 itself is written with a leading zero. */
  function NatToString(n: nat): (s: string)
    ensures IsDigits(s)
    ensures DigitsValue(s) == n
    ensures s[0] == '0' <==> n == 0
    decreases n
  {
    var digit := [('0' as int + n % 10) as char];
    if n < 10 then digit
    else
      var s := NatToString(n / 10) + digit;
      assert s[..|s| - 1] == NatToString(n / 10);
      s
  }

  /** `str` of an integer: a leading minus sign exactly when it is
      negative, then the digits of its magnitude, without leading zeros. */
  function IntToString(n: int): (s: string)
    ensures |s| > 0
    ensures s[0] == '-' <==> n < 0
    ensures var digits := if n < 0 then s[1..] else s;
      && IsDigits(digits)
      && DigitsValue(digits) == (if n < 0 then -n else n)
      && (digits[0] == '0' <==> n == 0)
  {
    if n < 0 then "-" + NatToString(-n) else NatToString(n)
  }

  /** The `n` angles `linspace` yields for a non-negative sample count: the
      `i`-th one is `i` steps of `360 / n`. */
  function Angles(n: nat): (angles: seq<real>)
    ensures |angles| == n
  {
    seq(n, i requires 0 <= i < n => i as real * (360.0 / n as real))
  }

  /** `numpy.linspace(0, 360, n, endpoint=False)`: a negative sample count
      raises ValueError; otherwise `n` angles, all in `[0, 360)`. */
  function EvenlySpacedAngles(n: int): (r: Result<seq<real>>)
    ensures r.Err? <==> n < 0
    ensures r.Err? ==> r.error == ValueError("Number of samples, " + IntToString(n) + ", must be non-negative.")
    ensures r.Ok? ==> |r.value| == n
    ensures r.Ok? ==> forall i :: 0 <= i < |r.value| ==> 0.0 <= r.value[i] < 360.0
  {
    if n < 0 then Err(ValueError("Number of samples, " + IntToString(n) + ", must be non-negative."))
    else
      AnglesInRange(n);
      Ok(Angles(n))
  }

  /** Every angle lies in `[0, 360)`. */
  lemma AnglesInRange(n: nat)
    ensures forall i :: 0 <= i < n ==> 0.0 <= Angles(n)[i] < 360.0
  {
    forall i | 0 <= i < n
      ensures 0.0 <= Angles(n)[i] < 360.0
    {
      var step := 360.0 / n as real;
      assert step > 0.0;
      assert n as real * step == 360.0;
      assert i as real * step < n as real * step;
    }
  }

  /** The angles start at 0, angle `i` is `360 i / n`, consecutive angles lie
      `360 / n` apart, and one more step from the last angle is a full turn. */
  lemma AnglesEvenlySpaced(n: nat)
    requires n > 0
    ensures Angles(n)[0] == 0.0
    ensures forall i :: 0 <= i < n ==> Angles(n)[i] == 360.0 * i as real / n as real
    ensures forall i :: 0 < i < n ==> Angles(n)[i] - Angles(n)[i - 1] == 360.0 / n as real
    ensures Angles(n)[n - 1] + 360.0 / n as real == 360.0
  {
    var step := 360.0 / n as real;
    assert n as real * step == 360.0;
    assert (n - 1) as real * step + step == n as real * step;
    forall i | 0 < i < n
      ensures Angles(n)[i] - Angles(n)[i - 1] == step
    {
      assert i as real * step - (i - 1) as real * step == step;
    }
  }

  /** Angles strictly increase, so no two coils share a placement. */
  lemma AnglesIncreasing(n: nat)
    ensures forall i, j :: 0 <= i < j < n ==> Angles(n)[i] < Angles(n)[j]
  {
    if n > 0 {
      var step := 360.0 / n as real;
      forall i, j | 0 <= i < j < n
        ensures Angles(n)[i] < Angles(n)[j]
      {
        assert step > 0.0;
        assert i as real * step < j as real * step;
      }
    }
  }

  /** Six coils sit at 0, 60, 120, 180, 240 and 300 degrees. */
  lemma SixCoils()
    ensures EvenlySpacedAngles(6) == Ok([0.0, 60.0, 120.0, 180.0, 240.0, 300.0])
  {
    var a := Angles(6);
    assert a[1] == 60.0 && a[2] == 120.0 && a[3] == 180.0 && a[4] == 240.0 && a[5] == 300.0;
    assert a == [0.0, 60.0, 120.0, 180.0, 240.0, 300.0];
  }
}
