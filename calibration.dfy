/**
 * The axis that SpeFile._make_axes builds from one AxisCalibration record:
 * the calibration polynomial of the record evaluated with numpy's polyval at
 * the pixel numbers 1 to n. The coefficients are IEEE 754 doubles read as
 * exact reals, and the arithmetic is exact (no rounding).
 */
module Calibration {
  import opened Wrappers
  import opened Bytes
  import opened Layout
  import opened SpeHeader
  import opened Sequences

  /** sizeof(AxisCalibration). */
  const CalibrationLength: nat := 489

  /** Byte offsets of the members _make_axes reads (winspec.py:268-275). */
  const CalibValidOffset: nat := 98
  const PolynomOrderOffset: nat := 101
  const PolynomCoeffOffset: nat := 263

  /** polynom_coeff is an array of six doubles. */
  const CoeffSlots: nat := 6

  /** The calib_valid, polynom_order and polynom_coeff members sit at the offsets above. */
  lemma CalibrationMembers(cal: seq<Byte>)
    requires |cal| == CalibrationLength
    ensures |AxisCalibrationFields()| == 19 && |cal| == Size(AxisCalibrationFields())
    ensures AxisCalibrationFields()[6].name == "calib_valid" &&
      FieldAt(AxisCalibrationFields(), cal, 6) == Raw([cal[CalibValidOffset]])
    ensures AxisCalibrationFields()[9].name == "polynom_order" &&
      FieldAt(AxisCalibrationFields(), cal, 9) == Raw([cal[PolynomOrderOffset]])
    ensures AxisCalibrationFields()[13].name == "polynom_coeff" &&
      FieldAt(AxisCalibrationFields(), cal, 13) ==
        Raw(cal[PolynomCoeffOffset..PolynomCoeffOffset + 8 * CoeffSlots])
  {
    AxisCalibrationLayout();
    AxisCalibrationSize();
    var fs := AxisCalibrationFields();
    FieldAtOffset(fs, cal, 6, SpeChar(), 98, 1);
    assert cal[98..99] == [cal[98]];
    FieldAtOffset(fs, cal, 9, SpeChar(), 101, 1);
    assert cal[101..102] == [cal[101]];
    FieldAtOffset(fs, cal, 13, ArrayOf(SpeDouble(), 6), 263, 48);
  }

  // ----- calib_valid -------------------------------------------------------------

  /** `struct.unpack('?', b)`: a tuple of one element, whether the byte is non-zero. */
  function UnpackBool(b: Byte): (t: seq<bool>)
    ensures |t| == 1 && (t[0] <==> b != 0)
  {
    [b != 0]
  }

  /** Python's truth value of a tuple: it is true when the tuple is not empty. */
  predicate Truthy(t: seq<bool>)
  {
    |t| > 0
  }

  /**
   * `if xcalib_valid:` tests the tuple, not the flag inside it, so the test
   * holds whatever the calib_valid byte is.
   */
  lemma ValidTestAlwaysHolds(b: Byte)
    ensures Truthy(UnpackBool(b))
    ensures UnpackBool(0) == [false]
  {
  }

  // ----- polynom_order and polynom_coeff ----------------------------------------

  /** `struct.unpack('>B', polynom_order)`: the byte as an unsigned number. */
  function PolynomOrder(cal: seq<Byte>): (k: nat)
    requires |cal| == CalibrationLength
    ensures k < 256
  {
    cal[PolynomOrderOffset]
  }

  /** How many coefficients `polynom_coeff[:order + 1]` keeps: the slice stops at the sixth. */
  function CoeffCount(cal: seq<Byte>): (m: nat)
    requires |cal| == CalibrationLength
    ensures 1 <= m <= CoeffSlots
    ensures m == CoeffSlots <==> PolynomOrder(cal) >= CoeffSlots - 1
    ensures m < CoeffSlots ==> m == PolynomOrder(cal) + 1
  {
    if PolynomOrder(cal) + 1 < CoeffSlots then PolynomOrder(cal) + 1 else CoeffSlots
  }

  /** The eight bytes of polynom_coeff[k]. */
  function CoeffBytes(cal: seq<Byte>, k: nat): (b: seq<Byte>)
    requires |cal| == CalibrationLength && k < CoeffSlots
    ensures |b| == 8
  {
    cal[PolynomCoeffOffset + 8 * k..PolynomCoeffOffset + 8 * k + 8]
  }

  /**
   * The first m coefficients as reals, in the order of the file: coefficient k
   * multiplies the k-th power of the pixel number. None when one of them is an
   * infinity or a NaN.
   */
  function DecodeCoeffs(cal: seq<Byte>, m: nat): (c: Option<seq<real>>)
    requires |cal| == CalibrationLength && m <= CoeffSlots
    ensures c.Some? <==> forall k :: 0 <= k < m ==> DoubleValue(CoeffBytes(cal, k)).Some?
    ensures c.Some? ==> |c.value| == m
    ensures c.Some? ==> forall k :: 0 <= k < m ==> DoubleValue(CoeffBytes(cal, k)) == Some(c.value[k])
  {
    if m == 0 then Some([])
    else
      match DecodeCoeffs(cal, m - 1)
      case None => None
      case Some(front) =>
        match DoubleValue(CoeffBytes(cal, m - 1))
        case None => None
        case Some(x) => Some(front + [x])
  }

  /** `polynom_coeff[:order + 1]`, decoded. */
  function Coefficients(cal: seq<Byte>): (c: Option<seq<real>>)
    requires |cal| == CalibrationLength
    ensures c.Some? ==> |c.value| == CoeffCount(cal)
  {
    DecodeCoeffs(cal, CoeffCount(cal))
  }

  // ----- numpy.polyval ----------------------------------------------------------

  /**
   * `np.polyval(p, x)` by Horner's rule as numpy computes it: the running value
   * is multiplied by x and the next coefficient added, highest power first.
   */
  function PolyVal(p: seq<real>, x: real): real
  {
    if p == [] then 0.0 else PolyVal(p[..|p| - 1], x) * x + p[|p| - 1]
  }

  /** x to the power k. */
  function Power(x: real, k: nat): real
  {
    if k == 0 then 1.0 else x * Power(x, k - 1)
  }

  /** The sum of c[i] * x^i for i < m: the polynomial with coefficients c, lowest power first. */
  function PowerSum(c: seq<real>, x: real, m: nat): real
    requires m <= |c|
  {
    if m == 0 then 0.0 else PowerSum(c, x, m - 1) + c[m - 1] * Power(x, m - 1)
  }

  /** Evaluating the reversed coefficients with polyval is the power sum of the coefficients. */
  lemma {:induction false} PolyValReversed(c: seq<real>, x: real)
    ensures PolyVal(Reverse(c), x) == PowerSum(c, x, |c|)
  {
    if c != [] {
      var r := Reverse(c[1..]);
      assert Reverse(c) == r + [c[0]];
      assert (r + [c[0]])[..|r|] == r;
      PolyValReversed(c[1..], x);
      PowerSumShift(c, x, |c|);
    }
  }

  /** Taking out the constant term: c[0] + x * (the sum over the rest). */
  lemma {:induction false} PowerSumShift(c: seq<real>, x: real, m: nat)
    requires 1 <= m <= |c|
    ensures PowerSum(c, x, m) == c[0] + x * PowerSum(c[1..], x, m - 1)
  {
    if m > 1 {
      PowerSumShift(c, x, m - 1);
      var a := PowerSum(c[1..], x, m - 2);
      var t := c[1..][m - 2] * Power(x, m - 2);
      assert PowerSum(c[1..], x, m - 1) == a + t;
      assert c[m - 1] * Power(x, m - 1) == x * t;
      assert x * (a + t) == x * a + x * t;
    }
  }

  // ----- The axis ------------------------------------------------------------------

  /**
   * An axis as _make_axes returns it: n values, or n entries of which some are
   * not finite because a coefficient is an infinity or a NaN.
   */
  datatype Axis = Points(values: seq<real>) | NonFinite(length: nat)

  function Length(a: Axis): nat
  {
    match a
    case Points(vs) => |vs|
    case NonFinite(n) => n
  }

  /** `np.arange(1, n + 1)`. */
  function Arange(n: nat): (r: seq<real>)
    ensures |r| == n
    ensures forall k :: 0 <= k < n ==> r[k] == (k + 1) as real
  {
    seq(n, k => (k + 1) as real)
  }

  /** `np.polyval(p, np.arange(1, n + 1))`: p evaluated at every pixel number. */
  function Evaluate(p: seq<real>, n: nat): (vs: seq<real>)
    ensures |vs| == n
  {
    seq(n, k => PolyVal(p, (k + 1) as real))
  }

  /**
   * The axis _make_axes builds from calibration record cal for n pixels: when
   * the validity test holds, the coefficients reversed and evaluated at the
   * pixel numbers 1 to n; otherwise the pixel numbers themselves.
   */
  function MakeAxis(cal: seq<Byte>, n: nat): (a: Axis)
    requires |cal| == CalibrationLength
    ensures Length(a) == n
  {
    if Truthy(UnpackBool(cal[CalibValidOffset])) then
      match Coefficients(cal)
      case None => NonFinite(n)
      case Some(c) => Points(Evaluate(Reverse(c), n))
    else Points(Arange(n))
  }

  /**
   * Entry k of the axis is the calibration polynomial at pixel k + 1: the sum
   * of coefficient i times (k + 1)^i over the min(order + 1, 6) coefficients.
   */
  lemma MakeAxisAt(cal: seq<Byte>, n: nat, k: nat)
    requires |cal| == CalibrationLength && k < n && Coefficients(cal).Some?
    ensures MakeAxis(cal, n).Points?
    ensures MakeAxis(cal, n).values[k] ==
      PowerSum(Coefficients(cal).value, (k + 1) as real, CoeffCount(cal))
  {
    var c := Coefficients(cal).value;
    ValidTestAlwaysHolds(cal[CalibValidOffset]);
    assert MakeAxis(cal, n) == Points(Evaluate(Reverse(c), n));
    assert Evaluate(Reverse(c), n)[k] == PolyVal(Reverse(c), (k + 1) as real);
    PolyValReversed(c, (k + 1) as real);
  }

  /** The axis is not finite exactly when a coefficient in the slice is not. */
  lemma MakeAxisNonFinite(cal: seq<Byte>, n: nat)
    requires |cal| == CalibrationLength
    ensures MakeAxis(cal, n).NonFinite? <==>
      exists k :: 0 <= k < CoeffCount(cal) && DoubleValue(CoeffBytes(cal, k)).None?
  {
    ValidTestAlwaysHolds(cal[CalibValidOffset]);
  }

  /** The calib_valid byte does not change the axis: the fallback to 1..n is never taken. */
  lemma MakeAxisIgnoresValid(cal: seq<Byte>, n: nat, b: Byte)
    requires |cal| == CalibrationLength
    ensures MakeAxis(cal[CalibValidOffset := b], n) == MakeAxis(cal, n)
  {
    var cal' := cal[CalibValidOffset := b];
    ValidTestAlwaysHolds(b);
    ValidTestAlwaysHolds(cal[CalibValidOffset]);
    assert PolynomOrder(cal') == PolynomOrder(cal);
    forall k | 0 <= k < CoeffSlots
      ensures CoeffBytes(cal', k) == CoeffBytes(cal, k)
    {
    }
    CoeffsAgree(cal, cal', CoeffCount(cal));
  }

  /** Records with the same coefficient bytes decode to the same coefficients. */
  lemma {:induction false} CoeffsAgree(cal: seq<Byte>, cal': seq<Byte>, m: nat)
    requires |cal| == CalibrationLength && |cal'| == CalibrationLength && m <= CoeffSlots
    requires forall k :: 0 <= k < CoeffSlots ==> CoeffBytes(cal', k) == CoeffBytes(cal, k)
    ensures DecodeCoeffs(cal', m) == DecodeCoeffs(cal, m)
  {
    if m > 0 {
      CoeffsAgree(cal, cal', m - 1);
    }
  }

  /**
   * A record whose order byte is 0 keeps one coefficient, and the axis is that
   * constant at every pixel.
   */
  lemma ConstantAxis(cal: seq<Byte>, n: nat, k: nat)
    requires |cal| == CalibrationLength && PolynomOrder(cal) == 0 && k < n
    requires Coefficients(cal).Some?
    ensures CoeffCount(cal) == 1
    ensures MakeAxis(cal, n).Points? && MakeAxis(cal, n).values[k] == Coefficients(cal).value[0]
  {
    MakeAxisAt(cal, n, k);
  }

  /** With order 1 the axis is the line c0 + c1 * pixel. */
  lemma LinearAxis(cal: seq<Byte>, n: nat, k: nat)
    requires |cal| == CalibrationLength && PolynomOrder(cal) == 1 && k < n
    requires Coefficients(cal).Some?
    ensures CoeffCount(cal) == 2
    ensures var c := Coefficients(cal).value;
      MakeAxis(cal, n).Points? && MakeAxis(cal, n).values[k] == c[0] + c[1] * (k + 1) as real
  {
    assert CoeffCount(cal) == 2;
    MakeAxisAt(cal, n, k);
    PowerSumLinear(Coefficients(cal).value, (k + 1) as real);
  }

  lemma PowerSumLinear(c: seq<real>, x: real)
    requires 2 <= |c|
    ensures PowerSum(c, x, 2) == c[0] + c[1] * x
  {
    assert Power(x, 1) == x;
    assert PowerSum(c, x, 1) == c[0];
  }

  /**
   * A record whose coefficient bytes are all zero, as in a file that never set
   * a calibration, gives an axis of zeros rather than the pixel numbers.
   */
  lemma ZeroRecordAxis(cal: seq<Byte>, n: nat, k: nat)
    requires |cal| == CalibrationLength && k < n
    requires forall i :: PolynomCoeffOffset <= i < PolynomCoeffOffset + 8 * CoeffSlots ==> cal[i] == 0
    ensures MakeAxis(cal, n).Points? && MakeAxis(cal, n).values[k] == 0.0
  {
    ZeroIsZero();
    forall j | 0 <= j < CoeffSlots
      ensures DoubleValue(CoeffBytes(cal, j)) == Some(0.0)
    {
      assert CoeffBytes(cal, j) == [0, 0, 0, 0, 0, 0, 0, 0];
    }
    var c := Coefficients(cal).value;
    MakeAxisAt(cal, n, k);
    ZeroSum(c, (k + 1) as real, |c|);
  }

  /** A power sum of zero coefficients is zero. */
  lemma {:induction false} ZeroSum(c: seq<real>, x: real, m: nat)
    requires m <= |c| && forall i :: 0 <= i < |c| ==> c[i] == 0.0
    ensures PowerSum(c, x, m) == 0.0
  {
    if m > 0 {
      ZeroSum(c, x, m - 1);
    }
  }
}
