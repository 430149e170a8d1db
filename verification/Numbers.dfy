/** Exact comparison and conversion between integers and floats (src/interpreter/operations.rs). */
module Numbers {
  import opened Wrappers
  import opened Ast

  datatype Order = Before | Same | After {
    function Reverse(): Order {
      match this
      case Before => After
      case Same => Same
      case After => Before
    }
  }

  function CompareInt(a: int, b: int): Order {
    if a < b then Before else if a == b then Same else After
  }

  function CompareReal(a: real, b: real): Order {
    if a < b then Before else if a == b then Same else After
  }

  /** Rounding toward zero, as a cast from a float does. */
  function Truncate(x: real): int {
    if x >= 0.0 then x.Floor else -(-x).Floor
  }

  const TWO_63: real := 9223372036854775808.0

  /** The code's comparison: clamp, compare with the truncation, then look at the fraction. */
  function CompareIntFloat(integer: Integer, float: Float): Option<Order> {
    match float
    case NaN => None
    case Infinite(negative) => Some(if negative then After else Before)
    case Finite(x) =>
      if x >= TWO_63 then Some(Before)
      else if x < -TWO_63 then Some(After)
      else
        var truncated := Truncate(x);
        match CompareInt(integer, truncated)
        case Same => Some(CompareReal(0.0, x - truncated as real))
        case order => Some(order)
  }

  function CompareFloat(a: Float, b: Float): Option<Order> {
    if a.NaN? || b.NaN? then None
    else if a.Infinite? && b.Infinite? then
      Some(if a.negative == b.negative then Same else if a.negative then Before else After)
    else if a.Infinite? then Some(if a.negative then Before else After)
    else if b.Infinite? then Some(if b.negative then After else Before)
    else Some(CompareReal(a.value, b.value))
  }

  /** On integers and floats the code never compares rounded values. */
  lemma CompareIntFloatExact(i: Integer, f: Float)
    ensures CompareIntFloat(i, f) == CompareFloat(Finite(i as real), f)
  {
    if f.Finite? && -TWO_63 <= f.value < TWO_63 {
      var t := Truncate(f.value);
      if f.value >= 0.0 {
        assert t as real <= f.value < t as real + 1.0;
      } else {
        assert t as real >= f.value > t as real - 1.0;
      }
    }
  }

  datatype Number = IntegerNumber(integer: Integer) | FloatNumber(float: Float)

  /** The dispatch of the ordering operators on numeric operands. */
  function CompareNumbers(a: Number, b: Number): Option<Order> {
    match (a, b)
    case (IntegerNumber(i), IntegerNumber(j)) => Some(CompareInt(i, j))
    case (FloatNumber(x), FloatNumber(y)) => CompareFloat(x, y)
    case (IntegerNumber(i), FloatNumber(y)) => CompareIntFloat(i, y)
    case (FloatNumber(x), IntegerNumber(j)) =>
      match CompareIntFloat(j, x)
      case Some(order) => Some(order.Reverse())
      case None => None
  }

  function Exact(n: Number): Float {
    match n
    case IntegerNumber(i) => Finite(i as real)
    case FloatNumber(f) => f
  }

  lemma CompareNumbersExact(a: Number, b: Number)
    ensures CompareNumbers(a, b) == CompareFloat(Exact(a), Exact(b))
    ensures CompareNumbers(a, b).None? <==> a == FloatNumber(NaN) || b == FloatNumber(NaN)
  {
    match (a, b)
    case (IntegerNumber(i), FloatNumber(y)) => CompareIntFloatExact(i, y);
    case (FloatNumber(x), IntegerNumber(j)) => CompareIntFloatExact(j, x);
    case _ =>
  }

  ghost predicate AtMost(a: Number, b: Number) {
    CompareNumbers(a, b).Some? && CompareNumbers(a, b).value != After
  }

  /** Away from NaN the mixed comparison is a total preorder, so chains never contradict each other. */
  lemma MixedOrderIsTotalPreorder(a: Number, b: Number, c: Number)
    requires a != FloatNumber(NaN) && b != FloatNumber(NaN) && c != FloatNumber(NaN)
    ensures AtMost(a, b) || AtMost(b, a)
    ensures AtMost(a, b) && AtMost(b, c) ==> AtMost(a, c)
    ensures CompareNumbers(a, b) == Some(Same) <==> AtMost(a, b) && AtMost(b, a)
    ensures CompareNumbers(a, b) == Some(Same) ==> CompareNumbers(a, c) == CompareNumbers(b, c)
  {
    CompareNumbersExact(a, b);
    CompareNumbersExact(b, a);
    CompareNumbersExact(b, c);
    CompareNumbersExact(a, c);
  }

  // ----- integers that binary64 holds exactly -----

  function Pow2(e: nat): (p: int)
    ensures p >= 1
  {
    if e == 0 then 1 else 2 * Pow2(e - 1)
  }

  const MANTISSA: int := 0x20_0000_0000_0000

  /** An integer with at most 53 significant bits. */
  ghost predicate Representable(i: int) {
    exists m, e: nat :: IsScaled(i, m, e)
  }

  ghost predicate IsScaled(i: int, m: int, e: nat) {
    -MANTISSA < m < MANTISSA && i == m * Pow2(e)
  }

  /** The exponent that leaves `n` fewer than 54 bits. */
  function Exponent(n: nat): (e: nat)
    ensures n < MANTISSA * Pow2(e)
    ensures e > 0 ==> 2 * n >= MANTISSA * Pow2(e)
  {
    if n < MANTISSA then 0
    else
      var e := Exponent(n / 2);
      assert MANTISSA * Pow2(e + 1) == 2 * (MANTISSA * Pow2(e));
      e + 1
  }

  /** Round to the nearest multiple of 2^e, ties to an even quotient. */
  function RoundTo(n: nat, e: nat): nat {
    var unit := Pow2(e);
    var quotient, remainder := n / unit, n % unit;
    if 2 * remainder > unit || (2 * remainder == unit && quotient % 2 == 1) then (quotient + 1) * unit
    else quotient * unit
  }

  function Magnitude(i: int): nat {
    if i >= 0 then i else -i
  }

  /** Conversion of a 64-bit integer to binary64, round to nearest even. */
  function NearestFloat(i: Integer): int {
    var n := Magnitude(i);
    var rounded: int := RoundTo(n, Exponent(n));
    if i >= 0 then rounded else -rounded
  }

  /** A mixed operation converts only integers that survive the conversion. */
  function ExactFloat(i: Integer): Option<Float> {
    if NearestFloat(i) == i then Some(Finite(i as real)) else None
  }

  lemma MulMonotone(a: int, b: int, c: int)
    requires a <= b && c >= 0
    ensures a * c <= b * c
  {
  }

  lemma MulAssociative(a: int, b: int, c: int)
    ensures a * (b * c) == (a * b) * c
  {
  }

  lemma ProductMod(q: int, unit: int)
    requires unit >= 1
    ensures (q * unit) % unit == 0
  {
    var k, r := (q * unit) / unit, (q * unit) % unit;
    assert (q - k) * unit == r;
    if q - k >= 1 {
      MulMonotone(1, q - k, unit);
    } else if q - k <= -1 {
      MulMonotone(q - k, -1, unit);
    }
  }

  lemma RoundToExact(n: nat, e: nat)
    ensures RoundTo(n, e) == n <==> n % Pow2(e) == 0
  {
    var unit := Pow2(e);
    assert n == (n / unit) * unit + n % unit;
    assert (n / unit + 1) * unit == (n / unit) * unit + unit;
  }

  lemma {:induction false} Pow2Divides(a: nat, b: nat)
    requires a <= b
    ensures Pow2(b) % Pow2(a) == 0
    ensures Pow2(b) == Pow2(b - a) * Pow2(a)
  {
    if a == b {
    } else {
      Pow2Divides(a, b - 1);
      assert Pow2(b) == (2 * Pow2(b - 1 - a)) * Pow2(a);
      ProductMod(2 * Pow2(b - 1 - a), Pow2(a));
    }
  }

  lemma {:induction false} Pow2Monotone(a: nat, b: nat)
    requires a <= b
    ensures Pow2(a) <= Pow2(b)
  {
    if a < b {
      Pow2Monotone(a, b - 1);
    }
  }

  /** A mantissa below 2^53 never needs a larger exponent than its own. */
  lemma ExponentAtMost(n: nat, m: nat, e: nat)
    requires m < MANTISSA && n == m * Pow2(e)
    ensures Exponent(n) <= e
  {
    var x := Exponent(n);
    if x > e {
      Pow2Monotone(e + 1, x);
      MulMonotone(m, MANTISSA - 1, Pow2(e));
    }
  }

  lemma ScaledDivides(n: nat, m: nat, e: nat)
    requires m < MANTISSA && n == m * Pow2(e)
    ensures n % Pow2(Exponent(n)) == 0
  {
    var x := Exponent(n);
    ExponentAtMost(n, m, e);
    Pow2Divides(x, e);
    MulAssociative(m, Pow2(e - x), Pow2(x));
    ProductMod(m * Pow2(e - x), Pow2(x));
  }

  lemma MulNegate(a: int, b: int)
    ensures (-a) * b == -(a * b)
  {
  }

  lemma QuotientBelow(n: nat, unit: int, bound: int) returns (q: nat)
    requires unit >= 1 && n % unit == 0 && n < bound * unit
    ensures q < bound && n == q * unit
  {
    q := n / unit;
    if q >= bound {
      MulMonotone(bound, q, unit);
    }
  }

  lemma NoRemainderRepresentable(i: int, n: nat)
    requires n == Magnitude(i) && n % Pow2(Exponent(n)) == 0
    ensures Representable(i)
  {
    hide Exponent, Pow2;
    var x := Exponent(n);
    var q := QuotientBelow(n, Pow2(x), MANTISSA);
    MulNegate(q, Pow2(x));
    var m: int := q;
    assert IsScaled(i, if i >= 0 then m else -m, x);
  }

  lemma RepresentableNoRemainder(i: int, n: nat)
    requires n == Magnitude(i) && Representable(i)
    ensures n % Pow2(Exponent(n)) == 0
  {
    var m, e: nat :| IsScaled(i, m, e);
    var k := if i >= 0 then m else -m;
    assert n == k * Pow2(e);
    if k < 0 {
      MulMonotone(k, -1, Pow2(e));
    }
    ScaledDivides(n, k, e);
  }

  lemma ExactFloatIffRepresentable(i: Integer)
    ensures ExactFloat(i).Some? <==> Representable(i)
  {
    var n := Magnitude(i);
    RoundToExact(n, Exponent(n));
    if Representable(i) {
      RepresentableNoRemainder(i, n);
    } else if n % Pow2(Exponent(n)) == 0 {
      NoRemainderRepresentable(i, n);
    }
  }
}
