/** Arithmetic on the exact integers. */
module Arithmetic {
  import opened Wrappers
  import opened Ast
  import opened Numbers
  import opened Values
  import opened Operations

  predicate FitsInteger(i: int) { -0x8000_0000_0000_0000 <= i <= 0x7fff_ffff_ffff_ffff }

  predicate FitsDuration(i: int) { 0 <= i <= 0xffff_ffff_ffff_ffff }

  predicate IsArithmetic(op: BinaryOp) {
    op.Add? || op.Subtract? || op.Multiply? || op.Divide? || op.Remainder?
  }

  // ----- integers -----

  /** Sum, difference and product are the exact ones, or overflow: nothing wraps around. */
  lemma IntegersExact(lib: Library, a: Integer, b: Integer)
    ensures BinaryResult(lib, IntegerValue(a), Add, IntegerValue(b)) ==
            if FitsInteger(a + b) then Ok(IntegerValue(a + b)) else Err(IntegerOverflow)
    ensures BinaryResult(lib, IntegerValue(a), Subtract, IntegerValue(b)) ==
            if FitsInteger(a - b) then Ok(IntegerValue(a - b)) else Err(IntegerOverflow)
    ensures BinaryResult(lib, IntegerValue(a), Multiply, IntegerValue(b)) ==
            if FitsInteger(a * b) then Ok(IntegerValue(a * b)) else Err(IntegerOverflow)
  {
  }

  function Size(i: int): int {
    if i < 0 then -i else i
  }

  /** `q` and `r` divide `a` by `b` toward zero. */
  predicate Divides(a: int, b: int, q: int, r: int) {
    && a == q * b + r
    && Size(r) < Size(b)
    && (r == 0 || (r < 0) == (a < 0))
  }

  lemma Signs(x: int, y: int)
    ensures -x * y == -(x * y) && x * -y == -(x * y) && -x * -y == x * y
  {
  }

  lemma SizeOfProduct(x: int, y: int)
    ensures Size(x * y) == Size(x) * Size(y) >= 0
  {
    Signs(x, y);
    Positive(Size(x), Size(y));
    if x == 0 || y == 0 {
      assert x * y == 0;
    }
  }

  lemma Positive(x: int, y: int)
    requires x >= 0 && y >= 0
    ensures x * y >= 0
    ensures x > 0 ==> x * y >= y
    ensures x > 1 && y > 0 ==> x * y >= 2 * y
  {
    if x > 1 {
      Positive(x - 1, y);
      assert x * y == (x - 1) * y + y;
    } else if x == 1 {
      assert x * y == y;
    }
  }

  /** There is one way to divide toward zero. */
  lemma DividesOnce(a: int, b: int, q: int, r: int, q': int, r': int)
    requires b != 0 && Divides(a, b, q, r) && Divides(a, b, q', r')
    ensures q == q' && r == r'
  {
    assert (q - q') * b == q * b - q' * b == r' - r;
    if q != q' {
      SizeOfProduct(q - q', b);
      Positive(Size(q - q'), Size(b));
    }
  }

  lemma QuotientDivides(a: int, b: int)
    requires b != 0
    ensures var q := TruncatedQuotient(a, b); Divides(a, b, q, a - b * q)
  {
    var m, n := Size(a), Size(b);
    var p := m / n;
    var q := TruncatedQuotient(a, b);
    assert m == n * p + m % n && 0 <= m % n < n;
    Signs(n, p);
    assert Magnitude(a) == m && Magnitude(b) == n;
    assert q == if (a < 0) == (b < 0) then p else -p;
    assert b == if b < 0 then -n else n;
    assert b * q == if a < 0 then -(n * p) else n * p;
    assert q * b == b * q;
  }

  lemma QuotientFits(a: Integer, b: Integer, q: int, r: int)
    requires b != 0 && Divides(a, b, q, r)
    ensures FitsInteger(q) <==> !(a == MIN_INTEGER && b == -1)
    ensures FitsInteger(r)
  {
    if b == -1 || b == 1 {
      assert r == 0 && q * b == if b == 1 then q else -q;
    } else {
      SizeOfProduct(q, b);
      Positive(Size(b), Size(q));
      assert Size(q) * Size(b) == Size(b) * Size(q);
      var product := q * b;
      assert a == product + r && Size(product) >= 2 * Size(q);
      hide Divides;
    }
  }

  /**
   * Division and remainder belong together, truncate toward zero, and fail
   * exactly for a zero divisor and where the quotient is no 64-bit integer.
   */
  lemma DivisionExact(lib: Library, a: Integer, b: Integer, q: int, r: int)
    requires b != 0 ==> Divides(a, b, q, r)
    ensures var d := BinaryResult(lib, IntegerValue(a), Divide, IntegerValue(b));
            var e := BinaryResult(lib, IntegerValue(a), Remainder, IntegerValue(b));
            if b == 0 then d == Err(DivisionByZero) && e == Err(DivisionByZero)
            else if !FitsInteger(q) then d == Err(IntegerOverflow) && e == Err(IntegerOverflow)
            else d == Ok(IntegerValue(q)) && FitsInteger(r) && e == Ok(IntegerValue(r))
  {
    if b != 0 {
      QuotientDivides(a, b);
      DividesOnce(a, b, q, r, TruncatedQuotient(a, b), a - b * TruncatedQuotient(a, b));
      QuotientFits(a, b, q, r);
      hide TruncatedQuotient, Divides;
    }
  }

  /** Every pair of integers with a divisor can be divided, so the lemma above is about all of them. */
  lemma DivisionExists(a: int, b: int) returns (q: int, r: int)
    requires b != 0
    ensures Divides(a, b, q, r)
  {
    q := TruncatedQuotient(a, b);
    r := a - b * q;
    QuotientDivides(a, b);
  }

  // ----- durations, bytes and strings -----

  lemma DurationsExact(lib: Library, a: Duration, b: Duration)
    ensures BinaryResult(lib, DurationValue(a), Add, DurationValue(b)) ==
            if FitsDuration(a + b) then Ok(DurationValue(a + b)) else Err(DurationOverflow)
    ensures BinaryResult(lib, DurationValue(a), Subtract, DurationValue(b)) ==
            if b <= a then Ok(DurationValue(a - b)) else Err(DurationOverflow)
    ensures forall op: BinaryOp | op.Multiply? || op.Divide? || op.Remainder? ::
              BinaryResult(lib, DurationValue(a), op, DurationValue(b)) == Err(DurationOverflow)
  {
  }

  /** `+` on bytes and, by their display, on scalars one of which is a string, puts the left operand first. */
  lemma ConcatenationExact(lib: Library, a: Value, b: Value)
    ensures a.BytesValue? && b.BytesValue? ==> BinaryResult(lib, a, Add, b) == Ok(BytesValue(a.bytes + b.bytes))
    ensures a.StringValue? || b.StringValue? ==>
              BinaryResult(lib, a, Add, b) ==
              if IsScalar(a) && IsScalar(b) then Ok(StringValue(lib.display(a) + lib.display(b))) else Err(NotScalar)
  {
  }

  // ----- floats -----

  /** The float an operand stands for; an integer stands for a float only when it is one exactly. */
  predicate StandsFor(v: Value, x: Float) {
    v == FloatValue(x) || (v.IntegerValue? && ExactFloat(v.integer) == Some(x))
  }

  /** With a float on either side the operation is that of the floats; a zero divisor and results that are not finite fail. */
  lemma FloatsExact(lib: Library, a: Value, op: BinaryOp, b: Value, x: Float, y: Float)
    requires IsArithmetic(op) && IsNumber(a) && IsNumber(b) && (a.FloatValue? || b.FloatValue?)
    requires StandsFor(a, x) && StandsFor(b, y)
    ensures BinaryResult(lib, a, op, b) ==
            if (op.Divide? || op.Remainder?) && y == Finite(0.0) then Err(DivisionByZero)
            else if lib.arithmetic(op, x, y).Finite? then Ok(FloatValue(lib.arithmetic(op, x, y)))
            else Err(NotFinite)
  {
  }

  lemma InexactIntegersAreRefused(lib: Library, i: Integer, op: BinaryOp, x: Float)
    requires IsArithmetic(op) && ExactFloat(i).None?
    ensures BinaryResult(lib, IntegerValue(i), op, FloatValue(x)) == Err(InexactInteger)
    ensures BinaryResult(lib, FloatValue(x), op, IntegerValue(i)) == Err(InexactInteger)
  {
  }

  // ----- unary operators -----

  lemma UnaryExact(v: Value)
    ensures UnaryResult(Not, v) == if v.BooleanValue? then Ok(BooleanValue(!v.boolean)) else Err(InvalidOperand(v.KindName()))
    ensures v.IntegerValue? ==>
              var i: int := v.integer;
              UnaryResult(Negate, v) == if FitsInteger(-i) then Ok(IntegerValue(-i)) else Err(IntegerOverflow)
    ensures v.FloatValue? && v.float.Finite? ==> UnaryResult(Negate, v) == Ok(FloatValue(Finite(-v.float.value)))
    ensures !IsNumber(v) ==> UnaryResult(Negate, v) == Err(InvalidOperand(v.KindName()))
  {
  }

  /** Anything else the arithmetic operators refuse, naming both kinds. */
  lemma OtherOperandsAreRefused(lib: Library, a: Value, op: BinaryOp, b: Value)
    requires IsArithmetic(op) && !(op.Add? && (a.StringValue? || b.StringValue?)) && !(op.Add? && a.BytesValue? && b.BytesValue?)
    requires !(IsNumber(a) && IsNumber(b)) && !(a.DurationValue? && b.DurationValue?)
    ensures BinaryResult(lib, a, op, b) == Err(InvalidOperands(a.KindName(), b.KindName()))
  {
  }
}
