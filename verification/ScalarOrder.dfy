/** The comparison operators on scalars: one total order on numbers, one on strings, one on durations. */
module ScalarOrder {
  import opened Wrappers
  import opened Ast
  import opened Numbers
  import opened Values
  import opened Operations

  predicate Holds(lib: Library, a: Value, op: BinaryOp, b: Value) {
    BinaryResult(lib, a, op, b) == Ok(BooleanValue(true))
  }

  /** Operands the ordering operators accept. NaN is a number, but compares with nothing. */
  predicate Comparable(a: Value, b: Value) {
    || (IsNumber(a) && IsNumber(b) && a != FloatValue(NaN) && b != FloatValue(NaN))
    || (a.StringValue? && b.StringValue?)
    || (a.DurationValue? && b.DurationValue?)
  }

  // ----- strings -----

  lemma {:induction false} StringsReverse(a: string, b: string)
    ensures CompareStrings(b, a) == CompareStrings(a, b).Reverse()
    ensures CompareStrings(a, b) == Same <==> a == b
  {
    if a != [] && b != [] && a[0] == b[0] {
      StringsReverse(a[1..], b[1..]);
      assert a == [a[0]] + a[1..] && b == [b[0]] + b[1..];
    }
  }

  lemma {:induction false} StringsTransitive(a: string, b: string, c: string)
    requires CompareStrings(a, b) != After && CompareStrings(b, c) != After
    ensures CompareStrings(a, c) != After
    decreases |b|
  {
    if a != [] && b != [] && c != [] && a[0] == b[0] == c[0] {
      StringsTransitive(a[1..], b[1..], c[1..]);
    }
  }

  /** Lexicographic order: a proper prefix comes first, otherwise the first difference decides. */
  ghost predicate Precedes(a: string, b: string) {
    exists k: nat :: k <= |a| && k < |b| && a[..k] == b[..k] && (k == |a| || a[k] < b[k])
  }

  lemma SameFirst(a: string, b: string, k: nat)
    requires 0 < k <= |a| && k <= |b| && a[..k] == b[..k]
    ensures a[0] == b[0]
  {
    assert a[0] == a[..k][0];
  }

  lemma {:induction false} StringsPrecede(a: string, b: string)
    ensures CompareStrings(a, b) == Before <==> Precedes(a, b)
  {
    if a == [] {
      if b != [] {
        assert a[..0] == b[..0];
      }
    } else if b != [] {
      if a[0] == b[0] {
        StringsPrecede(a[1..], b[1..]);
        if Precedes(a[1..], b[1..]) {
          var k: nat :| k <= |a[1..]| && k < |b[1..]| && a[1..][..k] == b[1..][..k] && (k == |a[1..]| || a[1..][k] < b[1..][k]);
          assert a[..k + 1] == [a[0]] + a[1..][..k] && b[..k + 1] == [b[0]] + b[1..][..k];
        }
        if Precedes(a, b) {
          var k: nat :| k <= |a| && k < |b| && a[..k] == b[..k] && (k == |a| || a[k] < b[k]);
          assert k > 0;
          assert a[1..][..k - 1] == a[..k][1..] && b[1..][..k - 1] == b[..k][1..];
        }
      } else {
        assert a[..0] == b[..0];
        if Precedes(a, b) {
          var k: nat :| k <= |a| && k < |b| && a[..k] == b[..k] && (k == |a| || a[k] < b[k]);
          if k > 0 {
            SameFirst(a, b, k);
          }
        }
      }
    }
  }

  /** The order of the language: of the numbers, lexicographic on strings, by length on durations. */
  lemma LessMeans(lib: Library, a: Value, b: Value)
    ensures a.IntegerValue? && b.IntegerValue? ==> (Holds(lib, a, Less, b) <==> a.integer < b.integer)
    ensures a.StringValue? && b.StringValue? ==> (Holds(lib, a, Less, b) <==> Precedes(a.text, b.text))
    ensures a.DurationValue? && b.DurationValue? ==> (Holds(lib, a, Less, b) <==> a.duration < b.duration)
  {
    if a.StringValue? && b.StringValue? {
      StringsPrecede(a.text, b.text);
    }
  }

  // ----- equality of values -----

  /** NaN equals nothing, so a value that contains it does not equal itself. */
  predicate NoNaN(v: Value)
    decreases v
  {
    match v
    case FloatValue(x) => x != NaN
    case Record(_, _, _, fields) => forall key | key in fields :: NoNaN(fields[key])
    case ObjectValue(fields) => forall key | key in fields :: NoNaN(fields[key])
    case ArrayValue(elements) => forall i | 0 <= i < |elements| :: NoNaN(elements[i])
    case _ => true
  }

  /** The value without the printed names of its records. */
  function Unnamed(v: Value): Value
    decreases v, 1
  {
    match v
    case Record(identity, id, _, _) => Record(identity, id, "", UnnamedFields(v))
    case ObjectValue(_) => ObjectValue(UnnamedFields(v))
    case ArrayValue(elements) => ArrayValue(seq(|elements|, i requires 0 <= i < |elements| => Unnamed(elements[i])))
    case _ => v
  }

  function UnnamedFields(v: Value): (fields: map<string, Value>)
    requires v.Record? || v.ObjectValue?
    ensures fields.Keys == v.fields.Keys
    ensures forall key | key in fields :: key in v.fields && fields[key] == Unnamed(v.fields[key])
    decreases v, 0
  {
    map key | key in v.fields :: Unnamed(v.fields[key])
  }

  predicate SameFields(a: map<string, Value>, b: map<string, Value>) {
    forall key | key in a && key in b :: (ValueEqual(a[key], b[key]) <==> Unnamed(a[key]) == Unnamed(b[key]))
  }

  lemma HoldersStructural(a: Value, b: Value)
    requires (a.Record? && b.Record?) || (a.ObjectValue? && b.ObjectValue?)
    requires SameFields(a.fields, b.fields)
    ensures ValueEqual(a, b) <==> Unnamed(a) == Unnamed(b)
  {
    var x, y := UnnamedFields(a), UnnamedFields(b);
    if x == y {
      forall key | key in a.fields
        ensures ValueEqual(a.fields[key], b.fields[key])
      {
        assert x[key] == y[key];
      }
    }
  }

  /** Values that hold no others. */
  lemma LeavesStructural(a: Value, b: Value)
    requires NoNaN(a) && NoNaN(b)
    requires !(a.Record? && b.Record?) && !(a.ObjectValue? && b.ObjectValue?) && !(a.ArrayValue? && b.ArrayValue?)
    ensures ValueEqual(a, b) <==> Unnamed(a) == Unnamed(b)
  {
  }

  /** Without NaN, equality of values of one kind is structural, at any depth, up to the printed names of records. */
  lemma {:induction false} EqualityIsStructural(a: Value, b: Value)
    requires NoNaN(a) && NoNaN(b)
    ensures ValueEqual(a, b) <==> Unnamed(a) == Unnamed(b)
    decreases a
  {
    if (a.Record? && b.Record?) || (a.ObjectValue? && b.ObjectValue?) {
      hide ValueEqual, Unnamed;
      forall key | key in a.fields && key in b.fields
        ensures ValueEqual(a.fields[key], b.fields[key]) <==> Unnamed(a.fields[key]) == Unnamed(b.fields[key])
      {
        EqualityIsStructural(a.fields[key], b.fields[key]);
      }
      HoldersStructural(a, b);
    } else if a.ArrayValue? && b.ArrayValue? {
      if |a.elements| != |b.elements| {
        assert |Unnamed(a).elements| != |Unnamed(b).elements|;
      } else {
        hide ValueEqual, Unnamed;
        forall i | 0 <= i < |a.elements|
          ensures ValueEqual(a.elements[i], b.elements[i]) <==> Unnamed(a.elements[i]) == Unnamed(b.elements[i])
        {
          EqualityIsStructural(a.elements[i], b.elements[i]);
        }
        ElementsStructural(a, b);
      }
    } else {
      hide ValueEqual, Unnamed;
      LeavesStructural(a, b);
    }
  }

  lemma ElementsStructural(a: Value, b: Value)
    requires a.ArrayValue? && b.ArrayValue? && |a.elements| == |b.elements|
    requires forall i | 0 <= i < |a.elements| ::
               (ValueEqual(a.elements[i], b.elements[i]) <==> Unnamed(a.elements[i]) == Unnamed(b.elements[i]))
    ensures ValueEqual(a, b) <==> Unnamed(a) == Unnamed(b)
  {
    var x, y := Unnamed(a).elements, Unnamed(b).elements;
    assert |x| == |a.elements| && |y| == |b.elements|;
    assert forall i | 0 <= i < |x| :: x[i] == Unnamed(a.elements[i]) && y[i] == Unnamed(b.elements[i]);
  }

  // ----- operators -----

  /** The equality operators and the ordering operators agree on numbers, integers and floats mixed included. */
  lemma NumbersEqual(a: Value, b: Value)
    requires IsNumber(a) && IsNumber(b)
    ensures Equality(a, b) <==> CompareNumbers(ToNumber(a), ToNumber(b)) == Some(Same)
  {
  }

  lemma OperatorsCompare(lib: Library, a: Value, b: Value)
    requires Comparable(a, b)
    ensures Ordering(a, b).Some? && Ordering(b, a) == Some(Ordering(a, b).value.Reverse())
    ensures Holds(lib, a, LessEqual, b) <==> Ordering(a, b).value != After
    ensures Holds(lib, a, Equal, b) <==> Ordering(a, b).value == Same
  {
    if IsNumber(a) {
      NumbersEqual(a, b);
      CompareNumbersExact(ToNumber(a), ToNumber(b));
      CompareNumbersExact(ToNumber(b), ToNumber(a));
    } else if a.StringValue? {
      StringsReverse(a.text, b.text);
    }
  }

  /** Exactly the operands that compare: everything else is an error or, with NaN, unordered. */
  lemma OrderedIffComparable(lib: Library, a: Value, b: Value)
    ensures BinaryResult(lib, a, LessEqual, b).Ok? <==> Comparable(a, b)
  {
    if IsNumber(a) && IsNumber(b) {
      CompareNumbersExact(ToNumber(a), ToNumber(b));
    }
  }

  /** `<=` is a total preorder on comparable values, `==` is its equivalence and the other operators follow from it. */
  lemma OperatorsAreAnOrder(lib: Library, a: Value, b: Value, c: Value)
    requires Comparable(a, b) && Comparable(b, c)
    ensures Holds(lib, a, LessEqual, b) || Holds(lib, b, LessEqual, a)
    ensures Holds(lib, a, LessEqual, b) && Holds(lib, b, LessEqual, c) ==> Holds(lib, a, LessEqual, c)
    ensures Holds(lib, a, Equal, b) <==> Holds(lib, a, LessEqual, b) && Holds(lib, b, LessEqual, a)
    ensures Holds(lib, a, NotEqual, b) <==> !Holds(lib, a, Equal, b)
    ensures Holds(lib, a, Less, b) <==> !Holds(lib, b, LessEqual, a)
    ensures Holds(lib, a, Greater, b) <==> Holds(lib, b, Less, a)
    ensures Holds(lib, a, GreaterEqual, b) <==> Holds(lib, b, LessEqual, a)
  {
    OperatorsCompare(lib, a, b);
    OperatorsCompare(lib, b, a);
    OperatorsCompare(lib, b, c);
    OperatorsCompare(lib, a, c);
    if IsNumber(a) {
      MixedOrderIsTotalPreorder(ToNumber(a), ToNumber(b), ToNumber(c));
    } else if a.StringValue? && Holds(lib, a, LessEqual, b) && Holds(lib, b, LessEqual, c) {
      StringsTransitive(a.text, b.text, c.text);
    }
  }
}
