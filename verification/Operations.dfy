/** Operators on values (src/interpreter/operations.rs). */
module Operations {
  import opened Wrappers
  import opened Ast
  import opened Numbers
  import opened Values

  /** A request the interpreter sends to its host. `Fork` is answered to the parent; `Forked` opens a child's history. */
  datatype HostCall =
    | PrintLine(text: string)
    | ConnectTo(transport: Transport, address: string, protocol: Option<string>)
    | BindUdp(address: string)
    | ListenTcp(address: string)
    | SendTo(connection: Value, data: Value, destination: Option<string>)
    | ReceiveFrom(connection: Value)
    | SendRequest(verb: HttpMethod, url: string, config: Value)
    | CloseHandle(connection: Value)
    | SetHandleTimeout(connection: Value, milliseconds: Duration)
    | AcceptFrom(listener: Value)
    | LocalAddressOf(connection: Value)
    | Fork
    | Forked

  datatype Reply = Answer(value: Value, text: string) | Refused(message: string)

  /**
   * Everything the interpreter does not compute itself. A host is a function
   * of the whole history of calls made to it; rendering, float arithmetic and
   * UTF-8 conversion stay uninterpreted.
   */
  datatype Library = Library(
    reply: seq<HostCall> -> Reply,
    display: Value -> string,
    arithmetic: (BinaryOp, Float, Float) -> Float,
    encode: string -> seq<Byte>,
    decode: seq<Byte> -> Result<string, nat>)

  function CompareStrings(a: string, b: string): Order {
    if a == [] && b == [] then Same
    else if a == [] then Before
    else if b == [] then After
    else if a[0] < b[0] then Before
    else if a[0] > b[0] then After
    else CompareStrings(a[1..], b[1..])
  }

  /** Derived equality: NaN differs from itself and a record's printed name is not compared. */
  predicate ValueEqual(a: Value, b: Value) {
    if a.Record? && b.Record? then
      && a.identity == b.identity && a.typeId == b.typeId && a.fields.Keys == b.fields.Keys
      && forall key | key in a.fields :: ValueEqual(a.fields[key], b.fields[key])
    else if a.FloatValue? && b.FloatValue? then CompareFloat(a.float, b.float) == Some(Same)
    else if a.ArrayValue? && b.ArrayValue? then
      |a.elements| == |b.elements| && forall i | 0 <= i < |a.elements| :: ValueEqual(a.elements[i], b.elements[i])
    else if a.ObjectValue? && b.ObjectValue? then
      a.fields.Keys == b.fields.Keys && forall key | key in a.fields :: ValueEqual(a.fields[key], b.fields[key])
    else a == b
  }

  predicate IsEquality(op: BinaryOp) { op.Equal? || op.NotEqual? }

  predicate IsOrdering(op: BinaryOp) { op.Less? || op.LessEqual? || op.Greater? || op.GreaterEqual? }

  predicate IsNumber(v: Value) { v.IntegerValue? || v.FloatValue? }

  function ToNumber(v: Value): Number
    requires IsNumber(v)
  {
    if v.IntegerValue? then IntegerNumber(v.integer) else FloatNumber(v.float)
  }

  function Equality(a: Value, b: Value): bool {
    if a.IntegerValue? && b.FloatValue? then CompareIntFloat(a.integer, b.float) == Some(Same)
    else if a.FloatValue? && b.IntegerValue? then CompareIntFloat(b.integer, a.float) == Some(Same)
    else ValueEqual(a, b)
  }

  function Ordering(a: Value, b: Value): Option<Order> {
    if IsNumber(a) && IsNumber(b) then CompareNumbers(ToNumber(a), ToNumber(b))
    else if a.StringValue? && b.StringValue? then Some(CompareStrings(a.text, b.text))
    else if a.DurationValue? && b.DurationValue? then Some(CompareInt(a.duration, b.duration))
    else None
  }

  predicate OrderHolds(op: BinaryOp, order: Order)
    requires IsOrdering(op)
  {
    match op
    case Less => order == Before
    case LessEqual => order != After
    case Greater => order == After
    case GreaterEqual => order != Before
  }

  predicate IsScalar(v: Value) {
    v.IntegerValue? || v.FloatValue? || v.StringValue? || v.BooleanValue? || v.NullValue? || v.DurationValue?
  }

  /** Division and remainder truncate toward zero. */
  function TruncatedQuotient(a: int, b: int): int
    requires b != 0
  {
    var q := Magnitude(a) / Magnitude(b);
    if (a < 0) == (b < 0) then q else -q
  }

  function IntegerBinary(op: BinaryOp, a: Integer, b: Integer): Result<Value, Message> {
    if (op.Divide? || op.Remainder?) && b == 0 then Err(DivisionByZero)
    else if op.Remainder? && a == MIN_INTEGER && b == -1 then Err(IntegerOverflow)
    else
      var x: int := a;
      var y: int := b;
      var exact := match op
        case Add => Some(x + y)
        case Subtract => Some(x - y)
        case Multiply => Some(x * y)
        case Divide => Some(TruncatedQuotient(x, y))
        case Remainder => Some(x - y * TruncatedQuotient(x, y))
        case _ => None;
      if exact.Some? && MIN_INTEGER <= exact.value <= MAX_INTEGER then Ok(IntegerValue(exact.value))
      else Err(IntegerOverflow)
  }

  function DurationBinary(op: BinaryOp, a: Duration, b: Duration): Result<Value, Message> {
    var x: int := a;
    var y: int := b;
    var exact := if op.Add? then x + y else if op.Subtract? then x - y else -1;
    if 0 <= exact <= MAX_DURATION then Ok(DurationValue(exact)) else Err(DurationOverflow)
  }

  function FloatBinary(lib: Library, op: BinaryOp, a: Float, b: Float): Result<Value, Message> {
    if (op.Divide? || op.Remainder?) && b == Finite(0.0) then Err(DivisionByZero)
    else if !(op.Add? || op.Subtract? || op.Multiply? || op.Divide? || op.Remainder?) then Err(InvalidFloatOperation)
    else
      var value := lib.arithmetic(op, a, b);
      if value.Finite? then Ok(FloatValue(value)) else Err(NotFinite)
  }

  function BinaryResult(lib: Library, left: Value, op: BinaryOp, right: Value): Result<Value, Message> {
    if IsEquality(op) then
      Ok(BooleanValue(if op.Equal? then Equality(left, right) else !Equality(left, right)))
    else if IsOrdering(op) then
      var order := Ordering(left, right);
      if order.Some? then Ok(BooleanValue(OrderHolds(op, order.value))) else Err(Unordered)
    else if op.Add? && (left.StringValue? || right.StringValue?) then
      if IsScalar(left) && IsScalar(right) then Ok(StringValue(lib.display(left) + lib.display(right))) else Err(NotScalar)
    else if left.BytesValue? && right.BytesValue? && op.Add? then Ok(BytesValue(left.bytes + right.bytes))
    else if left.IntegerValue? && right.IntegerValue? then IntegerBinary(op, left.integer, right.integer)
    else if left.DurationValue? && right.DurationValue? then DurationBinary(op, left.duration, right.duration)
    else if IsNumber(left) && IsNumber(right) then
      var x := ToFloat(left);
      var y := ToFloat(right);
      if x.Some? && y.Some? then FloatBinary(lib, op, x.value, y.value) else Err(InexactInteger)
    else Err(InvalidOperands(left.KindName(), right.KindName()))
  }

  function ToFloat(v: Value): Option<Float>
    requires IsNumber(v)
  {
    if v.FloatValue? then Some(v.float) else ExactFloat(v.integer)
  }

  function NegatedFloat(f: Float): Float {
    match f
    case Finite(x) => Finite(-x)
    case Infinite(negative) => Infinite(!negative)
    case NaN => NaN
  }

  function UnaryResult(op: UnaryOp, v: Value): Result<Value, Message> {
    if op.Not? && v.BooleanValue? then Ok(BooleanValue(!v.boolean))
    else if op.Negate? && v.IntegerValue? then
      if v.integer == MIN_INTEGER then Err(IntegerOverflow) else Negated(v.integer)
    else if op.Negate? && v.FloatValue? then Ok(FloatValue(NegatedFloat(v.float)))
    else Err(InvalidOperand(v.KindName()))
  }

  function Negated(i: int): Result<Value, Message>
    requires MIN_INTEGER < i <= MAX_INTEGER
  {
    Ok(IntegerValue(-i))
  }

  /** Bytes of the UTF-8 encoding, which bound a worker's buffered output. */
  function Utf8Length(text: string): nat {
    if text == [] then 0
    else
      Utf8Length(text[1..]) +
      (if text[0] < '\U{80}' then 1 else if text[0] < '\U{800}' then 2 else if text[0] < '\U{10000}' then 3 else 4)
  }
}
