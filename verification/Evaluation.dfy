/**
 * Meaning of programs: the interpreter of src/interpreter as functions from
 * state to state. The step budget is the only fuel, so the termination proof of
 * these functions is a termination proof of every run.
 *
 * `State` holds what a run accumulates. `Frame` holds what the code saves and
 * restores around a construct; passing it downwards is the specification of
 * that discipline, which the class in Interpreter.dfy is proved to follow.
 */
module Evaluation {
  import opened Wrappers
  import opened Source
  import opened Ast
  import opened Types
  import opened Values
  import opened Operations

  type Environment = seq<map<string, nat>>

  datatype Limits = Limits(steps: nat, callDepth: nat, expressionDepth: nat, workers: nat, outputBytes: nat)

  datatype Config = Config(types: seq<TypeDef>, identity: nat, limits: Limits, lib: Library)

  datatype Binding = Binding(annotation: Option<ResolvedType>, value: Option<Value>, mutable: bool)

  datatype FunctionDef = FunctionDef(
    name: string,
    parameters: seq<Parameter>,
    result: Option<ResolvedType>,
    resultSpan: Option<Span>,
    body: Stmt,
    closure: Environment)

  datatype Buffer = Buffer(lines: seq<string>, bytes: nat)

  /** The history of one host, and the output buffer of a worker. */
  datatype HostState = HostState(history: seq<HostCall>, buffer: Option<Buffer>)

  datatype State = State(bindings: seq<Binding>, functions: seq<FunctionDef>, steps: nat, host: HostState)

  datatype Frame = Frame(
    depth: nat,
    stack: seq<string>,
    result: Option<ResolvedType>,
    span: Option<Span>,
    captured: nat,
    inWorker: bool)

  datatype RuntimeError = RuntimeError(message: Message, stack: seq<string>, span: Option<Span>)

  datatype Flow = Normal | BreakFlow | ContinueFlow | ReturnFlow(value: Value)

  datatype Out<+T> = Out(st: State, res: Result<T, RuntimeError>)

  datatype Place = Place(id: nat, selectors: seq<Selector>)

  /** What is checked as soon as one element of an operand list has a value. */
  datatype Check = Unchecked | FieldContracts(id: nat, keys: seq<string>) | OperandsOf(op: EffectOp)

  datatype Reserved = Reserved(st: State, env: Environment, slots: seq<Option<nat>>)

  /** What a parallel statement copies for its workers. */
  datatype Snapshot = Snapshot(bindings: seq<Binding>, functions: seq<FunctionDef>)

  datatype Outcome = Outcome(lines: seq<string>, error: Option<RuntimeError>)

  datatype Finished = Finished(st: State, outcomes: seq<Outcome>)

  /** What every step keeps: the budget never grows, and a worker stays a worker. */
  predicate Leads(a: State, b: State) {
    b.steps <= a.steps && (b.host.buffer.Some? <==> a.host.buffer.Some?)
  }

  // ----- small steps shared by everything -----

  function Error(f: Frame, message: Message): RuntimeError {
    RuntimeError(message, f.stack, f.span)
  }

  function Fail<T>(f: Frame, st: State, message: Message): Out<T> {
    Out(st, Err(Error(f, message)))
  }

  function Lift<T>(f: Frame, st: State, res: Result<T, Message>): (o: Out<T>)
    ensures o.st == st && (o.res.Ok? <==> res.Ok?)
  {
    match res
    case Ok(v) => Out(st, Ok(v))
    case Err(m) => Fail(f, st, m)
  }

  function LookUp(env: Environment, name: string): Option<nat> {
    if env == [] then None
    else if name in env[|env| - 1] then Some(env[|env| - 1][name])
    else LookUp(env[..|env| - 1], name)
  }

  function Bind(env: Environment, name: string, id: nat): (bound: Environment)
    ensures |bound| == |env|
  {
    if env == [] then env
    else
      var scope: map<string, nat> := env[|env| - 1][name := id];
      env[|env| - 1 := scope]
  }

  function Read(st: State, id: nat): Result<Value, Message> {
    if id >= |st.bindings| then Err(Panic)
    else if st.bindings[id].value.None? then Err(Uninitialized)
    else Ok(st.bindings[id].value.value)
  }

  function Store(st: State, id: nat, v: Value): State
    requires id < |st.bindings|
  {
    st.(bindings := st.bindings[id := st.bindings[id].(value := Some(v))])
  }

  function Allocate(st: State, annotation: Option<ResolvedType>, value: Option<Value>, mutable: bool): State {
    st.(bindings := st.bindings + [Binding(annotation, value, mutable)])
  }

  function CheckType(cfg: Config, expected: Option<ResolvedType>, v: Value): Option<Message> {
    if expected.Some? && !InRange(cfg.types, expected.value) then Some(Panic)
    else CheckValueType(cfg.types, cfg.identity, expected, v)
  }

  // ----- the host -----

  function Ask(cfg: Config, h: HostState, call: HostCall): (HostState, Reply) {
    var asked := h.(history := h.history + [call]);
    (asked, cfg.lib.reply(asked.history))
  }

  /** A worker buffers whole lines up to its byte limit; otherwise the host prints. */
  function Print(cfg: Config, h: HostState, text: string): (r: (HostState, Option<Message>))
    ensures r.0.buffer.Some? <==> h.buffer.Some?
    ensures h.buffer.Some? && r.1.Some? ==> r.1.value == OutputLimit
  {
    if h.buffer.Some? then
      var bytes := h.buffer.value.bytes + Utf8Length(text) + 1;
      if bytes > cfg.limits.outputBytes then (h, Some(OutputLimit))
      else (h.(buffer := Some(Buffer(h.buffer.value.lines + [text], bytes))), None)
    else
      var (asked, reply) := Ask(cfg, h, PrintLine(text));
      (asked, if reply.Refused? then Some(Host(reply.message)) else None)
  }

  function HostResult(cfg: Config, f: Frame, st: State, call: HostCall): Out<Value> {
    var (asked, reply) := Ask(cfg, st.host, call);
    var next := st.(host := asked);
    match reply
    case Refused(message) => Fail(f, next, Host(message))
    case Answer(value, text) =>
      if call.CloseHandle? || call.SetHandleTimeout? then Out(next, Ok(NullValue))
      else if call.LocalAddressOf? then Out(next, Ok(StringValue(text)))
      else Out(next, Ok(value))
  }

  /** The network operation of an effect node once its operands have values. */
  function EffectResult(cfg: Config, f: Frame, st: State, op: EffectOp, values: seq<Value>): Out<Value> {
    match op
    case Connect(transport, protocol) =>
      if |values| != 1 then Fail(f, st, MalformedEffect)
      else if values[0].ObjectValue? then
        var fields := values[0].fields;
        var key := if transport.Udp? then "bind" else "listen";
        if protocol.Some? then Fail(f, st, ConfigurationProtocol)
        else if |fields| != 1 || key !in fields then Fail(f, st, ConfigurationField(key))
        else if !fields[key].StringValue? then Fail(f, st, ExpectedString(key))
        else HostResult(cfg, f, st, if transport.Udp? then BindUdp(fields[key].text) else ListenTcp(fields[key].text))
      else if values[0].StringValue? then HostResult(cfg, f, st, ConnectTo(transport, values[0].text, protocol))
      else Fail(f, st, ExpectedString("address"))
    case Send =>
      if |values| == 2 then HostResult(cfg, f, st, SendTo(values[0], values[1], None))
      else if |values| == 3 && values[2].StringValue? then
        HostResult(cfg, f, st, SendTo(values[0], values[1], Some(values[2].text)))
      else Fail(f, st, MalformedEffect)
    case Receive =>
      if |values| == 1 then HostResult(cfg, f, st, ReceiveFrom(values[0])) else Fail(f, st, MalformedEffect)
    case Request(verb) =>
      if |values| == 1 && values[0].StringValue? then
        HostResult(cfg, f, st, SendRequest(verb, values[0].text, ObjectValue(map[])))
      else if |values| == 2 && values[0].StringValue? then
        HostResult(cfg, f, st, SendRequest(verb, values[0].text, values[1]))
      else Fail(f, st, MalformedEffect)
  }

  predicate IsByte(v: Value) {
    v.IntegerValue? && 0 <= v.integer < 256
  }

  function ToBytes(values: seq<Value>): (bytes: seq<Byte>)
    requires forall v | v in values :: IsByte(v)
    ensures |bytes| == |values|
    ensures forall i | 0 <= i < |bytes| :: values[i] == IntegerValue(bytes[i])
  {
    if values == [] then []
    else
      assert IsByte(values[0]);
      var byte: Byte := values[0].integer;
      [byte] + ToBytes(values[1..])
  }

  function BuiltinName(b: Builtin): string {
    match b
    case BytesOf => "bytes"
    case EncodeUtf8 => "encode_utf8"
    case DecodeUtf8 => "decode_utf8"
    case ByteLen => "byte_len"
    case Close => "close"
    case SetTimeout => "set_timeout"
    case Accept => "accept"
    case LocalAddress => "local_address"
  }

  function BuiltinArity(b: Builtin): nat {
    if b.SetTimeout? then 2 else 1
  }

  function BuiltinResult(cfg: Config, f: Frame, st: State, b: Builtin, args: seq<Value>): Out<Value> {
    if |args| != BuiltinArity(b) then Fail(f, st, ArgumentCount(BuiltinName(b), BuiltinArity(b), |args|))
    else
      match b
      case SetTimeout =>
        if args[1].DurationValue? && 1 <= args[1].duration <= 86_400_000
        then HostResult(cfg, f, st, SetHandleTimeout(args[0], args[1].duration))
        else Fail(f, st, InvalidOperand(args[1].KindName()))
      case Accept => HostResult(cfg, f, st, AcceptFrom(args[0]))
      case LocalAddress => HostResult(cfg, f, st, LocalAddressOf(args[0]))
      case Close => HostResult(cfg, f, st, CloseHandle(args[0]))
      case BytesOf =>
        if !args[0].ArrayValue? || exists v | v in args[0].elements :: !IsByte(v)
        then Fail(f, st, InvalidOperand(args[0].KindName()))
        else Out(st, Ok(BytesValue(ToBytes(args[0].elements))))
      case EncodeUtf8 =>
        if args[0].StringValue? then Out(st, Ok(BytesValue(cfg.lib.encode(args[0].text))))
        else Fail(f, st, InvalidOperand(args[0].KindName()))
      case DecodeUtf8 =>
        if !args[0].BytesValue? then Fail(f, st, InvalidOperand(args[0].KindName()))
        else
          (match cfg.lib.decode(args[0].bytes)
           case Ok(text) => Out(st, Ok(StringValue(text)))
           case Err(at) => Fail(f, st, InvalidUtf8(at)))
      case ByteLen =>
        if args[0].BytesValue? && |args[0].bytes| <= MAX_INTEGER then Out(st, Ok(IntegerValue(|args[0].bytes|)))
        else Fail(f, st, InvalidOperand(args[0].KindName()))
  }

  function Joined(cfg: Config, args: seq<Value>): string {
    if args == [] then ""
    else if |args| == 1 then cfg.lib.display(args[0])
    else cfg.lib.display(args[0]) + " " + Joined(cfg, args[1..])
  }

  // ----- expressions -----

  function ConstructedId(cfg: Config, name: string): (id: Option<nat>)
    ensures id.Some? ==> id.value < |cfg.types| && cfg.types[id.value].name == name
  {
    var t := Resolve(cfg.types, name);
    if t.Some? && t.value.Named? then Some(t.value.id) else None
  }

  /** What stops a node before any operand runs. */
  function Refusal(cfg: Config, e: Expr): Option<Message> {
    if e.Construct? && ConstructedId(cfg, e.name).None? then Some(UnknownNamedType(e.name)) else None
  }

  function CheckOf(cfg: Config, e: Expr): Check {
    if e.Construct? && ConstructedId(cfg, e.name).Some?
    then FieldContracts(ConstructedId(cfg, e.name).value, Keys(e.fields))
    else if e.Effect? then OperandsOf(e.op)
    else Unchecked
  }

  function ElementError(cfg: Config, check: Check, i: nat, v: Value): Option<Message> {
    match check
    case Unchecked => None
    case FieldContracts(id, keys) =>
      if id < |cfg.types| && i < |keys| then CheckType(cfg, FieldType(cfg.types, cfg.types[id].fields, keys[i]), v)
      else Some(Panic)
    case OperandsOf(op) =>
      if op.Request? && i == 0 && !v.StringValue? then Some(ExpectedString("url"))
      else if op.Send? && i == 2 && !v.StringValue? then Some(ExpectedString("destination"))
      else None
  }

  /** A failed field contract is reported at the field's value. */
  function ElementFrame(f: Frame, check: Check, e: Expr): Frame {
    if check.FieldContracts? then f.(span := e.Where().Or(f.span)) else f
  }

  /** Later duplicates win, as in repeated map insertion. */
  function ToMap(keys: seq<string>, values: seq<Value>): (fields: map<string, Value>)
    requires |keys| == |values|
    ensures forall key :: key in fields <==> key in keys
    ensures forall key | key in fields :: exists i :: 0 <= i < |keys| && keys[i] == key && fields[key] == values[i]
  {
    if keys == [] then map[]
    else
      var last := |keys| - 1;
      assert keys == keys[..last] + [keys[last]];
      ToMap(keys[..last], values[..last])[keys[last] := values[last]]
  }

  function ElementResult(value: Value, index: Value): Result<Value, Message> {
    if value.BytesValue? then
      if !index.IntegerValue? then Err(InvalidOperand(index.KindName()))
      else if index.integer < 0 then Err(NegativeIndex)
      else if index.integer >= |value.bytes| then Err(IndexOutOfBounds(index.integer, |value.bytes|))
      else
        var byte: int := value.bytes[index.integer];
        Ok(IntegerValue(byte))
    else Get(value, At(index))
  }

  /** The pure part of a strict node other than a call or an effect. */
  function PureResult(cfg: Config, e: Expr, values: seq<Value>): Result<Value, Message>
    requires IsStrict(e) && |values| == |Operands(e)|
  {
    match e
    case IntegerLit(i) => Ok(IntegerValue(i))
    case FloatLit(x) => Ok(FloatValue(x))
    case StringLit(text) => Ok(StringValue(text))
    case BooleanLit(b) => Ok(BooleanValue(b))
    case NullLit => Ok(NullValue)
    case DurationLit(d) => Ok(DurationValue(d))
    case Construct(name, fields) =>
      var id := ConstructedId(cfg, name);
      if id.Some? then Ok(Record(cfg.identity, id.value, name, ToMap(Keys(fields), values))) else Err(Panic)
    case ObjectLit(fields) => Ok(ObjectValue(ToMap(Keys(fields), values)))
    case ArrayLit(_) => Ok(ArrayValue(values))
    case Unary(op, _) => UnaryResult(op, values[0])
    case Binary(_, op, _) => BinaryResult(cfg.lib, values[0], op, values[1])
    case Property(_, name) => Get(values[0], Member(name))
    case Index(_, _) => ElementResult(values[0], values[1])
    case _ => Err(Panic)
  }

  function Combine(cfg: Config, f: Frame, st: State, e: Expr, values: seq<Value>): (o: Out<Value>)
    requires IsStrict(e) && |values| == |Operands(e)|
    ensures Leads(st, o.st) && o.st.steps == st.steps
  {
    if e.Effect? then EffectResult(cfg, f, st, e.op, values) else Lift(f, st, PureResult(cfg, e, values))
  }

  /** Every expression costs one step and one level of depth; location wrappers cost nothing. */
  function Evaluate(cfg: Config, f: Frame, st: State, e: Expr, env: Environment): (o: Out<Value>)
    ensures Leads(st, o.st)
    ensures o.res.Ok? ==> o.st.steps < st.steps
    decreases st.steps, 0, e
  {
    if e.Located? then Evaluate(cfg, f.(span := Some(e.span)), st, e.inner, env)
    else if st.steps == 0 then Fail(f, st, StepLimit)
    else
      var ticked := st.(steps := st.steps - 1);
      if f.depth >= cfg.limits.expressionDepth then Fail(f, ticked, ExpressionDepth)
      else Inner(cfg, f.(depth := f.depth + 1), ticked, e, env)
  }

  function Variable(f: Frame, st: State, name: string, env: Environment): (o: Out<Value>)
    ensures o.st == st
  {
    var id := LookUp(env, name);
    if id.None? then Fail(f, st, UndefinedName(name)) else Lift(f, st, Read(st, id.value))
  }

  function Inner(cfg: Config, f: Frame, st: State, e: Expr, env: Environment): (o: Out<Value>)
    requires !e.Located?
    ensures Leads(st, o.st)
    decreases st.steps, 3
  {
    if e.Identifier? then Variable(f, st, e.name, env)
    else if e.Assignment? then Assign(cfg, f, st, e.target, e.value, env)
    else if IsStrict(e) then Strict(cfg, f, st, e, env)
    else Logical(cfg, f, st, e.left, e.binary, e.right, env)
  }

  function Strict(cfg: Config, f: Frame, st: State, e: Expr, env: Environment): (o: Out<Value>)
    requires IsStrict(e)
    ensures Leads(st, o.st)
    decreases st.steps, 2
  {
    if Refusal(cfg, e).Some? then Fail(f, st, Refusal(cfg, e).value)
    else
      var o := EvaluateFrom(cfg, f, st, Operands(e), [], CheckOf(cfg, e), env);
      match o.res
      case Err(error) => Out(o.st, Err(error))
      case Ok(values) =>
        if e.Call? then Apply(cfg, f, o.st, values[0], values[1..]) else Combine(cfg, f, o.st, e, values)
  }

  /** Evaluate the expressions after the first `|values|`, checking each value before the next one runs. */
  function EvaluateFrom(
    cfg: Config, f: Frame, st: State, es: seq<Expr>, values: seq<Value>, check: Check, env: Environment)
    : (o: Out<seq<Value>>)
    ensures Leads(st, o.st)
    ensures o.res.Ok? && |values| < |es| ==> o.st.steps < st.steps
    ensures o.res.Ok? && |values| <= |es| ==> |o.res.value| == |es|
    decreases st.steps, 1
  {
    var i := |values|;
    if i >= |es| then Out(st, Ok(values))
    else
      var o := Evaluate(cfg, f, st, es[i], env);
      match o.res
      case Err(error) => Out(o.st, Err(error))
      case Ok(v) =>
        var message := ElementError(cfg, check, i, v);
        if message.Some? then Fail(ElementFrame(f, check, es[i]), o.st, message.value)
        else EvaluateFrom(cfg, f, o.st, es, values + [v], check, env)
  }

  function Logical(cfg: Config, f: Frame, st: State, left: Expr, op: BinaryOp, right: Expr, env: Environment): (o: Out<Value>)
    ensures Leads(st, o.st)
    decreases st.steps, 2
  {
    var l := Evaluate(cfg, f, st, left, env);
    match l.res
    case Err(error) => l
    case Ok(v) =>
      if !v.BooleanValue? then Fail(f, l.st, ExpectedBoolean(v.KindName()))
      else if (op.And? && !v.boolean) || (op.Or? && v.boolean) then l
      else
        var r := Evaluate(cfg, f, l.st, right, env);
        match r.res
        case Err(error) => r
        case Ok(w) => if w.BooleanValue? then r else Fail(f, r.st, ExpectedBoolean(w.KindName()))
  }

  /** What assignment does once the target and the right-hand side are known. */
  function Write(cfg: Config, f: Frame, st: State, place: Place, v: Value): (o: Out<Value>)
    ensures Leads(st, o.st) && o.st.steps == st.steps
  {
    if place.id >= |st.bindings| then Fail(f, st, Panic)
    else
      var written := if place.selectors == [] then Ok(v)
        else
          match Read(st, place.id)
          case Err(message) => Err(message)
          case Ok(root) => Set(cfg.types, cfg.identity, root, place.selectors, v);
      match written
      case Err(message) => Fail(f, st, message)
      case Ok(changed) =>
        var mismatch := CheckType(cfg, st.bindings[place.id].annotation, changed);
        if mismatch.Some? then Fail(f, st, mismatch.value) else Out(Store(st, place.id, changed), Ok(v))
  }

  /** Whether a binding may be assigned at all from here. */
  function Permission(f: Frame, st: State, id: nat): Option<Message> {
    if id >= |st.bindings| then Some(Panic)
    else if !st.bindings[id].mutable then Some(ImmutableBinding)
    else if id < f.captured then Some(ReadOnlyCapture)
    else None
  }

  /** Selectors first, then the binding's permissions, then the right-hand side, then the root. */
  function Assign(cfg: Config, f: Frame, st: State, target: Expr, value: Expr, env: Environment): (o: Out<Value>)
    ensures Leads(st, o.st)
    decreases st.steps, 2
  {
    var t := Target(cfg, f, st, target, env);
    match t.res
    case Err(error) => Out(t.st, Err(error))
    case Ok(place) =>
      var refused := Permission(f, t.st, place.id);
      if refused.Some? then Fail(f, t.st, refused.value)
      else
        var r := Evaluate(cfg, f, t.st, value, env);
        match r.res
        case Err(error) => r
        case Ok(v) => Write(cfg, f, r.st, place, v)
  }

  function Target(cfg: Config, f: Frame, st: State, e: Expr, env: Environment): (o: Out<Place>)
    ensures Leads(st, o.st)
    ensures o.res.Ok? ==> o.st.steps < st.steps
    decreases st.steps, 1, e
  {
    if e.Located? then Target(cfg, f.(span := Some(e.span)), st, e.inner, env)
    else if st.steps == 0 then Fail(f, st, StepLimit)
    else
      var ticked := st.(steps := st.steps - 1);
      if e.Identifier? then
        var id := LookUp(env, e.name);
        if id.None? then Fail(f, ticked, UndefinedName(e.name)) else Out(ticked, Ok(Place(id.value, [])))
      else if e.Property? || e.Index? then
        var o := Target(cfg, f, ticked, e.owner, env);
        match o.res
        case Err(error) => o
        case Ok(place) =>
          if e.Property? then Out(o.st, Ok(place.(selectors := place.selectors + [Member(e.name)])))
          else
            var i := Evaluate(cfg, f, o.st, e.index, env);
            match i.res
            case Err(error) => Out(i.st, Err(error))
            case Ok(v) => Out(i.st, Ok(place.(selectors := place.selectors + [At(v)])))
      else Fail(f, ticked, BadAssignmentRoot)
  }

  // ----- calls -----

  /** Bind arguments in order; a rejected argument leaves the earlier parameters allocated. */
  function BindParameters(
    cfg: Config, f: Frame, st: State, parameters: seq<Parameter>, args: seq<Value>, i: nat, scope: map<string, nat>)
    : (o: Out<map<string, nat>>)
    ensures Leads(st, o.st) && o.st.steps == st.steps
    decreases |parameters| - i
  {
    if i >= |parameters| || i >= |args| then Out(st, Ok(scope))
    else
      var annotation := ResolveAnnotation(cfg.types, parameters[i].annotation);
      var mismatch := CheckType(cfg, annotation, args[i]);
      if mismatch.Some? then Fail(f, st, mismatch.value)
      else
        BindParameters(cfg, f, Allocate(st, annotation, Some(args[i]), true), parameters, args, i + 1,
                       scope[parameters[i].name := |st.bindings|])
  }

  function Apply(cfg: Config, f: Frame, st: State, callee: Value, args: seq<Value>): (o: Out<Value>)
    ensures Leads(st, o.st)
    decreases st.steps, 8
  {
    match callee
    case BuiltinValue(b) => BuiltinResult(cfg, f, st, b, args)
    case PrintValue =>
      var (host, failure) := Print(cfg, st.host, Joined(cfg, args));
      var next := st.(host := host);
      if failure.Some? then Fail(f, next, failure.value) else Out(next, Ok(NullValue))
    case FunctionValue(id) =>
      if |f.stack| >= cfg.limits.callDepth then Fail(f, st, CallDepth)
      else if id >= |st.functions| then Fail(f, st, InvalidFunctionHandle)
      else
        var function_ := st.functions[id];
        if |args| != |function_.parameters|
        then Fail(f, st, ArgumentCount(function_.name, |function_.parameters|, |args|))
        else CallFunction(cfg, f, st, function_, args)
    case _ => Fail(f, st, NotCallable(callee.KindName()))
  }

  function Enter(f: Frame, callee: FunctionDef): Frame {
    f.(stack := f.stack + [callee.name], depth := 0, result := callee.result)
  }

  function CallFunction(cfg: Config, f: Frame, st: State, callee: FunctionDef, args: seq<Value>): (o: Out<Value>)
    ensures Leads(st, o.st)
    decreases st.steps, 7
  {
    var bound := BindParameters(cfg, f, st, callee.parameters, args, 0, map[]);
    match bound.res
    case Err(error) => Out(bound.st, Err(error))
    case Ok(scope) =>
      var inside := Enter(f, callee);
      var o := Body(cfg, inside, bound.st, callee.body, callee.closure + [scope]);
      match o.res
      case Err(error) => Out(o.st, Err(error))
      case Ok(flow) => Leave(cfg, inside, o.st, callee, flow)
  }

  /** Falling off the end returns null, which no annotation admits. */
  function Leave(cfg: Config, inside: Frame, st: State, callee: FunctionDef, flow: Flow): (o: Out<Value>)
    ensures o.st == st
  {
    match flow
    case Normal =>
      var mismatch := CheckType(cfg, callee.result, NullValue);
      if mismatch.Some? then Fail(inside.(span := callee.resultSpan.Or(inside.span)), st, mismatch.value)
      else Out(st, Ok(NullValue))
    case ReturnFlow(v) => Out(st, Ok(v))
    case _ => Fail(inside, st, LoopControlExitsFunction)
  }

  // ----- statement lists -----

  /** Reserve a slot for every `let` and function after the first `|slots|`; only function names become visible. */
  function Reserve(cfg: Config, st: State, stmts: seq<Stmt>, env: Environment, slots: seq<Option<nat>>): (r: Reserved)
    ensures Leads(st, r.st) && r.st.steps == st.steps
    ensures |slots| <= |stmts| ==> |r.slots| == |stmts|
    decreases |stmts| - |slots|
  {
    var i := |slots|;
    if i >= |stmts| then Reserved(st, env, slots)
    else
      var stmt := stmts[i].Unspanned();
      var here := Some(|st.bindings|);
      if stmt.Let? then
        Reserve(cfg, Allocate(st, ResolveAnnotation(cfg.types, stmt.annotation), None, true), stmts, env, slots + [here])
      else if stmt.Function? then
        Reserve(cfg, Allocate(st, None, None, false), stmts, Bind(env, stmt.name, |st.bindings|), slots + [here])
      else Reserve(cfg, st, stmts, env, slots + [None])
  }

  function Definition(cfg: Config, stmt: Stmt, closure: Environment): FunctionDef
    requires stmt.Unspanned().Function?
  {
    var declared := stmt.Unspanned();
    FunctionDef(
      declared.name, declared.parameters, ResolveAnnotation(cfg.types, declared.result),
      (if declared.result.Some? then declared.result.value.span else None).Or(stmt.Where()),
      declared.body, closure)
  }

  /** Give every function its closure: all functions of the list and the earlier lets only. */
  function Install(cfg: Config, st: State, stmts: seq<Stmt>, slots: seq<Option<nat>>, env: Environment, i: nat): (next: State)
    ensures Leads(st, next) && next.steps == st.steps
    decreases |stmts| - i
  {
    if i >= |stmts| || i >= |slots| then st
    else
      var stmt := stmts[i].Unspanned();
      if stmt.Let? && slots[i].Some? then Install(cfg, st, stmts, slots, Bind(env, stmt.name, slots[i].value), i + 1)
      else if stmt.Function? && slots[i].Some? && slots[i].value < |st.bindings| then
        var pushed := st.(functions := st.functions + [Definition(cfg, stmts[i], env)]);
        Install(cfg, Store(pushed, slots[i].value, FunctionValue(|st.functions|)), stmts, slots, env, i + 1)
      else Install(cfg, st, stmts, slots, env, i + 1)
  }

  function Statements(cfg: Config, f: Frame, st: State, stmts: seq<Stmt>, env: Environment): (o: Out<Flow>)
    ensures Leads(st, o.st)
    decreases st.steps, 4
  {
    if env == [] then Fail(f, st, Panic)
    else
      var r := Reserve(cfg, st, stmts, env, []);
      ExecuteFrom(cfg, f, Install(cfg, r.st, stmts, r.slots, r.env, 0), stmts, r.slots, r.env, 0)
  }

  function LetResult(cfg: Config, f: Frame, st: State, slot: Option<nat>, value: Expr, v: Value): (o: Out<()>)
    ensures Leads(st, o.st) && o.st.steps == st.steps
  {
    if slot.None? || slot.value >= |st.bindings| then Fail(f, st, Panic)
    else
      var mismatch := CheckType(cfg, st.bindings[slot.value].annotation, v);
      if mismatch.Some? then Fail(f.(span := value.Where().Or(f.span)), st, mismatch.value)
      else Out(Store(st, slot.value, v), Ok(()))
  }

  function RunLet(cfg: Config, f: Frame, st: State, slot: Option<nat>, value: Expr, env: Environment): (o: Out<()>)
    ensures Leads(st, o.st)
    decreases st.steps, 1
  {
    var o := Evaluate(cfg, f, st, value, env);
    match o.res
    case Err(error) => Out(o.st, Err(error))
    case Ok(v) => LetResult(cfg, f, o.st, slot, value, v)
  }

  function ExecuteFrom(
    cfg: Config, f: Frame, st: State, stmts: seq<Stmt>, slots: seq<Option<nat>>, env: Environment, i: nat)
    : (o: Out<Flow>)
    ensures Leads(st, o.st)
    decreases st.steps, 3
  {
    if i >= |stmts| || i >= |slots| then Out(st, Ok(Normal))
    else
      var stmt := stmts[i].Unspanned();
      var here := f.(span := stmts[i].Where().Or(f.span));
      if st.steps == 0 then Fail(here, st, StepLimit)
      else
        var ticked := st.(steps := st.steps - 1);
        if stmt.Let? then
          var l := RunLet(cfg, here, ticked, slots[i], stmt.value, env);
          match l.res
          case Err(error) => Out(l.st, Err(error))
          case Ok(_) => ExecuteFrom(cfg, f, l.st, stmts, slots, Bind(env, stmt.name, slots[i].GetOr(0)), i + 1)
        else
          var o := Execute(cfg, here, ticked, stmt, env);
          if o.res.Ok? && o.res.value.Normal? then ExecuteFrom(cfg, f, o.st, stmts, slots, env, i + 1) else o
  }

  function Body(cfg: Config, f: Frame, st: State, body: Stmt, env: Environment): (o: Out<Flow>)
    ensures Leads(st, o.st)
    decreases st.steps, 5, body
  {
    match body
    case LocatedStmt(span, inner) => Body(cfg, f.(span := Some(span)), st, inner, env)
    case Block(statements) => Statements(cfg, f, st, statements, env)
    case _ => Statements(cfg, f, st, [body], env)
  }

  predicate PatternMatches(pattern: Pattern, v: Value) {
    var p := pattern.Unspanned();
    || p.Wildcard?
    || (p.NullPattern? && v.NullValue?)
    || (p.IntegerPattern? && v.IntegerValue? && p.integer == v.integer)
    || (p.StringPattern? && v.StringValue? && p.text == v.text)
    || (p.BooleanPattern? && v.BooleanValue? && p.boolean == v.boolean)
  }

  /** The first arm that matches. */
  function SelectArm(arms: seq<MatchArm>, v: Value, i: nat): (arm: Option<nat>)
    ensures arm.Some? ==> i <= arm.value < |arms| && PatternMatches(arms[arm.value].pattern, v)
    decreases |arms| - i
  {
    if i >= |arms| then None
    else if PatternMatches(arms[i].pattern, v) then Some(i)
    else SelectArm(arms, v, i + 1)
  }

  /** The expression a statement evaluates first. */
  function HeadOf(s: Stmt): Option<Expr> {
    match s
    case ExprStmt(e) => Some(e)
    case Return(returned) => returned
    case If(condition, _, _) => Some(condition)
    case While(condition, _) => Some(condition)
    case For(_, iterable, _) => Some(iterable)
    case Match(subject, _) => Some(subject)
    case Parallel(_, iterable, _) => Some(iterable)
    case _ => None
  }

  /** What a statement does once its head has a value. */
  datatype Plan =
    | Done(flow: Flow)
    | Refuse(message: Message, blamed: Option<Span>)
    | Run(body: Stmt)
    | Repeat(body: Stmt)
    | Iterate(variable: string, values: seq<Value>, body: Stmt)
    | Spread(variable: string, values: seq<Value>, body: Stmt)

  function PlanReturn(cfg: Config, f: Frame, returned: Option<Expr>, v: Value): Plan {
    var mismatch := CheckType(cfg, f.result, v);
    if mismatch.Some? then Refuse(mismatch.value, (if returned.Some? then returned.value.Where() else None).Or(f.span))
    else Done(ReturnFlow(v))
  }

  /** `v` is null for a statement without a head; only a bare `return` looks at it. */
  function PlanOf(cfg: Config, f: Frame, s: Stmt, v: Value): Plan {
    match s
    case ExprStmt(_) => Done(Normal)
    case Return(returned) => PlanReturn(cfg, f, returned, v)
    case If(condition, thenBranch, elseBranch) =>
      if !v.BooleanValue? then Refuse(ExpectedBoolean(v.KindName()), condition.Where().Or(f.span))
      else if v.boolean then Run(thenBranch)
      else if elseBranch.Some? then Run(elseBranch.value)
      else Done(Normal)
    case While(condition, body) =>
      if !v.BooleanValue? then Refuse(ExpectedBoolean(v.KindName()), condition.Where().Or(f.span))
      else if v.boolean then Repeat(body)
      else Done(Normal)
    case For(variable, _, body) =>
      if v.ArrayValue? then Iterate(variable, v.elements, body) else Refuse(NotAnArray("for"), f.span)
    case Match(_, arms) =>
      var arm := SelectArm(arms, v, 0);
      if arm.Some? then Run(arms[arm.value].body) else Done(Normal)
    case Parallel(variable, _, body) =>
      if v.ArrayValue? then Spread(variable, v.elements, body) else Refuse(NotAnArray("parallel"), f.span)
    case Break => Done(BreakFlow)
    case Continue => Done(ContinueFlow)
    case TypeDecl(_, _) => Done(Normal)
    case Function(_, _, _, _) => Done(Normal)
    case _ => Refuse(Panic, f.span)
  }

  /** Plans that run no body. */
  function Settle(f: Frame, st: State, plan: Plan): (o: Out<Flow>)
    ensures o.st == st
  {
    match plan
    case Done(flow) => Out(st, Ok(flow))
    case Refuse(message, blamed) => Fail(f.(span := blamed), st, message)
    case _ => Fail(f, st, Panic)
  }

  function Execute(cfg: Config, f: Frame, st: State, s: Stmt, env: Environment): (o: Out<Flow>)
    ensures Leads(st, o.st)
    decreases st.steps, 8, s
  {
    if s.LocatedStmt? then Execute(cfg, f.(span := Some(s.span)), st, s.inner, env)
    else if s.Block? then Body(cfg, f, st, s, env + [map[]])
    else
      var head := HeadOf(s);
      if head.None? then Settle(f, st, PlanOf(cfg, f, s, NullValue))
      else
        var o := Evaluate(cfg, f, st, head.value, env);
        match o.res
        case Err(error) => Out(o.st, Err(error))
        case Ok(v) => Resume(cfg, f, o.st, s, PlanOf(cfg, f, s, v), env)
  }

  function Resume(cfg: Config, f: Frame, st: State, s: Stmt, plan: Plan, env: Environment): (o: Out<Flow>)
    ensures Leads(st, o.st)
    decreases st.steps, 10
  {
    match plan
    case Run(body) => Body(cfg, f, st, body, env + [map[]])
    case Repeat(body) =>
      var b := Body(cfg, f, st, body, env + [map[]]);
      if b.res.Err? || b.res.value.ReturnFlow? then b
      else if b.res.value.BreakFlow? then Out(b.st, Ok(Normal))
      else Execute(cfg, f, b.st, s, env)
    case Iterate(variable, values, body) => EachFrom(cfg, f, st, variable, values, 0, body, env)
    case Spread(variable, values, body) => Batches(cfg, f, st, Snap(st), variable, values, 0, Width(cfg, f), body, env)
    case _ => Settle(f, st, plan)
  }

  function EachFrom(cfg: Config, f: Frame, st: State, variable: string, values: seq<Value>, i: nat, body: Stmt, env: Environment): (o: Out<Flow>)
    ensures Leads(st, o.st)
    decreases st.steps, 7
  {
    if i >= |values| then Out(st, Ok(Normal))
    else if st.steps == 0 then Fail(f, st, StepLimit)
    else
      var entered := Allocate(st.(steps := st.steps - 1), None, Some(values[i]), true);
      var b := Body(cfg, f, entered, body, env + [map[variable := |st.bindings|]]);
      if b.res.Err? || b.res.value.ReturnFlow? then b
      else if b.res.value.BreakFlow? then Out(b.st, Ok(Normal))
      else EachFrom(cfg, f, b.st, variable, values, i + 1, body, env)
  }

  // ----- parallel iterations -----

  function Snap(st: State): Snapshot {
    Snapshot(st.bindings, st.functions)
  }

  /** A nested parallel statement runs one iteration at a time. */
  function Width(cfg: Config, f: Frame): (width: nat)
    ensures width >= 1
  {
    if f.inWorker || cfg.limits.workers == 0 then 1 else cfg.limits.workers
  }

  /** Tick and fork once per job before any of them starts. */
  function ForkFrom(cfg: Config, f: Frame, st: State, count: nat, hosts: seq<HostState>): (o: Out<seq<HostState>>)
    ensures Leads(st, o.st)
    ensures o.res.Ok? ==> o.st.steps + (count - |hosts|) == st.steps || |hosts| >= count
    ensures o.res.Ok? && |hosts| <= count ==> |o.res.value| == count
    decreases count - |hosts|
  {
    if |hosts| >= count then Out(st, Ok(hosts))
    else if st.steps == 0 then Fail(f, st, StepLimit)
    else
      var (asked, reply) := Ask(cfg, st.host, Fork);
      var next := st.(steps := st.steps - 1, host := asked);
      if reply.Refused? then Fail(f, next, Host(reply.message))
      else ForkFrom(cfg, f, next, count, hosts + [HostState(asked.history + [Forked], None)])
  }

  /** Fork every job of a batch, run the workers, then replay what they printed. */
  function Batch(
    cfg: Config, f: Frame, st: State, snapshot: Snapshot, variable: string, values: seq<Value>, first: nat,
    body: Stmt, env: Environment)
    : (o: Out<Flow>)
    ensures Leads(st, o.st)
    ensures o.res.Ok? && values != [] ==> o.st.steps < st.steps
    decreases st.steps, 8
  {
    var forked := ForkFrom(cfg, f, st, |values|, []);
    match forked.res
    case Err(error) => Out(forked.st, Err(error))
    case Ok(hosts) =>
      var w := WorkersFrom(cfg, f, forked.st, snapshot, variable, values, first, hosts, [], body, env);
      var (host, error) := Replay(cfg, f, w.st.host, w.outcomes, 0, None);
      Out(w.st.(host := host), if error.Some? then Err(error.value) else Ok(Normal))
  }

  /** Batches of at most `width` jobs over the snapshot taken before the first of them. */
  function Batches(
    cfg: Config, f: Frame, st: State, snapshot: Snapshot, variable: string, values: seq<Value>, start: nat, width: nat,
    body: Stmt, env: Environment)
    : (o: Out<Flow>)
    requires width >= 1
    ensures Leads(st, o.st)
    decreases st.steps, 9
  {
    if start >= |values| then Out(st, Ok(Normal))
    else
      var end := if start + width <= |values| then start + width else |values|;
      var b := Batch(cfg, f, st, snapshot, variable, values[start..end], start, body, env);
      if b.res.Err? then b else Batches(cfg, f, b.st, snapshot, variable, values, end, width, body, env)
  }

  /** The canonical schedule: the workers of a batch draw on the shared budget in input order. */
  function WorkersFrom(
    cfg: Config, f: Frame, st: State, snapshot: Snapshot, variable: string, values: seq<Value>, first: nat,
    hosts: seq<HostState>, done: seq<Outcome>, body: Stmt, env: Environment)
    : (w: Finished)
    ensures w.st.steps <= st.steps
    ensures w.st == st.(steps := w.st.steps)
    decreases st.steps, 7, |values| - |done|
  {
    if |done| >= |values| || |done| >= |hosts| then Finished(st, done)
    else
      var k := |done|;
      var o := Worker(cfg, f, snapshot, st.steps, hosts[k], values[k], variable, body, env);
      var outcome := WorkerOutcome(f, o, first + k);
      WorkersFrom(cfg, f, st.(steps := o.st.steps), snapshot, variable, values, first, hosts, done + [outcome], body, env)
  }

  function WorkerFrame(f: Frame, snapshot: Snapshot): Frame {
    Frame(0, f.stack, None, f.span, |snapshot.bindings|, true)
  }

  function WorkerStart(snapshot: Snapshot, steps: nat, host: HostState, value: Value): State {
    State(snapshot.bindings + [Binding(None, Some(value), true)], snapshot.functions, steps,
          host.(buffer := Some(Buffer([], 0))))
  }

  /** One isolated iteration over a copy of the snapshot. */
  function Worker(
    cfg: Config, f: Frame, snapshot: Snapshot, steps: nat, host: HostState, value: Value, variable: string,
    body: Stmt, env: Environment)
    : (o: Out<Flow>)
    ensures o.st.steps <= steps
    decreases steps, 6
  {
    Body(cfg, WorkerFrame(f, snapshot), WorkerStart(snapshot, steps, host, value), body,
         env + [map[variable := |snapshot.bindings|]])
  }

  function Label(number: nat, error: RuntimeError): RuntimeError {
    error.(message := Iteration(number, error.message))
  }

  function BufferedLines(h: HostState): seq<string> {
    if h.buffer.Some? then h.buffer.value.lines else []
  }

  function WorkerOutcome(f: Frame, o: Out<Flow>, index: nat): Outcome {
    var error := match o.res
      case Err(error) => Some(error)
      case Ok(BreakFlow) => Some(Error(f, BreakExitsIteration))
      case Ok(ReturnFlow(_)) => Some(Error(f, ReturnExitsIteration))
      case Ok(_) => None;
    Outcome(BufferedLines(o.st.host), if error.Some? then Some(Label(index + 1, error.value)) else None)
  }

  /** Stop at the first line the host refuses. */
  function PrintFrom(cfg: Config, f: Frame, h: HostState, lines: seq<string>, i: nat): (r: (HostState, Option<RuntimeError>))
    ensures r.0.buffer.Some? <==> h.buffer.Some?
    ensures h.buffer.Some? && r.1.Some? ==> r.1.value.message == OutputLimit
    decreases |lines| - i
  {
    if i >= |lines| then (h, None)
    else
      var (next, failure) := Print(cfg, h, lines[i]);
      if failure.Some? then (next, Some(Error(f, failure.value))) else PrintFrom(cfg, f, next, lines, i + 1)
  }

  /** Replay buffered output in input order; the first error in that order wins, later output still appears. */
  function Replay(cfg: Config, f: Frame, h: HostState, outcomes: seq<Outcome>, i: nat, first: Option<RuntimeError>)
    : (r: (HostState, Option<RuntimeError>))
    ensures r.0.buffer.Some? <==> h.buffer.Some?
    decreases |outcomes| - i
  {
    if i >= |outcomes| then (h, first)
    else
      var (next, failure) := PrintFrom(cfg, f, h, outcomes[i].lines, 0);
      Replay(cfg, f, next, outcomes, i + 1, first.Or(failure).Or(outcomes[i].error))
  }
}
