/** What calls do: functions, `print`, built-ins and network expressions. */
module Calling {
  import opened Wrappers
  import opened Ast
  import opened Types
  import opened Values
  import opened Operations
  import opened Evaluation
  import opened Equations
  import opened Laws
  import opened Assigning

  // ----- parameters -----

  /** The last parameter of a name. */
  predicate LastParameter(parameters: seq<Parameter>, name: string, i: nat) {
    i < |parameters| && parameters[i].name == name && forall j | i < j < |parameters| :: parameters[j].name != name
  }

  predicate SlotOf(parameters: seq<Parameter>, name: string, slot: nat, base: nat, i: nat) {
    LastParameter(parameters, name, i) && slot == base + i
  }

  /** Every parameter has a new slot with its contract and its argument, under its name. */
  ghost predicate Entered(
    cfg: Config, before: State, parameters: seq<Parameter>, args: seq<Value>, n: nat, after: State, scope: map<string, nat>)
    requires n <= |parameters| == |args|
  {
    && after == before.(bindings := after.bindings) && |after.bindings| == |before.bindings| + n
    && (forall i | 0 <= i < |before.bindings| :: after.bindings[i] == before.bindings[i])
    && (forall i | 0 <= i < n ::
          after.bindings[|before.bindings| + i] ==
          Binding(ResolveAnnotation(cfg.types, parameters[i].annotation), Some(args[i]), true))
    && (forall i | 0 <= i < n :: parameters[i].name in scope)
    && (forall name | name in scope :: exists i: nat :: SlotOf(parameters[..n], name, scope[name], |before.bindings|, i))
  }

  predicate Accepted(cfg: Config, parameters: seq<Parameter>, args: seq<Value>, n: nat)
    requires n <= |parameters| == |args|
  {
    forall i | 0 <= i < n :: Admits(cfg, ResolveAnnotation(cfg.types, parameters[i].annotation), args[i])
  }

  lemma EnterOne(
    cfg: Config, before: State, parameters: seq<Parameter>, args: seq<Value>, n: nat, after: State, scope: map<string, nat>)
    requires n < |parameters| == |args| && Entered(cfg, before, parameters, args, n, after, scope)
    ensures var annotation := ResolveAnnotation(cfg.types, parameters[n].annotation);
            Entered(cfg, before, parameters, args, n + 1, Allocate(after, annotation, Some(args[n]), true),
                    scope[parameters[n].name := |after.bindings|])
  {
    var more, longer := scope[parameters[n].name := |after.bindings|], parameters[..n + 1];
    forall name | name in more
      ensures exists i: nat :: SlotOf(longer, name, more[name], |before.bindings|, i)
    {
      if name == parameters[n].name {
        assert SlotOf(longer, name, more[name], |before.bindings|, n);
      } else {
        var i: nat :| SlotOf(parameters[..n], name, scope[name], |before.bindings|, i);
        assert SlotOf(longer, name, more[name], |before.bindings|, i);
      }
    }
  }

  lemma {:induction false} ParametersBind(
    cfg: Config, f: Frame, before: State, parameters: seq<Parameter>, args: seq<Value>, n: nat, st: State, scope: map<string, nat>)
    returns (after: State, bound: map<string, nat>)
    requires n <= |parameters| == |args| && Accepted(cfg, parameters, args, |parameters|)
    requires Entered(cfg, before, parameters, args, n, st, scope)
    ensures BindParameters(cfg, f, st, parameters, args, n, scope) == Out(after, Ok(bound))
    ensures Entered(cfg, before, parameters, args, |parameters|, after, bound)
    decreases |parameters| - n
  {
    hide Entered, ResolveAnnotation, CheckType, Admits;
    after, bound := st, scope;
    if n < |parameters| {
      var annotation := ResolveAnnotation(cfg.types, parameters[n].annotation);
      AdmitsIff(cfg, annotation, args[n]);
      EnterOne(cfg, before, parameters, args, n, st, scope);
      after, bound := ParametersBind(cfg, f, before, parameters, args, n + 1, Allocate(st, annotation, Some(args[n]), true),
                                     scope[parameters[n].name := |st.bindings|]);
    }
  }

  /** The first argument its contract refuses ends the call. */
  lemma {:induction false} ParametersRefuse(
    cfg: Config, f: Frame, st: State, parameters: seq<Parameter>, args: seq<Value>, i: nat, scope: map<string, nat>, k: nat)
    requires |parameters| == |args| && i <= k < |parameters| && Accepted(cfg, parameters, args, k)
    requires !Admits(cfg, ResolveAnnotation(cfg.types, parameters[k].annotation), args[k])
    ensures BindParameters(cfg, f, st, parameters, args, i, scope).res.Err?
    decreases |parameters| - i
  {
    hide ResolveAnnotation, CheckType, Admits;
    var annotation := ResolveAnnotation(cfg.types, parameters[i].annotation);
    AdmitsIff(cfg, annotation, args[i]);
    if i < k {
      ParametersRefuse(cfg, f, Allocate(st, annotation, Some(args[i]), true), parameters, args, i + 1,
                       scope[parameters[i].name := |st.bindings|], k);
    }
  }

  /** Inside the call a parameter whose name no later parameter repeats reads its argument. */
  lemma ParameterReads(
    cfg: Config, f: Frame, before: State, parameters: seq<Parameter>, args: seq<Value>, after: State, scope: map<string, nat>,
    closure: Environment, i: nat)
    requires |parameters| == |args| && Entered(cfg, before, parameters, args, |parameters|, after, scope) && Ready(cfg, f, after)
    requires i < |parameters| && LastParameter(parameters, parameters[i].name, i)
    ensures Evaluate(cfg, f, after, Identifier(parameters[i].name), closure + [scope]) == Out(Ticked(after), Ok(args[i]))
  {
    hide Evaluate;
    var env, name := closure + [scope], parameters[i].name;
    assert parameters[..|parameters|] == parameters;
    var j: nat :| SlotOf(parameters, name, scope[name], |before.bindings|, j);
    assert i == j;
    assert Denotes(env, name, |closure|);
    NameReads(cfg, f, after, name, env, |closure|);
  }

  // ----- functions -----

  /** What a call makes of the way its body ended: `return` gives its value, falling off the end null. */
  function Returned(cfg: Config, inside: Frame, callee: FunctionDef, b: Out<Flow>): Out<Value> {
    match b.res
    case Err(error) => Out(b.st, Err(error))
    case Ok(ReturnFlow(v)) => Out(b.st, Ok(v))
    case Ok(Normal) =>
      if callee.result.None? then Out(b.st, Ok(NullValue))
      else if InRange(cfg.types, callee.result.value)
      then Fault(inside.(span := callee.resultSpan.Or(inside.span)), b.st,
                   ExpectedType(TypeName(cfg.types, callee.result.value), "null"))
      else Fault(inside.(span := callee.resultSpan.Or(inside.span)), b.st, Panic)
    case Ok(_) => Fault(inside, b.st, LoopControlExitsFunction)
  }

  lemma LeaveMeans(cfg: Config, inside: Frame, callee: FunctionDef, b: Out<Flow>)
    requires b.res.Ok?
    ensures Leave(cfg, inside, b.st, callee, b.res.value) == Returned(cfg, inside, callee, b)
  {
  }

  /** The frame a body runs in: one call deeper, no expression deep, under its own contract. */
  function Inside(f: Frame, callee: FunctionDef): Frame {
    Frame(0, f.stack + [callee.name], callee.result, f.span, f.captured, f.inWorker)
  }

  /** A call of a function with as many arguments as parameters, all of them admitted. */
  lemma CallEnters(
    cfg: Config, f: Frame, states: seq<State>, callee: Expr, arguments: seq<Expr>, id: nat, args: seq<Value>, env: Environment, st: State)
    returns (entered: State, scope: map<string, nat>)
    requires Ready(cfg, f, st) && states != [] && states[0] == Ticked(st) && |args| == |arguments|
    requires Operated(cfg, Deeper(f), states, [callee] + arguments, [FunctionValue(id)] + args, env)
    requires var after := states[|args| + 1];
             && |f.stack| < cfg.limits.callDepth && id < |after.functions|
             && |after.functions[id].parameters| == |args| && Accepted(cfg, after.functions[id].parameters, args, |args|)
    ensures var after := states[|args| + 1];
            var fn := after.functions[id];
            var inside := Inside(Deeper(f), fn);
            && Entered(cfg, after, fn.parameters, args, |args|, entered, scope)
            && Evaluate(cfg, f, st, Call(callee, arguments), env) ==
               Returned(cfg, inside, fn, Body(cfg, inside, entered, fn.body, fn.closure + [scope]))
  {
    var after := states[|args| + 1];
    var fn := after.functions[id];
    var g := Deeper(f);
    assert Entered(cfg, after, fn.parameters, args, 0, after, map[]);
    entered, scope := ParametersBind(cfg, g, after, fn.parameters, args, 0, after, map[]);
    CallApplies(cfg, f, states, callee, arguments, FunctionValue(id), args, env, st);
    var b := Body(cfg, Inside(g, fn), entered, fn.body, fn.closure + [scope]);
    assert Enter(g, fn) == Inside(g, fn);
    hide Evaluate, Body, Leave, Entered, BindParameters, Accepted, Operated, Returned;
    if b.res.Ok? {
      LeaveMeans(cfg, Inside(g, fn), fn, b);
    }
    FunctionApplies(cfg, g, after, id, args);
  }

  lemma CallApplies(
    cfg: Config, f: Frame, states: seq<State>, callee: Expr, arguments: seq<Expr>, c: Value, args: seq<Value>, env: Environment, st: State)
    requires Ready(cfg, f, st) && states != [] && states[0] == Ticked(st) && |args| == |arguments|
    requires Operated(cfg, Deeper(f), states, [callee] + arguments, [c] + args, env)
    ensures Evaluate(cfg, f, st, Call(callee, arguments), env) == Apply(cfg, Deeper(f), states[|args| + 1], c, args)
  {
    hide Evaluate, Apply, Operated;
    StrictRuns(cfg, f, states, Call(callee, arguments), [c] + args, env, st);
    assert ([c] + args)[1..] == args;
  }

  lemma FunctionApplies(cfg: Config, g: Frame, st: State, id: nat, args: seq<Value>)
    requires |g.stack| < cfg.limits.callDepth && id < |st.functions| && |st.functions[id].parameters| == |args|
    ensures var fn := st.functions[id];
            var bound := BindParameters(cfg, g, st, fn.parameters, args, 0, map[]);
            Apply(cfg, g, st, FunctionValue(id), args) ==
              if bound.res.Err? then Out(bound.st, Err(bound.res.error))
              else
                var b := Body(cfg, Enter(g, fn), bound.st, fn.body, fn.closure + [bound.res.value]);
                if b.res.Err? then Out(b.st, Err(b.res.error)) else Leave(cfg, Enter(g, fn), b.st, fn, b.res.value)
  {
    hide Body, Leave, BindParameters;
  }

  /** Everything that refuses a call before the body runs: depth, a handle of no function, the number of arguments, a contract. */
  lemma CallRefuses(
    cfg: Config, f: Frame, states: seq<State>, callee: Expr, arguments: seq<Expr>, c: Value, args: seq<Value>, env: Environment, st: State)
    requires Ready(cfg, f, st) && states != [] && states[0] == Ticked(st) && |args| == |arguments|
    requires Operated(cfg, Deeper(f), states, [callee] + arguments, [c] + args, env)
    ensures var after := states[|args| + 1];
            var o := Evaluate(cfg, f, st, Call(callee, arguments), env);
            && (c.FunctionValue? && |f.stack| >= cfg.limits.callDepth ==> o == Fault(f, after, CallDepth))
            && (c.FunctionValue? && |f.stack| < cfg.limits.callDepth && c.id >= |after.functions| ==>
                  o == Fault(f, after, InvalidFunctionHandle))
            && (c.FunctionValue? && |f.stack| < cfg.limits.callDepth && c.id < |after.functions| ==>
                  var fn := after.functions[c.id];
                  if |fn.parameters| != |args|
                  then o == Fault(f, after, ArgumentCount(fn.name, |fn.parameters|, |args|))
                  else !Accepted(cfg, fn.parameters, args, |args|) ==> o.res.Err?)
            && (!c.FunctionValue? && !c.PrintValue? && !c.BuiltinValue? ==> o == Fault(f, after, NotCallable(c.KindName())))
  {
    var after := states[|args| + 1];
    CallApplies(cfg, f, states, callee, arguments, c, args, env, st);
    hide Evaluate, Operated, BindParameters, CallFunction, Admits, BuiltinResult, Print;
    if c.FunctionValue? && |f.stack| < cfg.limits.callDepth && c.id < |after.functions| {
      var fn := after.functions[c.id];
      if |fn.parameters| == |args| && !Accepted(cfg, fn.parameters, args, |args|) {
        var k := FirstRefused(cfg, fn.parameters, args, |args|);
        ParametersRefuse(cfg, Deeper(f), after, fn.parameters, args, 0, map[], k);
        FunctionApplies(cfg, Deeper(f), after, c.id, args);
      }
    }
  }

  lemma {:induction false} FirstRefused(cfg: Config, parameters: seq<Parameter>, args: seq<Value>, n: nat) returns (k: nat)
    requires n <= |parameters| == |args| && !Accepted(cfg, parameters, args, n)
    ensures k < n && Accepted(cfg, parameters, args, k)
    ensures !Admits(cfg, ResolveAnnotation(cfg.types, parameters[k].annotation), args[k])
  {
    hide Admits, ResolveAnnotation;
    k := n - 1;
    if !Accepted(cfg, parameters, args, n - 1) {
      k := FirstRefused(cfg, parameters, args, n - 1);
    }
  }

  // ----- the host -----

  /** The host is asked exactly once; a refusal is reported where the node is, an answer becomes this value. */
  ghost predicate Asks(cfg: Config, f: Frame, st: State, call: HostCall, kept: Kept, o: Out<Value>) {
    && o.st == st.(host := st.host.(history := st.host.history + [call]))
    && match cfg.lib.reply(st.host.history + [call])
       case Refused(message) => o.res == Err(RuntimeError(Host(message), f.stack, f.span))
       case Answer(value, text) =>
         o.res == Ok(match kept case TheValue => value case TheText => StringValue(text) case Nothing => NullValue)
  }

  /** What of an answer the program sees. */
  datatype Kept = TheValue | TheText | Nothing

  function KeptOf(call: HostCall): Kept {
    match call
    case CloseHandle(_) => Nothing
    case SetHandleTimeout(_, _) => Nothing
    case LocalAddressOf(_) => TheText
    case _ => TheValue
  }

  lemma HostAsks(cfg: Config, f: Frame, st: State, call: HostCall)
    ensures Asks(cfg, f, st, call, KeptOf(call), HostResult(cfg, f, st, call))
  {
  }

  // ----- print -----

  /** One space between any two displays, and nothing at either end. */
  lemma {:induction false} JoinedWithSpaces(cfg: Config, a: seq<Value>, b: seq<Value>)
    requires a != [] && b != []
    ensures Joined(cfg, a + b) == Joined(cfg, a) + " " + Joined(cfg, b)
    ensures Joined(cfg, []) == "" && (|a| == 1 ==> Joined(cfg, a) == cfg.lib.display(a[0]))
  {
    assert (a + b)[0] == a[0] && (a + b)[1..] == a[1..] + b;
    if |a| == 1 {
      assert a[1..] + b == b;
    } else {
      JoinedWithSpaces(cfg, a[1..], b);
      var first, space, rest, last := cfg.lib.display(a[0]), " ", Joined(cfg, a[1..]), Joined(cfg, b);
      assert first + space + (rest + space + last) == (first + space + rest) + space + last;
    }
  }

  /** The line goes to the host at once, or into the buffer of a worker while it has room for the line and its end. */
  ghost predicate Prints(cfg: Config, f: Frame, st: State, text: string, o: Out<Value>) {
    match st.host.buffer
    case None => Asks(cfg, f, st, PrintLine(text), Nothing, o)
    case Some(Buffer(lines, bytes)) =>
      if bytes + Utf8Length(text) + 1 <= cfg.limits.outputBytes
      then o == Out(st.(host := st.host.(buffer := Some(Buffer(lines + [text], bytes + Utf8Length(text) + 1)))), Ok(NullValue))
      else o == Fault(f, st, OutputLimit)
  }

  lemma CallPrints(
    cfg: Config, f: Frame, states: seq<State>, callee: Expr, arguments: seq<Expr>, args: seq<Value>, env: Environment, st: State)
    requires Ready(cfg, f, st) && states != [] && states[0] == Ticked(st) && |args| == |arguments|
    requires Operated(cfg, Deeper(f), states, [callee] + arguments, [PrintValue] + args, env)
    ensures Prints(cfg, f, states[|args| + 1], Joined(cfg, args), Evaluate(cfg, f, st, Call(callee, arguments), env))
  {
    CallApplies(cfg, f, states, callee, arguments, PrintValue, args, env, st);
    hide Evaluate, Operated, Joined, Utf8Length;
  }

  // ----- built-ins -----

  /** What each built-in does with arguments of the right number. */
  ghost predicate Performs(cfg: Config, f: Frame, st: State, b: Builtin, args: seq<Value>, o: Out<Value>)
    requires |args| == if b.SetTimeout? then 2 else 1
  {
    var v := args[0];
    match b
    case Close => Asks(cfg, f, st, CloseHandle(v), Nothing, o)
    case Accept => Asks(cfg, f, st, AcceptFrom(v), TheValue, o)
    case LocalAddress => Asks(cfg, f, st, LocalAddressOf(v), TheText, o)
    case SetTimeout =>
      if args[1].DurationValue? && 1 <= args[1].duration <= 24 * 60 * 60 * 1000
      then Asks(cfg, f, st, SetHandleTimeout(v, args[1].duration), Nothing, o)
      else o == Fault(f, st, InvalidOperand(args[1].KindName()))
    case BytesOf =>
      if v.ArrayValue? && forall i | 0 <= i < |v.elements| :: v.elements[i].IntegerValue? && 0 <= v.elements[i].integer < 256
      then
        && o.st == st && o.res.Ok? && o.res.value.BytesValue? && |o.res.value.bytes| == |v.elements|
        && forall i | 0 <= i < |v.elements| :: v.elements[i] == IntegerValue(o.res.value.bytes[i])
      else o == Fault(f, st, InvalidOperand(v.KindName()))
    case EncodeUtf8 =>
      o == if v.StringValue? then Out(st, Ok(BytesValue(cfg.lib.encode(v.text)))) else Fault(f, st, InvalidOperand(v.KindName()))
    case DecodeUtf8 =>
      if !v.BytesValue? then o == Fault(f, st, InvalidOperand(v.KindName()))
      else if cfg.lib.decode(v.bytes).Ok? then o == Out(st, Ok(StringValue(cfg.lib.decode(v.bytes).value)))
      else o == Fault(f, st, InvalidUtf8(cfg.lib.decode(v.bytes).error))
    case ByteLen =>
      if v.BytesValue? && |v.bytes| <= 0x7fff_ffff_ffff_ffff
      then o.st == st && o.res.Ok? && o.res.value.IntegerValue? && o.res.value.integer == |v.bytes|
      else o == Fault(f, st, InvalidOperand(v.KindName()))
  }

  lemma BytesOnly(es: seq<Value>)
    ensures (exists v | v in es :: !IsByte(v)) <==> !(forall i | 0 <= i < |es| :: es[i].IntegerValue? && 0 <= es[i].integer < 256)
  {
    if exists v | v in es :: !IsByte(v) {
      var v :| v in es && !IsByte(v);
      var i :| 0 <= i < |es| && es[i] == v;
    } else {
      assert forall i | 0 <= i < |es| :: es[i] in es && IsByte(es[i]);
    }
  }

  lemma BuiltinPerforms(cfg: Config, f: Frame, st: State, b: Builtin, args: seq<Value>)
    requires |args| == if b.SetTimeout? then 2 else 1
    ensures Performs(cfg, f, st, b, args, BuiltinResult(cfg, f, st, b, args))
  {
    hide HostResult, Asks;
    forall call: HostCall
      ensures Asks(cfg, f, st, call, KeptOf(call), HostResult(cfg, f, st, call))
    {
      HostAsks(cfg, f, st, call);
    }
    if b.BytesOf? && args[0].ArrayValue? {
      var es := args[0].elements;
      BytesOnly(es);
    }
  }

  lemma CallPerforms(
    cfg: Config, f: Frame, states: seq<State>, callee: Expr, arguments: seq<Expr>, b: Builtin, args: seq<Value>, env: Environment, st: State)
    requires Ready(cfg, f, st) && states != [] && states[0] == Ticked(st) && |args| == |arguments|
    requires Operated(cfg, Deeper(f), states, [callee] + arguments, [BuiltinValue(b)] + args, env)
    ensures var o, arity := Evaluate(cfg, f, st, Call(callee, arguments), env), if b.SetTimeout? then 2 else 1;
            if |args| == arity then Performs(cfg, Deeper(f), states[|args| + 1], b, args, o)
            else o == Fault(f, states[|args| + 1], ArgumentCount(BuiltinName(b), arity, |args|))
  {
    CallApplies(cfg, f, states, callee, arguments, BuiltinValue(b), args, env, st);
    hide Evaluate, Operated, Performs;
    if |args| == if b.SetTimeout? then 2 else 1 {
      hide BuiltinResult;
      BuiltinPerforms(cfg, Deeper(f), states[|args| + 1], b, args);
    }
  }

  // ----- network expressions -----

  /** What a network expression asks of the host, by its operator and the values of its operands. */
  ghost predicate Communicates(cfg: Config, f: Frame, st: State, op: EffectOp, values: seq<Value>, o: Out<Value>) {
    match op
    case Connect(transport, protocol) =>
      if |values| != 1 then o == Fault(f, st, MalformedEffect)
      else
        (match values[0]
         case StringValue(address) => Asks(cfg, f, st, ConnectTo(transport, address, protocol), TheValue, o)
         case ObjectValue(fields) =>
           var key := if transport == Tcp then "listen" else "bind";
           if protocol.Some? then o == Fault(f, st, ConfigurationProtocol)
           else if fields.Keys != {key} then o == Fault(f, st, ConfigurationField(key))
           else if !fields[key].StringValue? then o == Fault(f, st, ExpectedString(key))
           else if transport == Tcp then Asks(cfg, f, st, ListenTcp(fields[key].text), TheValue, o)
           else Asks(cfg, f, st, BindUdp(fields[key].text), TheValue, o)
         case _ => o == Fault(f, st, ExpectedString("address")))
    case Send =>
      if |values| == 2 then Asks(cfg, f, st, SendTo(values[0], values[1], None), TheValue, o)
      else if |values| == 3 && values[2].StringValue?
      then Asks(cfg, f, st, SendTo(values[0], values[1], Some(values[2].text)), TheValue, o)
      else o == Fault(f, st, MalformedEffect)
    case Receive =>
      if |values| == 1 then Asks(cfg, f, st, ReceiveFrom(values[0]), TheValue, o) else o == Fault(f, st, MalformedEffect)
    case Request(verb) =>
      if 1 <= |values| <= 2 && values[0].StringValue?
      then Asks(cfg, f, st, SendRequest(verb, values[0].text, if |values| == 2 then values[1] else ObjectValue(map[])), TheValue, o)
      else o == Fault(f, st, MalformedEffect)
  }

  lemma OneKey(fields: map<string, Value>, key: string)
    ensures fields.Keys == {key} <==> |fields| == 1 && key in fields
  {
    assert |fields| == |fields.Keys|;
    if |fields| == 1 && key in fields {
      assert |fields.Keys - {key}| == 0;
    }
  }

  lemma EffectCommunicates(cfg: Config, f: Frame, st: State, op: EffectOp, values: seq<Value>)
    ensures Communicates(cfg, f, st, op, values, EffectResult(cfg, f, st, op, values))
  {
    hide HostResult, Asks;
    forall call: HostCall
      ensures Asks(cfg, f, st, call, KeptOf(call), HostResult(cfg, f, st, call))
    {
      HostAsks(cfg, f, st, call);
    }
    if op.Connect? && |values| == 1 && values[0].ObjectValue? {
      OneKey(values[0].fields, if op.transport.Udp? then "bind" else "listen");
    }
  }

  /** The url of a request and the destination of a send are checked as soon as they have values. */
  predicate OperandsFit(op: EffectOp, values: seq<Value>) {
    && (op.Request? && |values| > 0 ==> values[0].StringValue?)
    && (op.Send? && |values| > 2 ==> values[2].StringValue?)
  }

  lemma EffectRuns(cfg: Config, f: Frame, states: seq<State>, op: EffectOp, operands: seq<Expr>, values: seq<Value>, env: Environment, st: State)
    requires Ready(cfg, f, st) && states != [] && states[0] == Ticked(st) && |values| == |operands|
    requires Operated(cfg, Deeper(f), states, operands, values, env) && OperandsFit(op, values)
    ensures Communicates(cfg, Deeper(f), states[|values|], op, values, Evaluate(cfg, f, st, Effect(op, operands), env))
  {
    var e := Effect(op, operands);
    assert AllPass(cfg, OperandsOf(op), values);
    assert Operands(e) == operands && CheckOf(cfg, e) == OperandsOf(op) && Refusal(cfg, e).None? && IsStrict(e);
    EffectCommunicates(cfg, Deeper(f), states[|values|], op, values);
    hide Evaluate, EvaluateFrom, Operated, Refusal, CheckOf, Strict, Inner, AllPass, EffectResult, Communicates;
    OperandsEnd(cfg, Deeper(f), states, operands, values, OperandsOf(op), env);
    EvaluateSteps(cfg, f, st, e, env);
    StrictInner(cfg, Deeper(f), Ticked(st), e, env);
    StrictSteps(cfg, Deeper(f), Ticked(st), e, env);
  }
}
