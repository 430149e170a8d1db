/**
 * The interpreter as the code writes it: one object whose fields are pushed,
 * overwritten and restored by looping methods (src/interpreter). Every method is
 * proved to compute what Evaluation.dfy specifies, to leave depth, call stack,
 * return type and current span as it found them on success and on failure, and
 * to stay within the depth limits throughout.
 */
module Interpretation {
  import opened Wrappers
  import opened Source
  import opened Ast
  import opened Types
  import opened Values
  import opened Operations
  import opened Evaluation
  import opened Equations

  class Interpreter {
    const cfg: Config
    const capturedBindings: nat
    const inParallelWorker: bool
    var bindings: seq<Binding>
    var functions: seq<FunctionDef>
    var remainingSteps: nat
    var expressionDepth: nat
    var callStack: seq<string>
    var returnType: Option<ResolvedType>
    var currentSpan: Option<Span>
    var host: HostState

    ghost predicate Valid()
      reads this
    {
      expressionDepth <= cfg.limits.expressionDepth && |callStack| <= cfg.limits.callDepth
    }

    /** What a run accumulates. */
    ghost function St(): State
      reads this
    {
      State(bindings, functions, remainingSteps, host)
    }

    /** What a construct must put back. */
    ghost function Fr(): Frame
      reads this
    {
      Frame(expressionDepth, callStack, returnType, currentSpan, capturedBindings, inParallelWorker)
    }

    constructor (cfg: Config, st: State, f: Frame)
      requires f.depth <= cfg.limits.expressionDepth && |f.stack| <= cfg.limits.callDepth
      ensures Valid() && St() == st && Fr() == f && this.cfg == cfg
    {
      this.cfg := cfg;
      capturedBindings, inParallelWorker := f.captured, f.inWorker;
      bindings, functions, remainingSteps, host := st.bindings, st.functions, st.steps, st.host;
      expressionDepth, callStack, returnType, currentSpan := f.depth, f.stack, f.result, f.span;
    }

    method Failure(message: Message) returns (error: RuntimeError)
      ensures error == Error(Fr(), message)
    {
      error := RuntimeError(message, callStack, currentSpan);
    }

    /** One step of the shared budget; an exhausted budget stays exhausted. */
    method Tick() returns (r: Result<(), RuntimeError>)
      requires Valid()
      modifies this`remainingSteps
      ensures Valid() && Fr() == old(Fr())
      ensures r.Ok? <==> old(remainingSteps) > 0
      ensures St() == old(St()).(steps := if r.Ok? then old(remainingSteps) - 1 else 0)
      ensures r.Err? ==> r.error == Error(Fr(), StepLimit)
    {
      if remainingSteps == 0 {
        var error := Failure(StepLimit);
        return Err(error);
      }
      remainingSteps := remainingSteps - 1;
      return Ok(());
    }

    method AllocateSlot(annotation: Option<ResolvedType>, value: Option<Value>, mutable: bool) returns (id: nat)
      requires Valid()
      modifies this`bindings
      ensures Valid() && Fr() == old(Fr())
      ensures id == |old(bindings)| && St() == Allocate(old(St()), annotation, value, mutable)
    {
      id := |bindings|;
      bindings := bindings + [Binding(annotation, value, mutable)];
    }

    // ----- expressions -----

    method Expression(e: Expr, env: Environment) returns (r: Result<Value, RuntimeError>)
      requires Valid()
      modifies this
      ensures Valid() && Fr() == old(Fr())
      ensures Out(St(), r) == Evaluate(cfg, old(Fr()), old(St()), e, env)
      decreases remainingSteps, 0, e
    {
      if e.Located? {
        var previous := currentSpan;
        currentSpan := Some(e.span);
        r := Expression(e.inner, env);
        currentSpan := previous;
        return;
      }
      var ticked := Tick();
      if ticked.Err? {
        return Err(ticked.error);
      }
      if expressionDepth >= cfg.limits.expressionDepth {
        var error := Failure(ExpressionDepth);
        return Err(error);
      }
      expressionDepth := expressionDepth + 1;
      r := ExpressionInner(e, env);
      expressionDepth := expressionDepth - 1;
    }

    method ExpressionInner(e: Expr, env: Environment) returns (r: Result<Value, RuntimeError>)
      requires Valid() && !e.Located?
      modifies this
      ensures Valid() && Fr() == old(Fr())
      ensures Out(St(), r) == Inner(cfg, old(Fr()), old(St()), e, env)
      decreases remainingSteps, 3
    {
      if e.Identifier? {
        r := ReadName(e.name, env);
      } else if e.Assignment? {
        r := AssignmentExpression(e.target, e.value, env);
      } else if IsStrict(e) {
        r := StrictNode(e, env);
      } else {
        r := ShortCircuit(e.left, e.binary, e.right, env);
      }
    }

    method ReadName(name: string, env: Environment) returns (r: Result<Value, RuntimeError>)
      ensures Out(St(), r) == Variable(Fr(), St(), name, env)
    {
      var id := LookUp(env, name);
      if id.None? {
        var error := Failure(UndefinedName(name));
        return Err(error);
      }
      var value := Read(State(bindings, functions, remainingSteps, host), id.value);
      if value.Err? {
        var error := Failure(value.error);
        return Err(error);
      }
      return Ok(value.value);
    }

    /** Operands from left to right, then the operation. */
    method StrictNode(e: Expr, env: Environment) returns (r: Result<Value, RuntimeError>)
      requires Valid() && IsStrict(e)
      modifies this
      ensures Valid() && Fr() == old(Fr())
      ensures Out(St(), r) == Strict(cfg, old(Fr()), old(St()), e, env)
      decreases remainingSteps, 2
    {
      var refusal := Refusal(cfg, e);
      if refusal.Some? {
        var error := Failure(refusal.value);
        return Err(error);
      }
      var values := OperandValues(Operands(e), CheckOf(cfg, e), env);
      if values.Err? {
        return Err(values.error);
      }
      if e.Call? {
        r := Invoke(values.value[0], values.value[1..]);
      } else {
        r := Finish(e, values.value);
      }
    }

    method OperandValues(es: seq<Expr>, check: Check, env: Environment) returns (r: Result<seq<Value>, RuntimeError>)
      requires Valid()
      modifies this
      ensures Valid() && Fr() == old(Fr())
      ensures Out(St(), r) == EvaluateFrom(cfg, old(Fr()), old(St()), es, [], check, env)
      decreases remainingSteps, 1
    {
      hide ElementError;
      var values: seq<Value> := [];
      while |values| < |es|
        invariant Valid() && Fr() == old(Fr()) && remainingSteps <= old(remainingSteps) && |values| <= |es|
        invariant EvaluateFrom(cfg, old(Fr()), old(St()), es, [], check, env) == EvaluateFrom(cfg, Fr(), St(), es, values, check, env)
      {
        var i := |values|;
        var value := Expression(es[i], env);
        if value.Err? {
          return Err(value.error);
        }
        var message := ElementError(cfg, check, i, value.value);
        if message.Some? {
          var error := Failure(message.value);
          return Err(if check.FieldContracts? then error.(span := es[i].Where().Or(error.span)) else error);
        }
        values := values + [value.value];
      }
      return Ok(values);
    }

    /** The operation of a strict node; only network nodes touch the host. */
    method Finish(e: Expr, values: seq<Value>) returns (r: Result<Value, RuntimeError>)
      requires Valid() && IsStrict(e) && |values| == |Operands(e)|
      modifies this`host
      ensures Valid() && Fr() == old(Fr())
      ensures Out(St(), r) == Combine(cfg, old(Fr()), old(St()), e, values)
    {
      hide PureResult, EffectResult;
      if e.Effect? {
        r := NetworkOperation(e.op, values);
      } else {
        var value := PureResult(cfg, e, values);
        r := Reported(value);
      }
    }

    /** Give a pure failure its call stack and location. */
    method Reported(value: Result<Value, Message>) returns (r: Result<Value, RuntimeError>)
      ensures Out(St(), r) == Lift(Fr(), St(), value)
    {
      if value.Ok? {
        return Ok(value.value);
      }
      var error := Failure(value.error);
      return Err(error);
    }

    method AskHost(call: HostCall) returns (reply: Reply)
      modifies this`host
      ensures Fr() == old(Fr()) && (old(Valid()) ==> Valid())
      ensures (host, reply) == Ask(cfg, old(host), call) && St() == old(St()).(host := host)
    {
      host := host.(history := host.history + [call]);
      reply := cfg.lib.reply(host.history);
    }

    method HostOperation(call: HostCall) returns (r: Result<Value, RuntimeError>)
      modifies this`host
      ensures Fr() == old(Fr()) && (old(Valid()) ==> Valid())
      ensures Out(St(), r) == HostResult(cfg, old(Fr()), old(St()), call)
    {
      var reply := AskHost(call);
      if reply.Refused? {
        var error := Failure(Host(reply.message));
        return Err(error);
      }
      if call.CloseHandle? || call.SetHandleTimeout? {
        return Ok(NullValue);
      }
      return Ok(if call.LocalAddressOf? then StringValue(reply.text) else reply.value);
    }

    method NetworkOperation(op: EffectOp, values: seq<Value>) returns (r: Result<Value, RuntimeError>)
      requires Valid()
      modifies this`host
      ensures Valid() && Fr() == old(Fr())
      ensures Out(St(), r) == EffectResult(cfg, old(Fr()), old(St()), op, values)
    {
      hide HostResult;
      if op.Connect? && |values| == 1 {
        r := OpenConnection(op.transport, op.protocol, values[0]);
      } else if op.Send? && (|values| == 2 || (|values| == 3 && values[2].StringValue?)) {
        r := HostOperation(SendTo(values[0], values[1], if |values| == 3 then Some(values[2].text) else None));
      } else if op.Receive? && |values| == 1 {
        r := HostOperation(ReceiveFrom(values[0]));
      } else if op.Request? && (|values| == 1 || |values| == 2) && values[0].StringValue? {
        r := HostOperation(SendRequest(op.verb, values[0].text, if |values| == 2 then values[1] else ObjectValue(map[])));
      } else {
        var error := Failure(MalformedEffect);
        r := Err(error);
      }
    }

    /** An address connects; a one-field object listens or binds. */
    method OpenConnection(transport: Transport, protocol: Option<string>, address: Value) returns (r: Result<Value, RuntimeError>)
      requires Valid()
      modifies this`host
      ensures Valid() && Fr() == old(Fr())
      ensures Out(St(), r) == EffectResult(cfg, old(Fr()), old(St()), Connect(transport, protocol), [address])
    {
      hide HostResult;
      if address.StringValue? {
        r := HostOperation(ConnectTo(transport, address.text, protocol));
        return;
      }
      var key := if transport.Udp? then "bind" else "listen";
      var refusal := ExpectedString("address");
      if address.ObjectValue? {
        if protocol.Some? {
          refusal := ConfigurationProtocol;
        } else if |address.fields| != 1 || key !in address.fields {
          refusal := ConfigurationField(key);
        } else if !address.fields[key].StringValue? {
          refusal := ExpectedString(key);
        } else {
          var text := address.fields[key].text;
          r := HostOperation(if transport.Udp? then BindUdp(text) else ListenTcp(text));
          return;
        }
      }
      var error := Failure(refusal);
      return Err(error);
    }

    method ShortCircuit(left: Expr, op: BinaryOp, right: Expr, env: Environment) returns (r: Result<Value, RuntimeError>)
      requires Valid()
      modifies this
      ensures Valid() && Fr() == old(Fr())
      ensures Out(St(), r) == Logical(cfg, old(Fr()), old(St()), left, op, right, env)
      decreases remainingSteps, 2
    {
      LogicalSteps(cfg, Fr(), St(), left, op, right, env);
      hide Logical, Evaluate;
      r := Expression(left, env);
      if r.Err? {
        return;
      }
      if !r.value.BooleanValue? {
        var error := Failure(ExpectedBoolean(r.value.KindName()));
        return Err(error);
      }
      if (op.And? && !r.value.boolean) || (op.Or? && r.value.boolean) {
        return;
      }
      r := Expression(right, env);
      if r.Ok? && !r.value.BooleanValue? {
        var error := Failure(ExpectedBoolean(r.value.KindName()));
        return Err(error);
      }
    }

    /** Target, permission, right-hand side, then the write. */
    method AssignmentExpression(target: Expr, value: Expr, env: Environment) returns (r: Result<Value, RuntimeError>)
      requires Valid()
      modifies this
      ensures Valid() && Fr() == old(Fr())
      ensures Out(St(), r) == Assign(cfg, old(Fr()), old(St()), target, value, env)
      decreases remainingSteps, 2
    {
      AssignSteps(cfg, Fr(), St(), target, value, env);
      hide Assign, Evaluate, Target, Write, Permission;
      var place := AssignmentTarget(target, env);
      if place.Err? {
        return Err(place.error);
      }
      var refused := Permission(Frame(expressionDepth, callStack, returnType, currentSpan, capturedBindings, inParallelWorker),
                                State(bindings, functions, remainingSteps, host), place.value.id);
      if refused.Some? {
        var error := Failure(refused.value);
        return Err(error);
      }
      r := Expression(value, env);
      if r.Ok? {
        r := WriteBinding(place.value, r.value);
      }
    }

    /** A failed write leaves the binding untouched. */
    method WriteBinding(place: Place, v: Value) returns (r: Result<Value, RuntimeError>)
      requires Valid()
      modifies this`bindings
      ensures Valid() && Fr() == old(Fr())
      ensures Out(St(), r) == Write(cfg, old(Fr()), old(St()), place, v)
      ensures r.Err? ==> bindings == old(bindings)
    {
      hide Set, CheckType;
      if place.id >= |bindings| {
        var error := Failure(Panic);
        return Err(error);
      }
      var changed := v;
      if place.selectors != [] {
        if bindings[place.id].value.None? {
          var error := Failure(Uninitialized);
          return Err(error);
        }
        var written := Set(cfg.types, cfg.identity, bindings[place.id].value.value, place.selectors, v);
        if written.Err? {
          var error := Failure(written.error);
          return Err(error);
        }
        changed := written.value;
      }
      var mismatch := CheckType(cfg, bindings[place.id].annotation, changed);
      if mismatch.Some? {
        var error := Failure(mismatch.value);
        return Err(error);
      }
      bindings := bindings[place.id := bindings[place.id].(value := Some(changed))];
      return Ok(v);
    }

    method AssignmentTarget(e: Expr, env: Environment) returns (r: Result<Place, RuntimeError>)
      requires Valid()
      modifies this
      ensures Valid() && Fr() == old(Fr())
      ensures Out(St(), r) == Target(cfg, old(Fr()), old(St()), e, env)
      decreases remainingSteps, 1, e
    {
      if e.Located? {
        var previous := currentSpan;
        currentSpan := Some(e.span);
        r := AssignmentTarget(e.inner, env);
        currentSpan := previous;
        return;
      }
      var ticked := Tick();
      if ticked.Err? {
        return Err(ticked.error);
      }
      if e.Identifier? {
        var id := LookUp(env, e.name);
        if id.None? {
          var error := Failure(UndefinedName(e.name));
          return Err(error);
        }
        return Ok(Place(id.value, []));
      }
      if !e.Property? && !e.Index? {
        var error := Failure(BadAssignmentRoot);
        return Err(error);
      }
      TargetSteps(cfg, old(Fr()), old(St()), e, env);
      hide Target, Evaluate;
      var place := AssignmentTarget(e.owner, env);
      if place.Err? {
        return Err(place.error);
      }
      if e.Property? {
        return Ok(place.value.(selectors := place.value.selectors + [Member(e.name)]));
      }
      var index := Expression(e.index, env);
      if index.Err? {
        return Err(index.error);
      }
      return Ok(place.value.(selectors := place.value.selectors + [At(index.value)]));
    }

    // ----- calls -----

    method Invoke(callee: Value, args: seq<Value>) returns (r: Result<Value, RuntimeError>)
      requires Valid()
      modifies this
      ensures Valid() && Fr() == old(Fr())
      ensures Out(St(), r) == Apply(cfg, old(Fr()), old(St()), callee, args)
      decreases remainingSteps, 8
    {
      hide BuiltinResult, Joined, Print;
      match callee
      case BuiltinValue(builtin) => r := InvokeBuiltin(builtin, args);
      case PrintValue =>
        var failure := PrintLineOf(Joined(cfg, args));
        if failure.Some? {
          var error := Failure(failure.value);
          return Err(error);
        }
        return Ok(NullValue);
      case FunctionValue(id) =>
        if |callStack| >= cfg.limits.callDepth {
          var error := Failure(CallDepth);
          return Err(error);
        }
        if id >= |functions| {
          var error := Failure(InvalidFunctionHandle);
          return Err(error);
        }
        var callee := functions[id];
        if |args| != |callee.parameters| {
          var error := Failure(ArgumentCount(callee.name, |callee.parameters|, |args|));
          return Err(error);
        }
        r := InvokeFunction(callee, args);
      case _ =>
        var error := Failure(NotCallable(callee.KindName()));
        return Err(error);
    }

    method InvokeBuiltin(builtin: Builtin, args: seq<Value>) returns (r: Result<Value, RuntimeError>)
      requires Valid()
      modifies this`host
      ensures Valid() && Fr() == old(Fr())
      ensures Out(St(), r) == BuiltinResult(cfg, old(Fr()), old(St()), builtin, args)
    {
      hide HostResult;
      if |args| != BuiltinArity(builtin) {
        var error := Failure(ArgumentCount(BuiltinName(builtin), BuiltinArity(builtin), |args|));
        return Err(error);
      }
      if builtin.SetTimeout? && args[1].DurationValue? && 1 <= args[1].duration <= 86_400_000 {
        r := HostOperation(SetHandleTimeout(args[0], args[1].duration));
      } else if builtin.Accept? {
        r := HostOperation(AcceptFrom(args[0]));
      } else if builtin.LocalAddress? {
        r := HostOperation(LocalAddressOf(args[0]));
      } else if builtin.Close? {
        r := HostOperation(CloseHandle(args[0]));
      } else {
        // The remaining built-ins are pure.
        r := BuiltinResult(cfg, Frame(expressionDepth, callStack, returnType, currentSpan, capturedBindings, inParallelWorker),
                           State(bindings, functions, remainingSteps, host), builtin, args).res;
      }
    }

    /** Print through the host, or into the bounded buffer of a worker. */
    method PrintLineOf(text: string) returns (failure: Option<Message>)
      modifies this`host
      ensures Fr() == old(Fr()) && (old(Valid()) ==> Valid())
      ensures (host, failure) == Print(cfg, old(host), text) && St() == old(St()).(host := host)
    {
      if host.buffer.Some? {
        var buffer := host.buffer.value;
        var bytes := buffer.bytes + Utf8Length(text) + 1;
        if bytes > cfg.limits.outputBytes {
          return Some(OutputLimit);
        }
        host := host.(buffer := Some(Buffer(buffer.lines + [text], bytes)));
        return None;
      }
      var reply := AskHost(PrintLine(text));
      failure := if reply.Refused? then Some(Host(reply.message)) else None;
    }

    method BindArguments(parameters: seq<Parameter>, args: seq<Value>) returns (r: Result<map<string, nat>, RuntimeError>)
      requires Valid()
      modifies this`bindings
      ensures Valid() && Fr() == old(Fr())
      ensures Out(St(), r) == BindParameters(cfg, old(Fr()), old(St()), parameters, args, 0, map[])
    {
      hide CheckType;
      var scope: map<string, nat> := map[];
      var i := 0;
      while i < |parameters| && i < |args|
        invariant Valid() && Fr() == old(Fr()) && St() == old(St()).(bindings := bindings)
        invariant BindParameters(cfg, old(Fr()), old(St()), parameters, args, 0, map[])
               == BindParameters(cfg, Fr(), St(), parameters, args, i, scope)
        decreases |parameters| - i
      {
        var annotation := ResolveAnnotation(cfg.types, parameters[i].annotation);
        var mismatch := CheckType(cfg, annotation, args[i]);
        if mismatch.Some? {
          var error := Failure(mismatch.value);
          return Err(error);
        }
        var id := AllocateSlot(annotation, Some(args[i]), true);
        scope := scope[parameters[i].name := id];
        i := i + 1;
      }
      return Ok(scope);
    }

    /** Depth, call stack and return type are replaced for the callee and put back whatever happens. */
    method InvokeFunction(callee: FunctionDef, args: seq<Value>) returns (r: Result<Value, RuntimeError>)
      requires Valid() && |callStack| < cfg.limits.callDepth
      modifies this
      ensures Valid() && Fr() == old(Fr())
      ensures Out(St(), r) == CallFunction(cfg, old(Fr()), old(St()), callee, args)
      decreases remainingSteps, 7
    {
      hide BindParameters, CheckType;
      var scope := BindArguments(callee.parameters, args);
      if scope.Err? {
        return Err(scope.error);
      }
      var depth, enclosingReturn, enclosingStack := expressionDepth, returnType, callStack;
      callStack, expressionDepth, returnType := callStack + [callee.name], 0, callee.result;
      var flow := RunBody(callee.body, callee.closure + [scope.value]);
      if flow.Err? {
        r := Err(flow.error);
      } else if flow.value.Normal? {
        var mismatch := CheckType(cfg, callee.result, NullValue);
        if mismatch.Some? {
          var error := Failure(mismatch.value);
          r := Err(error.(span := callee.resultSpan.Or(error.span)));
        } else {
          r := Ok(NullValue);
        }
      } else if flow.value.ReturnFlow? {
        r := Ok(flow.value.value);
      } else {
        var error := Failure(LoopControlExitsFunction);
        r := Err(error);
      }
      returnType, expressionDepth, callStack := enclosingReturn, depth, callStack[..|callStack| - 1];
      assert callStack == enclosingStack;
    }

    // ----- statements -----

    /** Reserve every slot of a list, exposing only the functions. */
    method ReserveSlots(stmts: seq<Stmt>, env: Environment) returns (visible: Environment, slots: seq<Option<nat>>)
      requires Valid()
      modifies this`bindings
      ensures Valid() && Fr() == old(Fr())
      ensures Reserved(St(), visible, slots) == Reserve(cfg, old(St()), stmts, env, [])
    {
      visible, slots := env, [];
      while |slots| < |stmts|
        invariant Valid() && Fr() == old(Fr()) && St() == old(St()).(bindings := bindings) && |slots| <= |stmts|
        invariant Reserve(cfg, old(St()), stmts, env, []) == Reserve(cfg, St(), stmts, visible, slots)
      {
        var stmt := stmts[|slots|].Unspanned();
        if stmt.Let? {
          var id := AllocateSlot(ResolveAnnotation(cfg.types, stmt.annotation), None, true);
          slots := slots + [Some(id)];
        } else if stmt.Function? {
          var id := AllocateSlot(None, None, false);
          visible := Bind(visible, stmt.name, id);
          slots := slots + [Some(id)];
        } else {
          slots := slots + [None];
        }
      }
    }

    /** Give every function of a list its closure. */
    method InstallFunctions(stmts: seq<Stmt>, slots: seq<Option<nat>>, visible: Environment)
      requires Valid()
      modifies this`bindings, this`functions
      ensures Valid() && Fr() == old(Fr())
      ensures St() == Install(cfg, old(St()), stmts, slots, visible, 0)
    {
      hide Definition;
      var declarationEnv := visible;
      var i := 0;
      while i < |stmts| && i < |slots|
        invariant Valid() && Fr() == old(Fr())
        invariant Install(cfg, old(St()), stmts, slots, visible, 0) == Install(cfg, St(), stmts, slots, declarationEnv, i)
        decreases |stmts| - i
      {
        var stmt := stmts[i].Unspanned();
        if stmt.Let? && slots[i].Some? {
          declarationEnv := Bind(declarationEnv, stmt.name, slots[i].value);
        } else if stmt.Function? && slots[i].Some? && slots[i].value < |bindings| {
          var id := |functions|;
          functions := functions + [Definition(cfg, stmts[i], declarationEnv)];
          bindings := bindings[slots[i].value := bindings[slots[i].value].(value := Some(FunctionValue(id)))];
        }
        i := i + 1;
      }
    }

    method RunStatements(stmts: seq<Stmt>, env: Environment) returns (r: Result<Flow, RuntimeError>)
      requires Valid()
      modifies this
      ensures Valid() && Fr() == old(Fr())
      ensures Out(St(), r) == Statements(cfg, old(Fr()), old(St()), stmts, env)
      decreases remainingSteps, 4
    {
      if env == [] {
        var error := Failure(Panic);
        return Err(error);
      }
      hide Reserve, Install;
      var visible, slots := ReserveSlots(stmts, env);
      InstallFunctions(stmts, slots, visible);
      r := RunList(stmts, slots, visible);
    }

    /** The statements in order; a `let` becomes visible once its initializer has run. */
    method RunList(stmts: seq<Stmt>, slots: seq<Option<nat>>, env: Environment) returns (r: Result<Flow, RuntimeError>)
      requires Valid()
      modifies this
      ensures Valid() && Fr() == old(Fr())
      ensures Out(St(), r) == ExecuteFrom(cfg, old(Fr()), old(St()), stmts, slots, env, 0)
      decreases remainingSteps, 3
    {
      hide RunLet, Execute;
      var visible := env;
      var i := 0;
      while i < |stmts| && i < |slots|
        invariant Valid() && Fr() == old(Fr()) && remainingSteps <= old(remainingSteps)
        invariant ExecuteFrom(cfg, old(Fr()), old(St()), stmts, slots, env, 0)
               == ExecuteFrom(cfg, Fr(), St(), stmts, slots, visible, i)
        decreases |stmts| - i
      {
        if remainingSteps > 0 {
          ExecuteFromSteps(cfg, Fr(), St(), stmts, slots, visible, i);
        }
        var previous := currentSpan;
        currentSpan := stmts[i].Where().Or(previous);
        var flow := RunOne(stmts[i].Unspanned(), slots[i], visible);
        currentSpan := previous;
        if flow.Err? || !flow.value.Normal? {
          return flow;
        }
        if stmts[i].Unspanned().Let? {
          visible := Bind(visible, stmts[i].Unspanned().name, slots[i].GetOr(0));
        }
        i := i + 1;
      }
      return Ok(Normal);
    }

    /** One statement of a list, after its step is paid for. */
    method RunOne(stmt: Stmt, slot: Option<nat>, env: Environment) returns (r: Result<Flow, RuntimeError>)
      requires Valid() && !stmt.LocatedStmt?
      modifies this
      ensures Valid() && Fr() == old(Fr())
      ensures old(remainingSteps) == 0 ==> St() == old(St()) && r == Err(Error(Fr(), StepLimit))
      ensures old(remainingSteps) > 0 ==>
                var ticked := old(St()).(steps := old(remainingSteps) - 1);
                if stmt.Let? then
                  var l := RunLet(cfg, old(Fr()), ticked, slot, stmt.value, env);
                  St() == l.st && r == (if l.res.Ok? then Ok(Normal) else Err(l.res.error))
                else Out(St(), r) == Execute(cfg, old(Fr()), ticked, stmt, env)
      decreases remainingSteps, 2
    {
      hide RunLet, Execute;
      var ticked := Tick();
      if ticked.Err? {
        return Err(ticked.error);
      }
      if stmt.Let? {
        var done := RunLetStatement(slot, stmt.value, env);
        return if done.Ok? then Ok(Normal) else Err(done.error);
      }
      r := RunStatement(stmt, env);
    }

    method RunLetStatement(slot: Option<nat>, value: Expr, env: Environment) returns (r: Result<(), RuntimeError>)
      requires Valid()
      modifies this
      ensures Valid() && Fr() == old(Fr())
      ensures Out(St(), r) == RunLet(cfg, old(Fr()), old(St()), slot, value, env)
      decreases remainingSteps, 1
    {
      hide CheckType;
      var v := Expression(value, env);
      if v.Err? {
        return Err(v.error);
      }
      if slot.None? || slot.value >= |bindings| {
        var error := Failure(Panic);
        return Err(error);
      }
      var mismatch := CheckType(cfg, bindings[slot.value].annotation, v.value);
      if mismatch.Some? {
        var error := Failure(mismatch.value);
        return Err(error.(span := value.Where().Or(currentSpan)));
      }
      bindings := bindings[slot.value := bindings[slot.value].(value := Some(v.value))];
      return Ok(());
    }

    method RunBody(body: Stmt, env: Environment) returns (r: Result<Flow, RuntimeError>)
      requires Valid()
      modifies this
      ensures Valid() && Fr() == old(Fr())
      ensures Out(St(), r) == Body(cfg, old(Fr()), old(St()), body, env)
      decreases remainingSteps, 5, body
    {
      if body.LocatedStmt? {
        var previous := currentSpan;
        currentSpan := Some(body.span);
        r := RunBody(body.inner, env);
        currentSpan := previous;
        return;
      }
      r := RunStatements(if body.Block? then body.statements else [body], env);
    }

    /** A condition must be a boolean; the complaint points at the condition. */
    method Condition(condition: Expr, env: Environment) returns (r: Result<bool, RuntimeError>)
      requires Valid()
      modifies this
      ensures Valid() && Fr() == old(Fr())
      ensures var o := Evaluate(cfg, old(Fr()), old(St()), condition, env);
              && St() == o.st
              && (o.res.Err? ==> r == Err(o.res.error))
              && (o.res.Ok? && !o.res.value.BooleanValue? ==>
                    r == Err(Error(Fr().(span := condition.Where().Or(Fr().span)), ExpectedBoolean(o.res.value.KindName()))))
              && (o.res.Ok? && o.res.value.BooleanValue? ==> r == Ok(o.res.value.boolean))
              && (r.Ok? ==> remainingSteps < old(remainingSteps))
      decreases remainingSteps, 1
    {
      hide Evaluate;
      var v := Expression(condition, env);
      if v.Err? {
        return Err(v.error);
      }
      if !v.value.BooleanValue? {
        var error := Failure(ExpectedBoolean(v.value.KindName()));
        return Err(error.(span := condition.Where().Or(error.span)));
      }
      return Ok(v.value.boolean);
    }

    method RunStatement(s: Stmt, env: Environment) returns (r: Result<Flow, RuntimeError>)
      requires Valid()
      modifies this
      ensures Valid() && Fr() == old(Fr())
      ensures Out(St(), r) == Execute(cfg, old(Fr()), old(St()), s, env)
      decreases remainingSteps, 8, s
    {
      if s.LocatedStmt? {
        var previous := currentSpan;
        currentSpan := Some(s.span);
        r := RunStatement(s.inner, env);
        currentSpan := previous;
        return;
      }
      match s
      case Block(_) => r := RunBody(s, env + [map[]]);
      case ExprStmt(_) => r := RunReturnOrExpression(s, env);
      case Return(_) => r := RunReturnOrExpression(s, env);
      case If(_, _, _) => r := RunIf(s, env);
      case While(_, _) => r := RunWhile(s, env);
      case For(_, _, _) => r := RunIteration(s, env);
      case Parallel(_, _, _) => r := RunIteration(s, env);
      case Match(_, _) => r := RunMatch(s, env);
      case Break => return Ok(BreakFlow);
      case Continue => return Ok(ContinueFlow);
      case TypeDecl(_, _) => return Ok(Normal);
      case Function(_, _, _, _) => return Ok(Normal);
      case Let(_, _, _) =>
        var error := Failure(Panic);
        return Err(error);
    }

    method RunReturnOrExpression(s: Stmt, env: Environment) returns (r: Result<Flow, RuntimeError>)
      requires Valid() && (s.ExprStmt? || s.Return?)
      modifies this
      ensures Valid() && Fr() == old(Fr())
      ensures Out(St(), r) == Execute(cfg, old(Fr()), old(St()), s, env)
      decreases remainingSteps, 7
    {
      ExecuteSteps(cfg, Fr(), St(), s, env);
      hide Execute, Evaluate, CheckType;
      if s.ExprStmt? {
        var v := Expression(s.expression, env);
        return if v.Ok? then Ok(Normal) else Err(v.error);
      }
      var value := NullValue;
      if s.returned.Some? {
        var v := Expression(s.returned.value, env);
        if v.Err? {
          return Err(v.error);
        }
        value := v.value;
      }
      var mismatch := CheckType(cfg, returnType, value);
      if mismatch.Some? {
        var error := Failure(mismatch.value);
        return Err(error.(span := (if s.returned.Some? then s.returned.value.Where() else None).Or(currentSpan)));
      }
      return Ok(ReturnFlow(value));
    }

    method RunIf(s: Stmt, env: Environment) returns (r: Result<Flow, RuntimeError>)
      requires Valid() && s.If?
      modifies this
      ensures Valid() && Fr() == old(Fr())
      ensures Out(St(), r) == Execute(cfg, old(Fr()), old(St()), s, env)
      decreases remainingSteps, 7
    {
      ExecuteSteps(cfg, Fr(), St(), s, env);
      hide Execute, Evaluate, Body;
      var condition := Condition(s.condition, env);
      if condition.Err? {
        return Err(condition.error);
      }
      if condition.value {
        r := RunBody(s.thenBranch, env + [map[]]);
      } else if s.elseBranch.Some? {
        r := RunBody(s.elseBranch.value, env + [map[]]);
      } else {
        return Ok(Normal);
      }
    }

    /** Every turn evaluates the condition, which costs a step, so the loop ends. */
    method RunWhile(s: Stmt, env: Environment) returns (r: Result<Flow, RuntimeError>)
      requires Valid() && s.While?
      modifies this
      ensures Valid() && Fr() == old(Fr())
      ensures Out(St(), r) == Execute(cfg, old(Fr()), old(St()), s, env)
      decreases remainingSteps, 7
    {
      hide Execute, Evaluate, Body;
      while true
        invariant Valid() && Fr() == old(Fr()) && remainingSteps <= old(remainingSteps)
        invariant Execute(cfg, old(Fr()), old(St()), s, env) == Execute(cfg, Fr(), St(), s, env)
        decreases remainingSteps
      {
        ExecuteSteps(cfg, Fr(), St(), s, env);
        var condition := Condition(s.condition, env);
        if condition.Err? {
          return Err(condition.error);
        }
        if !condition.value {
          return Ok(Normal);
        }
        var flow := RunBody(s.body, env + [map[]]);
        if flow.Err? || flow.value.ReturnFlow? {
          return flow;
        }
        if flow.value.BreakFlow? {
          return Ok(Normal);
        }
      }
    }

    method RunMatch(s: Stmt, env: Environment) returns (r: Result<Flow, RuntimeError>)
      requires Valid() && s.Match?
      modifies this
      ensures Valid() && Fr() == old(Fr())
      ensures Out(St(), r) == Execute(cfg, old(Fr()), old(St()), s, env)
      decreases remainingSteps, 7
    {
      ExecuteSteps(cfg, Fr(), St(), s, env);
      hide Execute, Evaluate, Body, PatternMatches;
      var subject := Expression(s.subject, env);
      if subject.Err? {
        return Err(subject.error);
      }
      for i := 0 to |s.arms|
        invariant Valid() && Fr() == old(Fr()) && remainingSteps < old(remainingSteps)
        invariant St() == Evaluate(cfg, old(Fr()), old(St()), s.subject, env).st
        invariant SelectArm(s.arms, subject.value, 0) == SelectArm(s.arms, subject.value, i)
      {
        if PatternMatches(s.arms[i].pattern, subject.value) {
          r := RunBody(s.arms[i].body, env + [map[]]);
          return;
        }
      }
      return Ok(Normal);
    }

    method RunIteration(s: Stmt, env: Environment) returns (r: Result<Flow, RuntimeError>)
      requires Valid() && (s.For? || s.Parallel?)
      modifies this
      ensures Valid() && Fr() == old(Fr())
      ensures Out(St(), r) == Execute(cfg, old(Fr()), old(St()), s, env)
      decreases remainingSteps, 7
    {
      ExecuteSteps(cfg, Fr(), St(), s, env);
      hide Execute, Evaluate, EachFrom, Batches;
      var iterable := Expression(s.iterable, env);
      if iterable.Err? {
        return Err(iterable.error);
      }
      if !iterable.value.ArrayValue? {
        var error := Failure(NotAnArray(if s.For? then "for" else "parallel"));
        return Err(error);
      }
      if s.For? {
        r := ForEach(s.variable, iterable.value.elements, s.body, env);
      } else {
        r := RunParallel(s.variable, iterable.value.elements, s.body, env);
      }
    }

    /** Every turn costs a step and gets a slot of its own. */
    method ForEach(variable: string, values: seq<Value>, body: Stmt, env: Environment) returns (r: Result<Flow, RuntimeError>)
      requires Valid()
      modifies this
      ensures Valid() && Fr() == old(Fr())
      ensures Out(St(), r) == EachFrom(cfg, old(Fr()), old(St()), variable, values, 0, body, env)
      decreases remainingSteps, 7
    {
      hide Body;
      var i := 0;
      while i < |values|
        invariant Valid() && Fr() == old(Fr()) && remainingSteps <= old(remainingSteps) && i <= |values|
        invariant EachFrom(cfg, old(Fr()), old(St()), variable, values, 0, body, env)
               == EachFrom(cfg, Fr(), St(), variable, values, i, body, env)
        decreases |values| - i
      {
        if remainingSteps > 0 {
          EachSteps(cfg, Fr(), St(), variable, values, i, body, env);
        }
        var ticked := Tick();
        if ticked.Err? {
          return Err(ticked.error);
        }
        var id := AllocateSlot(None, Some(values[i]), true);
        var flow := RunBody(body, env + [map[variable := id]]);
        if flow.Err? || flow.value.ReturnFlow? {
          return flow;
        }
        if flow.value.BreakFlow? {
          return Ok(Normal);
        }
        i := i + 1;
      }
      return Ok(Normal);
    }

    // ----- parallel iterations -----

    /** Batches of at most `width` jobs over one snapshot. */
    method RunParallel(variable: string, values: seq<Value>, body: Stmt, env: Environment) returns (r: Result<Flow, RuntimeError>)
      requires Valid()
      modifies this
      ensures Valid() && Fr() == old(Fr())
      ensures Out(St(), r) == Batches(cfg, old(Fr()), old(St()), Snap(old(St())), variable, values, 0, Width(cfg, old(Fr())), body, env)
      decreases remainingSteps, 9
    {
      hide Batch;
      var snapshot := Snapshot(bindings, functions);
      var width := if inParallelWorker || cfg.limits.workers == 0 then 1 else cfg.limits.workers;
      var start := 0;
      while start < |values|
        invariant Valid() && Fr() == old(Fr()) && remainingSteps <= old(remainingSteps)
        invariant Batches(cfg, old(Fr()), old(St()), snapshot, variable, values, 0, width, body, env)
               == Batches(cfg, Fr(), St(), snapshot, variable, values, start, width, body, env)
        decreases |values| - start
      {
        var end := if start + width <= |values| then start + width else |values|;
        var flow := RunBatch(snapshot, variable, values[start..end], start, body, env);
        if flow.Err? {
          return flow;
        }
        start := end;
      }
      return Ok(Normal);
    }

    /** Tick and fork for every job before the first of them starts. */
    method ForkHosts(count: nat) returns (r: Result<seq<HostState>, RuntimeError>)
      requires Valid()
      modifies this`remainingSteps, this`host
      ensures Valid() && Fr() == old(Fr())
      ensures Out(St(), r) == ForkFrom(cfg, old(Fr()), old(St()), count, [])
    {
      var hosts: seq<HostState> := [];
      while |hosts| < count
        invariant Valid() && Fr() == old(Fr()) && |hosts| <= count
        invariant St() == old(St()).(steps := remainingSteps, host := host)
        invariant ForkFrom(cfg, old(Fr()), old(St()), count, []) == ForkFrom(cfg, Fr(), St(), count, hosts)
      {
        var ticked := Tick();
        if ticked.Err? {
          return Err(ticked.error);
        }
        var reply := AskHost(Fork);
        if reply.Refused? {
          var error := Failure(Host(reply.message));
          return Err(error);
        }
        hosts := hosts + [HostState(host.history + [Forked], None)];
      }
      return Ok(hosts);
    }

    method RunBatch(snapshot: Snapshot, variable: string, values: seq<Value>, first: nat, body: Stmt, env: Environment)
      returns (r: Result<Flow, RuntimeError>)
      requires Valid()
      modifies this
      ensures Valid() && Fr() == old(Fr())
      ensures Out(St(), r) == Batch(cfg, old(Fr()), old(St()), snapshot, variable, values, first, body, env)
      decreases remainingSteps, 8
    {
      hide ForkFrom, WorkersFrom, Replay;
      var forked := ForkHosts(|values|);
      if forked.Err? {
        return Err(forked.error);
      }
      var outcomes := RunWorkers(snapshot, variable, values, first, forked.value, body, env);
      var error := ReplayOutput(outcomes);
      return if error.Some? then Err(error.value) else Ok(Normal);
    }

    /** The workers one after the other; any other schedule of a batch is related to this one by Schedule.dfy. */
    method RunWorkers(
      snapshot: Snapshot, variable: string, values: seq<Value>, first: nat, hosts: seq<HostState>, body: Stmt, env: Environment)
      returns (outcomes: seq<Outcome>)
      requires Valid()
      modifies this`remainingSteps
      ensures Valid() && Fr() == old(Fr())
      ensures Finished(St(), outcomes)
           == WorkersFrom(cfg, old(Fr()), old(St()), snapshot, variable, values, first, hosts, [], body, env)
      decreases remainingSteps, 7
    {
      hide Worker, WorkerOutcome;
      outcomes := [];
      while |outcomes| < |values| && |outcomes| < |hosts|
        invariant Valid() && Fr() == old(Fr()) && St() == old(St()).(steps := remainingSteps)
        invariant remainingSteps <= old(remainingSteps)
        invariant WorkersFrom(cfg, old(Fr()), old(St()), snapshot, variable, values, first, hosts, [], body, env)
               == WorkersFrom(cfg, Fr(), St(), snapshot, variable, values, first, hosts, outcomes, body, env)
        decreases |values| - |outcomes|
      {
        var k := |outcomes|;
        var outcome := ExecuteWorker(snapshot, hosts[k], values[k], variable, body, env, first + k);
        outcomes := outcomes + [outcome];
      }
    }

    /** A worker is an interpreter of its own over a copy of the snapshot. */
    method ExecuteWorker(
      snapshot: Snapshot, jobHost: HostState, value: Value, variable: string, body: Stmt, env: Environment, index: nat)
      returns (outcome: Outcome)
      requires Valid()
      modifies this`remainingSteps
      ensures Valid() && Fr() == old(Fr()) && St() == old(St()).(steps := remainingSteps)
      ensures var o := Worker(cfg, Fr(), snapshot, old(remainingSteps), jobHost, value, variable, body, env);
              remainingSteps == o.st.steps && outcome == WorkerOutcome(Fr(), o, index)
      decreases remainingSteps, 6
    {
      hide Body;
      var f := Frame(expressionDepth, callStack, returnType, currentSpan, capturedBindings, inParallelWorker);
      var start := State(snapshot.bindings, snapshot.functions, remainingSteps, jobHost.(buffer := Some(Buffer([], 0))));
      var worker := new Interpreter(cfg, start, WorkerFrame(f, snapshot));
      var id := worker.AllocateSlot(None, Some(value), true);
      var flow := worker.RunBody(body, env + [map[variable := id]]);
      remainingSteps := worker.remainingSteps;
      var error: Option<RuntimeError> := None;
      if flow.Err? {
        error := Some(flow.error);
      } else if flow.value.BreakFlow? {
        error := Some(RuntimeError(BreakExitsIteration, callStack, currentSpan));
      } else if flow.value.ReturnFlow? {
        error := Some(RuntimeError(ReturnExitsIteration, callStack, currentSpan));
      }
      outcome := Outcome(BufferedLines(worker.host), if error.Some? then Some(Label(index + 1, error.value)) else None);
    }

    method PrintLines(lines: seq<string>) returns (failure: Option<RuntimeError>)
      requires Valid()
      modifies this`host
      ensures Valid() && Fr() == old(Fr()) && St() == old(St()).(host := host)
      ensures (host, failure) == PrintFrom(cfg, Fr(), old(host), lines, 0)
    {
      hide Print;
      for i := 0 to |lines|
        invariant Valid() && Fr() == old(Fr()) && St() == old(St()).(host := host)
        invariant PrintFrom(cfg, Fr(), old(host), lines, 0) == PrintFrom(cfg, Fr(), host, lines, i)
      {
        var refused := PrintLineOf(lines[i]);
        if refused.Some? {
          var error := Failure(refused.value);
          return Some(error);
        }
      }
      return None;
    }

    /** Output in input order; the first error in that order is the one returned. */
    method ReplayOutput(outcomes: seq<Outcome>) returns (firstError: Option<RuntimeError>)
      requires Valid()
      modifies this`host
      ensures Valid() && Fr() == old(Fr()) && St() == old(St()).(host := host)
      ensures (host, firstError) == Replay(cfg, Fr(), old(host), outcomes, 0, None)
    {
      hide PrintFrom;
      firstError := None;
      for i := 0 to |outcomes|
        invariant Valid() && Fr() == old(Fr()) && St() == old(St()).(host := host)
        invariant Replay(cfg, Fr(), old(host), outcomes, 0, None) == Replay(cfg, Fr(), host, outcomes, i, firstError)
      {
        var failure := PrintLines(outcomes[i].lines);
        if firstError.None? {
          firstError := failure;
        }
        if firstError.None? {
          firstError := outcomes[i].error;
        }
      }
    }
  }
}
