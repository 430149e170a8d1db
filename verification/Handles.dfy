/** No run ever calls a function handle that denotes no function, and no value ever holds one. */
module Handles {
  import opened Wrappers
  import opened Ast
  import opened Types
  import opened Values
  import opened Operations
  import opened Evaluation
  import opened Equations
  import opened Programs

  /** Every function handle inside the value, at any depth, is one of the first `n`. */
  predicate Known(n: nat, v: Value)
    decreases v
  {
    match v
    case FunctionValue(id) => id < n
    case Record(_, _, _, fields) => forall key | key in fields :: Known(n, fields[key])
    case ArrayValue(elements) => forall i | 0 <= i < |elements| :: Known(n, elements[i])
    case ObjectValue(fields) => forall key | key in fields :: Known(n, fields[key])
    case _ => true
  }

  predicate AllKnown(n: nat, values: seq<Value>) {
    forall i | 0 <= i < |values| :: Known(n, values[i])
  }

  /** Every handle held by a binding denotes a function of the arena. */
  predicate SealedBindings(n: nat, bindings: seq<Binding>) {
    forall i | 0 <= i < |bindings| && bindings[i].value.Some? :: Known(n, bindings[i].value.value)
  }

  predicate Sealed(st: State) {
    SealedBindings(|st.functions|, st.bindings)
  }

  /** Hosts hand out no functions. */
  ghost predicate HostPlain(cfg: Config) {
    forall history :: cfg.lib.reply(history).Answer? ==> Known(0, cfg.lib.reply(history).value)
  }

  predicate Dangling(error: RuntimeError) {
    Bare(error.message).InvalidFunctionHandle?
  }

  /** The run kept the arena and the handles together, and did not fail for a dangling one. */
  predicate Safe<T>(a: State, o: Out<T>) {
    |a.functions| <= |o.st.functions| && Sealed(o.st) && (o.res.Err? ==> !Dangling(o.res.error))
  }

  predicate SafeValue(a: State, o: Out<Value>) {
    Safe(a, o) && (o.res.Ok? ==> Known(|o.st.functions|, o.res.value))
  }

  predicate SafeValues(a: State, o: Out<seq<Value>>) {
    Safe(a, o) && (o.res.Ok? ==> AllKnown(|o.st.functions|, o.res.value))
  }

  predicate KnownFlow(n: nat, flow: Flow) {
    flow.ReturnFlow? ==> Known(n, flow.value)
  }

  predicate SafeFlow(a: State, o: Out<Flow>) {
    Safe(a, o) && (o.res.Ok? ==> KnownFlow(|o.st.functions|, o.res.value))
  }

  predicate KnownPlan(n: nat, plan: Plan) {
    match plan
    case Done(flow) => KnownFlow(n, flow)
    case Refuse(message, _) => !Bare(message).InvalidFunctionHandle?
    case Iterate(_, values, _) => AllKnown(n, values)
    case Spread(_, values, _) => AllKnown(n, values)
    case _ => true
  }

  // ----- values -----

  lemma {:induction false} KnownGrows(n: nat, m: nat, v: Value)
    requires n <= m && Known(n, v)
    ensures Known(m, v)
    decreases v
  {
    match v
    case Record(_, _, _, fields) =>
      forall key | key in fields
        ensures Known(m, fields[key])
      {
        KnownGrows(n, m, fields[key]);
      }
    case ObjectValue(fields) =>
      forall key | key in fields
        ensures Known(m, fields[key])
      {
        KnownGrows(n, m, fields[key]);
      }
    case ArrayValue(elements) =>
      forall i | 0 <= i < |elements|
        ensures Known(m, elements[i])
      {
        KnownGrows(n, m, elements[i]);
      }
    case _ =>
  }

  lemma AllKnownGrows(n: nat, m: nat, values: seq<Value>)
    requires n <= m && AllKnown(n, values)
    ensures AllKnown(m, values)
  {
    hide Known;
    forall i | 0 <= i < |values|
      ensures Known(m, values[i])
    {
      KnownGrows(n, m, values[i]);
    }
  }

  lemma BindingsGrow(n: nat, m: nat, bindings: seq<Binding>)
    requires n <= m && SealedBindings(n, bindings)
    ensures SealedBindings(m, bindings)
  {
    hide Known;
    forall i | 0 <= i < |bindings| && bindings[i].value.Some?
      ensures Known(m, bindings[i].value.value)
    {
      KnownGrows(n, m, bindings[i].value.value);
    }
  }

  lemma GetKnown(n: nat, value: Value, selector: Selector)
    requires Known(n, value)
    ensures Get(value, selector).Ok? ==> Known(n, Get(value, selector).value)
    ensures Get(value, selector).Err? ==> !Get(value, selector).error.Iteration? && !Get(value, selector).error.InvalidFunctionHandle?
  {
  }

  lemma {:induction false} SetKnown(n: nat, types: seq<TypeDef>, identity: nat, root: Value, selectors: seq<Selector>, value: Value)
    requires Known(n, root) && Known(n, value) && Set(types, identity, root, selectors, value).Ok?
    ensures Known(n, Set(types, identity, root, selectors, value).value)
    decreases |selectors|
  {
    hide CheckValueType, FieldType, FindField;
    if selectors == [] { return; }
    var selector, rest := selectors[0], selectors[1..];
    if root.Record? || root.ObjectValue? {
      var key := KeyOf(selector).value;
      var child := value;
      if rest != [] {
        SetKnown(n, types, identity, root.fields[key], rest, value);
        child := Set(types, identity, root.fields[key], rest, value).value;
      }
      FieldKnown(n, root, key, child);
    } else {
      SetKnown(n, types, identity, root.elements[IndexOf(selector).value], rest, value);
    }
  }

  lemma {:induction false} SetMessage(types: seq<TypeDef>, identity: nat, root: Value, selectors: seq<Selector>, value: Value)
    ensures var r := Set(types, identity, root, selectors, value);
            r.Err? ==> !r.error.Iteration? && !r.error.InvalidFunctionHandle?
    decreases |selectors|
  {
    if selectors == [] { return; }
    var selector, rest := selectors[0], selectors[1..];
    if (root.Record? || root.ObjectValue?) && KeyOf(selector).Some? {
      if KeyOf(selector).value in root.fields {
        SetMessage(types, identity, root.fields[KeyOf(selector).value], rest, value);
      }
    } else if root.ArrayValue? && IndexOf(selector).Some? {
      var index := IndexOf(selector).value;
      if 0 <= index < |root.elements| {
        SetMessage(types, identity, root.elements[index], rest, value);
      }
    }
  }

  lemma FieldKnown(n: nat, root: Value, key: string, child: Value)
    requires Known(n, root) && Known(n, child) && (root.Record? || root.ObjectValue?)
    ensures root.Record? ==> Known(n, root.(fields := root.fields[key := child]))
    ensures root.ObjectValue? ==> Known(n, ObjectValue(root.fields[key := child]))
  {
  }

  lemma CheckTypeMessage(cfg: Config, expected: Option<ResolvedType>, v: Value)
    ensures var m := CheckType(cfg, expected, v); m.Some? ==> !Bare(m.value).InvalidFunctionHandle?
  {
  }

  lemma MapKnown(n: nat, keys: seq<string>, values: seq<Value>)
    requires |keys| == |values| && AllKnown(n, values)
    ensures var fields := ToMap(keys, values); forall key | key in fields :: Known(n, fields[key])
  {
    hide Known;
    var fields := ToMap(keys, values);
    forall key | key in fields
      ensures Known(n, fields[key])
    {
      var i :| 0 <= i < |keys| && keys[i] == key && fields[key] == values[i];
    }
  }

  lemma PureKnown(cfg: Config, n: nat, e: Expr, values: seq<Value>)
    requires IsStrict(e) && |values| == |Operands(e)| && AllKnown(n, values)
    ensures var r := PureResult(cfg, e, values); if r.Ok? then Known(n, r.value) else !Bare(r.error).InvalidFunctionHandle?
  {
    hide Get, ToMap, BinaryResult, UnaryResult;
    match e
    case Construct(_, fields) => MapKnown(n, Keys(fields), values);
    case ObjectLit(fields) => MapKnown(n, Keys(fields), values);
    case Property(_, name) => GetKnown(n, values[0], Member(name));
    case Index(_, _) => GetKnown(n, values[0], At(values[1]));
    case Unary(op, _) => UnaryKnown(n, op, values[0]);
    case Binary(_, op, _) => BinaryKnown(cfg.lib, n, values[0], op, values[1]);
    case _ =>
  }

  lemma UnaryKnown(n: nat, op: UnaryOp, v: Value)
    ensures var r := UnaryResult(op, v); if r.Ok? then Known(n, r.value) else !Bare(r.error).InvalidFunctionHandle?
  {
  }

  lemma BinaryKnown(lib: Library, n: nat, a: Value, op: BinaryOp, b: Value)
    ensures var r := BinaryResult(lib, a, op, b); if r.Ok? then Known(n, r.value) else !Bare(r.error).InvalidFunctionHandle?
  {
    hide Equality, Ordering;
  }

  // ----- the host -----

  lemma HostResultSafe(cfg: Config, f: Frame, st: State, call: HostCall)
    requires Sealed(st) && HostPlain(cfg)
    ensures SafeValue(st, HostResult(cfg, f, st, call))
  {
    hide Known;
    var (asked, reply) := Ask(cfg, st.host, call);
    if reply.Answer? {
      assert Known(0, reply.value);
      KnownGrows(0, |st.functions|, reply.value);
      EmptyKnown(|st.functions|, StringValue(reply.text));
      EmptyKnown(|st.functions|, NullValue);
    }
  }

  lemma EmptyKnown(n: nat, v: Value)
    requires v.StringValue? || v.NullValue?
    ensures Known(n, v)
  {
  }

  lemma EffectSafe(cfg: Config, f: Frame, st: State, op: EffectOp, values: seq<Value>)
    requires Sealed(st) && HostPlain(cfg)
    ensures SafeValue(st, EffectResult(cfg, f, st, op, values))
  {
    hide HostResult, Sealed, HostPlain;
    forall call: HostCall
      ensures SafeValue(st, HostResult(cfg, f, st, call))
    {
      HostResultSafe(cfg, f, st, call);
    }
  }

  lemma CombineSafe(cfg: Config, f: Frame, st: State, e: Expr, values: seq<Value>)
    requires IsStrict(e) && |values| == |Operands(e)| && Sealed(st) && HostPlain(cfg) && AllKnown(|st.functions|, values)
    ensures SafeValue(st, Combine(cfg, f, st, e, values))
  {
    hide EffectResult, PureResult, Sealed, HostPlain, Known, AllKnown;
    EffectSafe(cfg, f, st, if e.Effect? then e.op else Send, values);
    PureKnown(cfg, |st.functions|, e, values);
  }

  lemma BuiltinSafe(cfg: Config, f: Frame, st: State, builtin: Builtin, args: seq<Value>)
    requires Sealed(st) && HostPlain(cfg)
    ensures SafeValue(st, BuiltinResult(cfg, f, st, builtin, args))
  {
    hide HostResult, Sealed, HostPlain;
    forall call: HostCall
      ensures SafeValue(st, HostResult(cfg, f, st, call))
    {
      HostResultSafe(cfg, f, st, call);
    }
  }

  lemma PrintMessage(cfg: Config, h: HostState, text: string)
    ensures var m := Print(cfg, h, text).1; m.Some? ==> !Bare(m.value).InvalidFunctionHandle?
  {
  }

  // ----- bindings -----

  lemma StoreSealed(st: State, id: nat, v: Value)
    requires Sealed(st) && id < |st.bindings| && Known(|st.functions|, v)
    ensures Sealed(Store(st, id, v))
  {
    hide Known;
  }

  lemma AllocateSealed(st: State, annotation: Option<ResolvedType>, value: Option<Value>, mutable: bool)
    requires Sealed(st) && (value.Some? ==> Known(|st.functions|, value.value))
    ensures Sealed(Allocate(st, annotation, value, mutable))
  {
    hide Known;
  }

  lemma ReadKnown(st: State, id: nat)
    requires Sealed(st)
    ensures var r := Read(st, id); if r.Ok? then Known(|st.functions|, r.value) else !Bare(r.error).InvalidFunctionHandle?
  {
    hide Known;
  }

  lemma WriteSafe(cfg: Config, f: Frame, st: State, place: Place, v: Value)
    requires Sealed(st) && Known(|st.functions|, v)
    ensures SafeValue(st, Write(cfg, f, st, place, v))
  {
    hide Sealed, Known, Set, CheckType, Read, Store;
    ReadKnown(st, place.id);
    var root := Read(st, place.id);
    if root.Ok? {
      SetMessage(cfg.types, cfg.identity, root.value, place.selectors, v);
      if Set(cfg.types, cfg.identity, root.value, place.selectors, v).Ok? {
        SetKnown(|st.functions|, cfg.types, cfg.identity, root.value, place.selectors, v);
      }
    }
    if place.id >= |st.bindings| { return; }
    forall changed: Value
      ensures var m := CheckType(cfg, st.bindings[place.id].annotation, changed);
              m.Some? ==> !Bare(m.value).InvalidFunctionHandle?
    {
      CheckTypeMessage(cfg, st.bindings[place.id].annotation, changed);
    }
    forall changed | Known(|st.functions|, changed)
      ensures Sealed(Store(st, place.id, changed)) && Store(st, place.id, changed).functions == st.functions
    {
      StoreSealed(st, place.id, changed);
      StoreKeepsFunctions(st, place.id, changed);
    }
  }

  lemma StoreKeepsFunctions(st: State, id: nat, v: Value)
    requires id < |st.bindings|
    ensures Store(st, id, v).functions == st.functions
  {
  }

  lemma {:induction false} BindParametersSafe(
    cfg: Config, f: Frame, st: State, parameters: seq<Parameter>, args: seq<Value>, i: nat, scope: map<string, nat>)
    requires Sealed(st) && AllKnown(|st.functions|, args)
    ensures Safe(st, BindParameters(cfg, f, st, parameters, args, i, scope))
    decreases |parameters| - i
  {
    hide CheckType, Known, Sealed;
    if i < |parameters| && i < |args| {
      var annotation := ResolveAnnotation(cfg.types, parameters[i].annotation);
      var next := Allocate(st, annotation, Some(args[i]), true);
      CheckTypeMessage(cfg, annotation, args[i]);
      AllocateSealed(st, annotation, Some(args[i]), true);
      BindParametersSafe(cfg, f, next, parameters, args, i + 1, scope[parameters[i].name := |st.bindings|]);
    }
  }

  lemma {:induction false} ReserveSealed(cfg: Config, st: State, stmts: seq<Stmt>, env: Environment, slots: seq<Option<nat>>)
    requires Sealed(st)
    ensures var r := Reserve(cfg, st, stmts, env, slots); Sealed(r.st) && r.st.functions == st.functions
    decreases |stmts| - |slots|
  {
    hide Sealed;
    if |slots| < |stmts| {
      var stmt, more := stmts[|slots|].Unspanned(), slots + [Some(|st.bindings|)];
      if stmt.Let? {
        AllocateSealed(st, ResolveAnnotation(cfg.types, stmt.annotation), None, true);
        ReserveSealed(cfg, Allocate(st, ResolveAnnotation(cfg.types, stmt.annotation), None, true), stmts, env, more);
      } else if stmt.Function? {
        AllocateSealed(st, None, None, false);
        ReserveSealed(cfg, Allocate(st, None, None, false), stmts, Bind(env, stmt.name, |st.bindings|), more);
      } else {
        ReserveSealed(cfg, st, stmts, env, slots + [None]);
      }
    }
  }

  /** A new function and the handle that denotes it. */
  lemma PushSealed(st: State, fn: FunctionDef, id: nat)
    requires Sealed(st) && id < |st.bindings|
    ensures Sealed(Store(st.(functions := st.functions + [fn]), id, FunctionValue(|st.functions|)))
  {
    BindingsGrow(|st.functions|, |st.functions| + 1, st.bindings);
    assert Known(|st.functions| + 1, FunctionValue(|st.functions|));
    StoreSealed(st.(functions := st.functions + [fn]), id, FunctionValue(|st.functions|));
  }

  lemma {:induction false} InstallSealed(cfg: Config, st: State, stmts: seq<Stmt>, slots: seq<Option<nat>>, env: Environment, i: nat)
    requires Sealed(st)
    ensures var next := Install(cfg, st, stmts, slots, env, i); Sealed(next) && |st.functions| <= |next.functions|
    decreases |stmts| - i
  {
    hide Sealed;
    if i < |stmts| && i < |slots| {
      var stmt := stmts[i].Unspanned();
      if stmt.Let? && slots[i].Some? {
        InstallSealed(cfg, st, stmts, slots, Bind(env, stmt.name, slots[i].value), i + 1);
      } else if stmt.Function? && slots[i].Some? && slots[i].value < |st.bindings| {
        var pushed := st.(functions := st.functions + [Definition(cfg, stmts[i], env)]);
        PushSealed(st, Definition(cfg, stmts[i], env), slots[i].value);
        InstallSealed(cfg, Store(pushed, slots[i].value, FunctionValue(|st.functions|)), stmts, slots, env, i + 1);
      } else {
        InstallSealed(cfg, st, stmts, slots, env, i + 1);
      }
    }
  }

  lemma LetResultSafe(cfg: Config, f: Frame, st: State, slot: Option<nat>, value: Expr, v: Value)
    requires Sealed(st) && Known(|st.functions|, v)
    ensures Safe(st, LetResult(cfg, f, st, slot, value, v))
  {
    hide CheckType, Sealed, Known;
    if slot.Some? && slot.value < |st.bindings| {
      CheckTypeMessage(cfg, st.bindings[slot.value].annotation, v);
      StoreSealed(st, slot.value, v);
    }
  }

  lemma LeaveSafe(cfg: Config, inside: Frame, st: State, callee: FunctionDef, flow: Flow)
    requires Sealed(st) && KnownFlow(|st.functions|, flow)
    ensures SafeValue(st, Leave(cfg, inside, st, callee, flow))
  {
    hide CheckType, Sealed;
    CheckTypeMessage(cfg, callee.result, NullValue);
  }

  lemma PlanKnown(cfg: Config, n: nat, f: Frame, s: Stmt, v: Value)
    requires Known(n, v)
    ensures KnownPlan(n, PlanOf(cfg, f, s, v))
  {
    hide CheckType, SelectArm;
    CheckTypeMessage(cfg, f.result, v);
  }

  lemma ElementMessage(cfg: Config, check: Check, i: nat, v: Value)
    ensures var m := ElementError(cfg, check, i, v); m.Some? ==> !Bare(m.value).InvalidFunctionHandle?
  {
    hide CheckType;
    if check.FieldContracts? && check.id < |cfg.types| && i < |check.keys| {
      CheckTypeMessage(cfg, FieldType(cfg.types, cfg.types[check.id].fields, check.keys[i]), v);
    }
  }

  // ----- the evaluator -----

  lemma {:induction false} EvaluateSafe(cfg: Config, f: Frame, st: State, e: Expr, env: Environment)
    requires Sealed(st) && HostPlain(cfg)
    ensures SafeValue(st, Evaluate(cfg, f, st, e, env))
    decreases st.steps, 0, e
  {
    hide Inner, HostPlain, Known;
    if e.Located? {
      EvaluateSafe(cfg, f.(span := Some(e.span)), st, e.inner, env);
    } else if st.steps > 0 && f.depth < cfg.limits.expressionDepth {
      InnerSafe(cfg, f.(depth := f.depth + 1), st.(steps := st.steps - 1), e, env);
    }
  }

  lemma {:induction false} InnerSafe(cfg: Config, f: Frame, st: State, e: Expr, env: Environment)
    requires Sealed(st) && HostPlain(cfg) && !e.Located?
    ensures SafeValue(st, Inner(cfg, f, st, e, env))
    decreases st.steps, 3
  {
    hide Sealed, Assign, Strict, Logical, HostPlain, Known, Read, LookUp;
    if e.Identifier? {
      if LookUp(env, e.name).Some? {
        ReadKnown(st, LookUp(env, e.name).value);
      }
    } else if e.Assignment? {
      AssignSafe(cfg, f, st, e.target, e.value, env);
    } else if IsStrict(e) {
      StrictSafe(cfg, f, st, e, env);
    } else {
      LogicalSafe(cfg, f, st, e.left, e.binary, e.right, env);
    }
  }

  lemma {:induction false} StrictSafe(cfg: Config, f: Frame, st: State, e: Expr, env: Environment)
    requires Sealed(st) && HostPlain(cfg) && IsStrict(e)
    ensures SafeValue(st, Strict(cfg, f, st, e, env))
    decreases st.steps, 2
  {
    hide Sealed, Combine, EvaluateFrom, Apply, HostPlain, Known, CheckOf;
    if Refusal(cfg, e).Some? { return; }
    NoneKnown(|st.functions|);
    EvaluateFromSafe(cfg, f, st, Operands(e), [], CheckOf(cfg, e), env);
    var o := EvaluateFrom(cfg, f, st, Operands(e), [], CheckOf(cfg, e), env);
    StrictSteps(cfg, f, st, e, env);
    if o.res.Err? { return; }
    if e.Call? {
      ApplySafe(cfg, f, o.st, o.res.value[0], o.res.value[1..]);
    } else {
      CombineSafe(cfg, f, o.st, e, o.res.value);
    }
  }

  lemma NoneKnown(n: nat)
    ensures AllKnown(n, [])
  {
  }

  lemma {:induction false} EvaluateFromSafe(
    cfg: Config, f: Frame, st: State, es: seq<Expr>, values: seq<Value>, check: Check, env: Environment)
    requires Sealed(st) && HostPlain(cfg) && AllKnown(|st.functions|, values)
    ensures SafeValues(st, EvaluateFrom(cfg, f, st, es, values, check, env))
    decreases st.steps, 1
  {
    hide Sealed, Evaluate, ElementError, HostPlain, Known;
    if |values| >= |es| { return; }
    EvaluateSafe(cfg, f, st, es[|values|], env);
    var o := Evaluate(cfg, f, st, es[|values|], env);
    if o.res.Err? { return; }
    ElementMessage(cfg, check, |values|, o.res.value);
    if ElementError(cfg, check, |values|, o.res.value).Some? { return; }
    AllKnownGrows(|st.functions|, |o.st.functions|, values);
    EvaluateFromSafe(cfg, f, o.st, es, values + [o.res.value], check, env);
  }

  lemma {:induction false} LogicalSafe(cfg: Config, f: Frame, st: State, left: Expr, op: BinaryOp, right: Expr, env: Environment)
    requires Sealed(st) && HostPlain(cfg)
    ensures SafeValue(st, Logical(cfg, f, st, left, op, right, env))
    decreases st.steps, 2
  {
    hide Sealed, Evaluate, Logical, HostPlain, Known;
    LogicalSteps(cfg, f, st, left, op, right, env);
    EvaluateSafe(cfg, f, st, left, env);
    var l := Evaluate(cfg, f, st, left, env);
    if l.res.Ok? {
      EvaluateSafe(cfg, f, l.st, right, env);
    }
  }

  lemma {:induction false} AssignSafe(cfg: Config, f: Frame, st: State, target: Expr, value: Expr, env: Environment)
    requires Sealed(st) && HostPlain(cfg)
    ensures SafeValue(st, Assign(cfg, f, st, target, value, env))
    decreases st.steps, 2
  {
    hide Sealed, Assign, Evaluate, Target, Write, HostPlain, Known;
    AssignSteps(cfg, f, st, target, value, env);
    TargetSafe(cfg, f, st, target, env);
    var t := Target(cfg, f, st, target, env);
    if t.res.Err? || Permission(f, t.st, t.res.value.id).Some? { return; }
    EvaluateSafe(cfg, f, t.st, value, env);
    var r := Evaluate(cfg, f, t.st, value, env);
    if r.res.Ok? {
      WriteSafe(cfg, f, r.st, t.res.value, r.res.value);
    }
  }

  lemma {:induction false} TargetSafe(cfg: Config, f: Frame, st: State, e: Expr, env: Environment)
    requires Sealed(st) && HostPlain(cfg)
    ensures Safe(st, Target(cfg, f, st, e, env))
    decreases st.steps, 1, e
  {
    if e.Located? {
      TargetSafe(cfg, f.(span := Some(e.span)), st, e.inner, env);
      return;
    }
    hide Known, HostPlain;
    var ticked := st.(steps := if st.steps == 0 then 0 else st.steps - 1);
    assert Sealed(ticked);
    hide Sealed, Target, Evaluate;
    if st.steps == 0 || (!e.Property? && !e.Index?) {
      TargetLeaf(cfg, f, st, e, env);
      return;
    }
    TargetSteps(cfg, f, st, e, env);
    TargetSafe(cfg, f, ticked, e.owner, env);
    var o := Target(cfg, f, ticked, e.owner, env);
    if o.res.Err? || e.Property? { return; }
    EvaluateSafe(cfg, f, o.st, e.index, env);
  }

  lemma {:induction false} ApplySafe(cfg: Config, f: Frame, st: State, callee: Value, args: seq<Value>)
    requires Sealed(st) && HostPlain(cfg) && Known(|st.functions|, callee) && AllKnown(|st.functions|, args)
    ensures SafeValue(st, Apply(cfg, f, st, callee, args))
    decreases st.steps, 8
  {
    hide BuiltinResult, Print, HostPlain, CallFunction, AllKnown;
    if callee.BuiltinValue? {
      BuiltinSafe(cfg, f, st, callee.builtin, args);
    } else if callee.PrintValue? {
      PrintMessage(cfg, st.host, Joined(cfg, args));
    } else if callee.FunctionValue? {
      CallSafe(cfg, f, st, st.functions[callee.id], args);
    }
  }

  lemma {:induction false} CallSafe(cfg: Config, f: Frame, st: State, callee: FunctionDef, args: seq<Value>)
    requires Sealed(st) && HostPlain(cfg) && AllKnown(|st.functions|, args)
    ensures SafeValue(st, CallFunction(cfg, f, st, callee, args))
    decreases st.steps, 7
  {
    hide Sealed, BindParameters, Leave, Body, Known, HostPlain;
    BindParametersSafe(cfg, f, st, callee.parameters, args, 0, map[]);
    var bound := BindParameters(cfg, f, st, callee.parameters, args, 0, map[]);
    if bound.res.Err? { return; }
    BodySafe(cfg, Enter(f, callee), bound.st, callee.body, callee.closure + [bound.res.value]);
    var o := Body(cfg, Enter(f, callee), bound.st, callee.body, callee.closure + [bound.res.value]);
    if o.res.Ok? {
      LeaveSafe(cfg, Enter(f, callee), o.st, callee, o.res.value);
    }
  }

  lemma {:induction false} StatementsSafe(cfg: Config, f: Frame, st: State, stmts: seq<Stmt>, env: Environment)
    requires Sealed(st) && HostPlain(cfg)
    ensures SafeFlow(st, Statements(cfg, f, st, stmts, env))
    decreases st.steps, 4
  {
    hide Sealed, Reserve, Install, ExecuteFrom, HostPlain, Known;
    ReserveSealed(cfg, st, stmts, env, []);
    var r := Reserve(cfg, st, stmts, env, []);
    InstallSealed(cfg, r.st, stmts, r.slots, r.env, 0);
    ExecuteFromSafe(cfg, f, Install(cfg, r.st, stmts, r.slots, r.env, 0), stmts, r.slots, r.env, 0);
  }

  lemma {:induction false} RunLetSafe(cfg: Config, f: Frame, st: State, slot: Option<nat>, value: Expr, env: Environment)
    requires Sealed(st) && HostPlain(cfg)
    ensures Safe(st, RunLet(cfg, f, st, slot, value, env))
    decreases st.steps, 1
  {
    hide Sealed, Evaluate, LetResult, HostPlain, Known;
    EvaluateSafe(cfg, f, st, value, env);
    var o := Evaluate(cfg, f, st, value, env);
    if o.res.Ok? {
      LetResultSafe(cfg, f, o.st, slot, value, o.res.value);
    }
  }

  lemma TickSealed(st: State)
    requires Sealed(st) && st.steps > 0
    ensures Sealed(st.(steps := st.steps - 1))
  {
  }

  lemma {:induction false} ExecuteFromSafe(
    cfg: Config, f: Frame, st: State, stmts: seq<Stmt>, slots: seq<Option<nat>>, env: Environment, i: nat)
    requires Sealed(st) && HostPlain(cfg)
    ensures SafeFlow(st, ExecuteFrom(cfg, f, st, stmts, slots, env, i))
    decreases st.steps, 3
  {
    if i >= |stmts| || i >= |slots| || st.steps == 0 { return; }
    hide Sealed, ExecuteFrom, RunLet, Execute, HostPlain, Known;
    ExecuteFromSteps(cfg, f, st, stmts, slots, env, i);
    var stmt, here := stmts[i].Unspanned(), f.(span := stmts[i].Where().Or(f.span));
    var ticked := st.(steps := st.steps - 1);
    TickSealed(st);
    if stmt.Let? {
      RunLetSafe(cfg, here, ticked, slots[i], stmt.value, env);
      var l := RunLet(cfg, here, ticked, slots[i], stmt.value, env);
      if l.res.Err? { return; }
      ExecuteFromSafe(cfg, f, l.st, stmts, slots, Bind(env, stmt.name, slots[i].GetOr(0)), i + 1);
    } else {
      ExecuteSafe(cfg, here, ticked, stmt, env);
      var o := Execute(cfg, here, ticked, stmt, env);
      if o.res.Err? || !o.res.value.Normal? { return; }
      ExecuteFromSafe(cfg, f, o.st, stmts, slots, env, i + 1);
    }
  }

  lemma {:induction false} BodySafe(cfg: Config, f: Frame, st: State, body: Stmt, env: Environment)
    requires Sealed(st) && HostPlain(cfg)
    ensures SafeFlow(st, Body(cfg, f, st, body, env))
    decreases st.steps, 5, body
  {
    hide Sealed, Statements, HostPlain, Known;
    if body.LocatedStmt? {
      BodySafe(cfg, f.(span := Some(body.span)), st, body.inner, env);
    } else {
      StatementsSafe(cfg, f, st, if body.Block? then body.statements else [body], env);
    }
  }

  lemma SettleSafe(f: Frame, st: State, plan: Plan)
    requires Sealed(st) && KnownPlan(|st.functions|, plan)
    ensures SafeFlow(st, Settle(f, st, plan))
  {
    hide Sealed, Known;
  }

  lemma {:induction false} ExecuteSafe(cfg: Config, f: Frame, st: State, s: Stmt, env: Environment)
    requires Sealed(st) && HostPlain(cfg)
    ensures SafeFlow(st, Execute(cfg, f, st, s, env))
    decreases st.steps, 8, s
  {
    hide Sealed, PlanOf, Evaluate, Resume, Body, Settle, HostPlain, Known, KnownPlan;
    if s.LocatedStmt? {
      ExecuteSafe(cfg, f.(span := Some(s.span)), st, s.inner, env);
    } else if s.Block? {
      BodySafe(cfg, f, st, s, env + [map[]]);
    } else if HeadOf(s).None? {
      EmptyKnown(|st.functions|, NullValue);
      PlanKnown(cfg, |st.functions|, f, s, NullValue);
      SettleSafe(f, st, PlanOf(cfg, f, s, NullValue));
    } else {
      EvaluateSafe(cfg, f, st, HeadOf(s).value, env);
      var o := Evaluate(cfg, f, st, HeadOf(s).value, env);
      if o.res.Err? { return; }
      PlanKnown(cfg, |o.st.functions|, f, s, o.res.value);
      ResumeSafe(cfg, f, o.st, s, PlanOf(cfg, f, s, o.res.value), env);
    }
  }

  lemma SnapSealed(st: State)
    requires Sealed(st)
    ensures SealedSnapshot(Snap(st))
  {
  }

  lemma {:induction false} ResumeSafe(cfg: Config, f: Frame, st: State, s: Stmt, plan: Plan, env: Environment)
    requires Sealed(st) && HostPlain(cfg) && KnownPlan(|st.functions|, plan)
    ensures SafeFlow(st, Resume(cfg, f, st, s, plan, env))
    decreases st.steps, 10
  {
    hide Sealed, Body, Execute, EachFrom, Settle, HostPlain, Known, Resume, Batches, AllKnown;
    ResumeSteps(cfg, f, st, s, plan, env);
    match plan
    case Run(body) => BodySafe(cfg, f, st, body, env + [map[]]);
    case Repeat(body) =>
      BodySafe(cfg, f, st, body, env + [map[]]);
      var b := Body(cfg, f, st, body, env + [map[]]);
      if b.res.Err? || b.res.value.ReturnFlow? || b.res.value.BreakFlow? { return; }
      ExecuteSafe(cfg, f, b.st, s, env);
    case Iterate(variable, values, body) => EachSafe(cfg, f, st, variable, values, 0, body, env);
    case Spread(variable, values, body) =>
      SnapSealed(st);
      BatchesSafe(cfg, f, st, Snap(st), variable, values, 0, Width(cfg, f), body, env);
    case _ => SettleSafe(f, st, plan);
  }

  lemma {:induction false} EachSafe(
    cfg: Config, f: Frame, st: State, variable: string, values: seq<Value>, i: nat, body: Stmt, env: Environment)
    requires Sealed(st) && HostPlain(cfg) && AllKnown(|st.functions|, values)
    ensures SafeFlow(st, EachFrom(cfg, f, st, variable, values, i, body, env))
    decreases st.steps, 7
  {
    if i >= |values| || st.steps == 0 { return; }
    hide Sealed, Body, EachFrom, HostPlain, Known;
    EachSteps(cfg, f, st, variable, values, i, body, env);
    var ticked := st.(steps := st.steps - 1);
    TickSealed(st);
    AllocateSealed(ticked, None, Some(values[i]), true);
    var entered := Allocate(ticked, None, Some(values[i]), true);
    var scope := env + [map[variable := |st.bindings|]];
    BodySafe(cfg, f, entered, body, scope);
    var b := Body(cfg, f, entered, body, scope);
    if b.res.Err? || b.res.value.ReturnFlow? || b.res.value.BreakFlow? { return; }
    AllKnownGrows(|st.functions|, |b.st.functions|, values);
    EachSafe(cfg, f, b.st, variable, values, i + 1, body, env);
  }

  // ----- parallel iterations -----

  predicate SealedSnapshot(snapshot: Snapshot) {
    SealedBindings(|snapshot.functions|, snapshot.bindings)
  }

  predicate AllSafe(outcomes: seq<Outcome>) {
    forall i | 0 <= i < |outcomes| && outcomes[i].error.Some? :: !Dangling(outcomes[i].error.value)
  }

  lemma {:induction false} ForkSafe(cfg: Config, f: Frame, st: State, count: nat, hosts: seq<HostState>)
    ensures var o := ForkFrom(cfg, f, st, count, hosts);
            && o.st.bindings == st.bindings && o.st.functions == st.functions
            && (o.res.Err? ==> !Dangling(o.res.error))
    decreases count - |hosts|
  {
    if |hosts| < count && st.steps > 0 {
      var (asked, reply) := Ask(cfg, st.host, Fork);
      if reply.Answer? {
        ForkSafe(cfg, f, st.(steps := st.steps - 1, host := asked), count, hosts + [HostState(asked.history + [Forked], None)]);
      }
    }
  }

  lemma StartSealed(snapshot: Snapshot, steps: nat, host: HostState, value: Value)
    requires SealedSnapshot(snapshot) && Known(|snapshot.functions|, value)
    ensures Sealed(WorkerStart(snapshot, steps, host, value))
  {
    hide Known;
  }

  lemma {:induction false} WorkerSafe(
    cfg: Config, f: Frame, snapshot: Snapshot, steps: nat, host: HostState, value: Value, variable: string,
    body: Stmt, env: Environment, index: nat)
    requires HostPlain(cfg) && SealedSnapshot(snapshot) && Known(|snapshot.functions|, value)
    ensures var o := WorkerOutcome(f, Worker(cfg, f, snapshot, steps, host, value, variable, body, env), index);
            o.error.Some? ==> !Dangling(o.error.value)
    decreases steps, 6
  {
    hide Sealed, SealedSnapshot, Body, HostPlain, Known, WorkerOutcome, Dangling;
    StartSealed(snapshot, steps, host, value);
    BodySafe(cfg, WorkerFrame(f, snapshot), WorkerStart(snapshot, steps, host, value), body,
             env + [map[variable := |snapshot.bindings|]]);
    LabelSafe(f, Worker(cfg, f, snapshot, steps, host, value, variable, body, env), index);
  }

  lemma LabelSafe(f: Frame, o: Out<Flow>, index: nat)
    requires o.res.Err? ==> !Dangling(o.res.error)
    ensures var e := WorkerOutcome(f, o, index).error; e.Some? ==> !Dangling(e.value)
  {
    var e := WorkerOutcome(f, o, index).error;
    if e.Some? {
      assert Bare(e.value.message) == Bare(e.value.message.inner);
    }
  }

  lemma {:induction false} WorkersSafe(
    cfg: Config, f: Frame, st: State, snapshot: Snapshot, variable: string, values: seq<Value>, first: nat,
    hosts: seq<HostState>, done: seq<Outcome>, body: Stmt, env: Environment)
    requires HostPlain(cfg) && SealedSnapshot(snapshot) && AllKnown(|snapshot.functions|, values) && AllSafe(done)
    ensures AllSafe(WorkersFrom(cfg, f, st, snapshot, variable, values, first, hosts, done, body, env).outcomes)
    decreases st.steps, 7, |values| - |done|
  {
    hide SealedSnapshot, Worker, WorkerOutcome, HostPlain, Known, Dangling;
    if |done| < |values| && |done| < |hosts| {
      var k := |done|;
      WorkerSafe(cfg, f, snapshot, st.steps, hosts[k], values[k], variable, body, env, first + k);
      var o := Worker(cfg, f, snapshot, st.steps, hosts[k], values[k], variable, body, env);
      WorkersSafe(cfg, f, st.(steps := o.st.steps), snapshot, variable, values, first, hosts,
                  done + [WorkerOutcome(f, o, first + k)], body, env);
    }
  }

  lemma {:induction false} PrintFromSafe(cfg: Config, f: Frame, h: HostState, lines: seq<string>, i: nat)
    ensures var e := PrintFrom(cfg, f, h, lines, i).1; e.Some? ==> !Dangling(e.value)
    decreases |lines| - i
  {
    hide Print;
    if i < |lines| {
      PrintMessage(cfg, h, lines[i]);
      PrintFromSafe(cfg, f, Print(cfg, h, lines[i]).0, lines, i + 1);
    }
  }

  lemma {:induction false} ReplaySafe(
    cfg: Config, f: Frame, h: HostState, outcomes: seq<Outcome>, i: nat, first: Option<RuntimeError>)
    requires AllSafe(outcomes) && (first.Some? ==> !Dangling(first.value))
    ensures var e := Replay(cfg, f, h, outcomes, i, first).1; e.Some? ==> !Dangling(e.value)
    decreases |outcomes| - i
  {
    hide PrintFrom, Dangling;
    if i < |outcomes| {
      PrintFromSafe(cfg, f, h, outcomes[i].lines, 0);
      var (next, failure) := PrintFrom(cfg, f, h, outcomes[i].lines, 0);
      ReplaySafe(cfg, f, next, outcomes, i + 1, first.Or(failure).Or(outcomes[i].error));
    }
  }

  lemma {:induction false} BatchSafe(
    cfg: Config, f: Frame, st: State, snapshot: Snapshot, variable: string, values: seq<Value>, first: nat,
    body: Stmt, env: Environment)
    requires Sealed(st) && HostPlain(cfg) && SealedSnapshot(snapshot) && AllKnown(|snapshot.functions|, values)
    ensures SafeFlow(st, Batch(cfg, f, st, snapshot, variable, values, first, body, env))
    decreases st.steps, 8
  {
    hide ForkFrom, WorkersFrom, Replay, HostPlain, Known, Dangling, SealedSnapshot;
    ForkSafe(cfg, f, st, |values|, []);
    var forked := ForkFrom(cfg, f, st, |values|, []);
    if forked.res.Err? { return; }
    WorkersSafe(cfg, f, forked.st, snapshot, variable, values, first, forked.res.value, [], body, env);
    var w := WorkersFrom(cfg, f, forked.st, snapshot, variable, values, first, forked.res.value, [], body, env);
    ReplaySafe(cfg, f, w.st.host, w.outcomes, 0, None);
  }

  lemma {:induction false} BatchesSafe(
    cfg: Config, f: Frame, st: State, snapshot: Snapshot, variable: string, values: seq<Value>, start: nat, width: nat,
    body: Stmt, env: Environment)
    requires width >= 1
    requires Sealed(st) && HostPlain(cfg) && SealedSnapshot(snapshot) && AllKnown(|snapshot.functions|, values)
    ensures SafeFlow(st, Batches(cfg, f, st, snapshot, variable, values, start, width, body, env))
    decreases st.steps, 9
  {
    hide Batch, HostPlain, Known, SealedSnapshot, Sealed;
    if start >= |values| { return; }
    var end := if start + width <= |values| then start + width else |values|;
    BatchSafe(cfg, f, st, snapshot, variable, values[start..end], start, body, env);
    var b := Batch(cfg, f, st, snapshot, variable, values[start..end], start, body, env);
    if b.res.Ok? {
      BatchesSafe(cfg, f, b.st, snapshot, variable, values, end, width, body, env);
    }
  }

  // ----- programs -----

  lemma StartIsSealed(cfg: Config)
    ensures Sealed(StartState(cfg))
  {
  }

  lemma MainIsKnown(cfg: Config, statements: seq<Stmt>, after: State)
    requires Sealed(after)
    ensures var main := MainFunction(cfg, statements, after); main.Some? ==> Known(|after.functions|, main.value)
  {
    hide Known, Reserve;
  }

  /**
   * Whatever the program, accepted or not: every function handle of the final
   * state denotes a function, and no call fails for an invalid handle.
   */
  lemma NoHandleDangles(cfg: Config, statements: seq<Stmt>)
    requires HostPlain(cfg)
    ensures var o := RunProgram(cfg, statements);
            && Sealed(o.st)
            && (o.res.Ok? ==> Known(|o.st.functions|, o.res.value))
            && (o.res.Err? ==> !Bare(o.res.error.message).InvalidFunctionHandle?)
  {
    hide Sealed, Known, Statements, MainFunction, Apply, HostPlain, StartState, BuiltinEnvironment, BadMain;
    StartIsSealed(cfg);
    if BadMain(statements, 0).Some? { return; }
    StatementsSafe(cfg, TOP, StartState(cfg), statements, BuiltinEnvironment());
    var o := Statements(cfg, TOP, StartState(cfg), statements, BuiltinEnvironment());
    if o.res.Err? { return; }
    MainIsKnown(cfg, statements, o.st);
    var main := MainFunction(cfg, statements, o.st);
    NoneKnown(|o.st.functions|);
    if main.Some? {
      ApplySafe(cfg, TOP, o.st, main.value, []);
    } else {
      EmptyKnown(|o.st.functions|, NullValue);
    }
  }
}
