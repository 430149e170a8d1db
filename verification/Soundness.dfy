/**
 * The analyzer is right about the interpreter. Every lemma follows one function
 * of Evaluation: from a program point that fits its analysis, evaluation ends in
 * a state that still fits, with a value of the known type or an allowed error.
 */
module Soundness {
  import opened Wrappers
  import opened Ast
  import opened Types
  import opened Values
  import opened Operations
  import opened Analysis
  import opened Evaluation
  import opened Equations
  import opened Evolution
  import opened Typing
  import opened Worlds
  import opened Lists

  ghost predicate Fine(cfg: Config, functions: seq<FunctionDef>, scopes: Scopes, e: Expr, v: Value) {
    Describes(cfg.types, cfg.identity, scopes, e, v) && CalleeFits(functions, scopes, e, v)
  }

  ghost predicate EvaluateOk(cfg: Config, base: nat, functions: seq<FunctionDef>, scopes: Scopes, e: Expr, res: Result<Value, RuntimeError>) {
    match res
    case Ok(v) => Fine(cfg, functions, scopes, e, v)
    case Err(error) => Allowed(base, error)
  }

  ghost predicate AllFine(cfg: Config, functions: seq<FunctionDef>, scopes: Scopes, es: seq<Expr>, values: seq<Value>) {
    |values| <= |es| && forall i | 0 <= i < |values| :: Fine(cfg, functions, scopes, es[i], values[i])
  }

  ghost predicate AllClean(c: Context, es: seq<Expr>) {
    forall i | 0 <= i < |es| :: ExpressionErrors(c, es[i]) == []
  }

  ghost predicate AllWellTyped(cfg: Config, values: seq<Value>) {
    forall i | 0 <= i < |values| :: WellTyped(cfg.types, cfg.identity, values[i])
  }

  /** How control may leave a statement: only as far as the analyzer saw a construct that stops it. */
  ghost predicate FlowOk(cfg: Config, f: Frame, c: Context, flow: Flow) {
    match flow
    case Normal => true
    case BreakFlow => c.loops != [] && c.loops[|c.loops| - 1].SerialLoop?
    case ContinueFlow => c.loops != []
    case ReturnFlow(v) =>
      && c.functionDepth > 0 && !ReturnsFromWorker(c)
      && WellTyped(cfg.types, cfg.identity, v)
      && (f.result.Some? ==> HasType(cfg.identity, f.result.value, v))
  }

  ghost predicate StatementOk(cfg: Config, base: nat, f: Frame, c: Context, res: Result<Flow, RuntimeError>) {
    match res
    case Ok(flow) => FlowOk(cfg, f, c, flow)
    case Err(error) => Allowed(base, error)
  }

  /** The result of a call, typed by the callee's annotation. */
  ghost predicate CallOk(cfg: Config, base: nat, result: Option<ResolvedType>, res: Result<Value, RuntimeError>) {
    match res
    case Ok(v) => WellTyped(cfg.types, cfg.identity, v) && (result.Some? ==> HasType(cfg.identity, result.value, v))
    case Err(error) => Allowed(base, error)
  }

  // ----- leaves -----

  lemma CheckTypeMeaning(cfg: Config, expected: Option<ResolvedType>, v: Value)
    requires expected.Some? ==> InRange(cfg.types, expected.value)
    ensures CheckType(cfg, expected, v).None? <==> (expected.Some? ==> HasType(cfg.identity, expected.value, v))
    ensures CheckType(cfg, expected, v).Some? ==> Harmless(CheckType(cfg, expected, v).value)
  {
  }

  lemma ElementErrorHarmless(cfg: Config, check: Check, i: nat, v: Value)
    requires check.FieldContracts? ==> check.id < |cfg.types| && i < |check.keys|
    ensures ElementError(cfg, check, i, v).Some? ==> Harmless(ElementError(cfg, check, i, v).value)
  {
  }

  lemma EffectSound(cfg: Config, base: nat, f: Frame, st: State, op: EffectOp, values: seq<Value>)
    requires HostOk(cfg)
    ensures CallOk(cfg, base, None, EffectResult(cfg, f, st, op, values).res)
  {
  }

  lemma BuiltinSound(cfg: Config, base: nat, f: Frame, st: State, b: Builtin, args: seq<Value>)
    requires HostOk(cfg)
    ensures CallOk(cfg, base, None, BuiltinResult(cfg, f, st, b, args).res)
  {
  }

  lemma CalleeGrows(a: seq<FunctionDef>, b: seq<FunctionDef>, scopes: Scopes, e: Expr, v: Value)
    requires a <= b && CalleeFits(a, scopes, e, v)
    ensures CalleeFits(b, scopes, e, v)
  {
  }

  lemma AllFineGrows(cfg: Config, a: seq<FunctionDef>, b: seq<FunctionDef>, scopes: Scopes, es: seq<Expr>, values: seq<Value>)
    requires a <= b && AllFine(cfg, a, scopes, es, values)
    ensures AllFine(cfg, b, scopes, es, values)
  {
    forall i | 0 <= i < |values|
      ensures Fine(cfg, b, scopes, es[i], values[i])
    {
      assert Fine(cfg, a, scopes, es[i], values[i]);
      CalleeGrows(a, b, scopes, es[i], values[i]);
    }
  }

  lemma LandsTick(cfg: Config, captured: nat, st: State, w: World)
    requires Fits(cfg, captured, st, w) && st.steps > 0
    ensures Lands(cfg, captured, st, w, st.(steps := st.steps - 1), w)
  {
    LandsHere(cfg, captured, st, w, st.(steps := st.steps - 1));
  }

  /** Combining the values of a strict node other than a call. */
  lemma CombineSound(cfg: Config, base: nat, f: Frame, st: State, w: World, e: Expr, values: seq<Value>, env: Environment, c: Context)
    requires Point(cfg, base, f, st, w, env, c)
    requires IsStrict(e) && !e.Call? && ExpressionErrors(c, e) == [] && |values| == |Operands(e)| && Refusal(cfg, e).None?
    requires DescribesAll(cfg.types, cfg.identity, c.scopes, Operands(e), values) && Checked(cfg, CheckOf(cfg, e), values)
    ensures var o := Combine(cfg, f, st, e, values);
            Lands(cfg, f.captured, st, w, o.st, w) && EvaluateOk(cfg, base, o.st.functions, c.scopes, e, o.res)
  {
    var o := Combine(cfg, f, st, e, values);
    CombineEvolves(cfg, f, st, e, values);
    LandsHere(cfg, f.captured, st, w, o.st);
    if e.Effect? {
      EffectSound(cfg, base, f, st, e.op, values);
    } else {
      PureHarmless(cfg, e, values);
      if o.res.Ok? {
        PureDescribed(cfg, c, e, values);
      }
    }
  }

  // ----- expressions -----

  /** A location wrapper changes neither the known type nor the callee. */
  lemma LocatedFine(cfg: Config, base: nat, functions: seq<FunctionDef>, scopes: Scopes, e: Expr, res: Result<Value, RuntimeError>)
    requires e.Located? && EvaluateOk(cfg, base, functions, scopes, e.inner, res)
    ensures EvaluateOk(cfg, base, functions, scopes, e, res)
  {
  }

  lemma {:induction false} SoundEvaluate(
    cfg: Config, base: nat, f: Frame, st: State, w: World, e: Expr, env: Environment, c: Context)
    returns (w': World)
    requires Point(cfg, base, f, st, w, env, c) && ExpressionErrors(c, e) == []
    ensures var o := Evaluate(cfg, f, st, e, env);
            Lands(cfg, f.captured, st, w, o.st, w') && EvaluateOk(cfg, base, o.st.functions, c.scopes, e, o.res)
    decreases st.steps, 0, e
  {
    hide Point, Lands, Fits, Fine, ExpressionErrors, Operands, RegistryOk, HostOk;
    PointFacts(cfg, base, f, st, w, env, c);
    PlaceParts(c, e);
    if e.Located? {
      Moves(cfg, base, f, f.(span := Some(e.span)), st, w, env, c, c.(span := Some(e.span)));
      w' := SoundEvaluate(cfg, base, f.(span := Some(e.span)), st, w, e.inner, env, c.(span := Some(e.span)));
      var o := Evaluate(cfg, f.(span := Some(e.span)), st, e.inner, env);
      LocatedFine(cfg, base, o.st.functions, c.scopes, e, o.res);
      return;
    }
    hide Evaluate, Inner;
    EvaluateSteps(cfg, f, st, e, env);
    w' := w;
    LandsSame(cfg, f.captured, st, w);
    if st.steps == 0 { return; }
    var ticked := st.(steps := st.steps - 1);
    LandsTick(cfg, f.captured, st, w);
    Stays(cfg, base, f, st, w, env, c, ticked, w);
    if f.depth >= cfg.limits.expressionDepth { return; }
    var deeper := f.(depth := f.depth + 1);
    Moves(cfg, base, f, deeper, ticked, w, env, c, c);
    w' := SoundInner(cfg, base, deeper, ticked, w, e, env, c);
    LandsThen(cfg, f.captured, st, w, ticked, w, Inner(cfg, deeper, ticked, e, env).st, w');
  }

  lemma {:induction false} SoundInner(
    cfg: Config, base: nat, f: Frame, st: State, w: World, e: Expr, env: Environment, c: Context)
    returns (w': World)
    requires Point(cfg, base, f, st, w, env, c) && ExpressionErrors(c, e) == [] && !e.Located?
    ensures var o := Inner(cfg, f, st, e, env);
            Lands(cfg, f.captured, st, w, o.st, w') && EvaluateOk(cfg, base, o.st.functions, c.scopes, e, o.res)
    decreases st.steps, 3
  {
    hide Point, Lands, Fits, WellTyped, HasName, RegistryOk, HostOk;
    PointFacts(cfg, base, f, st, w, env, c);
    if e.Identifier? {
      VariableSound(cfg, base, f, st, w, env, c, e.name);
      LandsSame(cfg, f.captured, st, w);
      w' := w;
    } else if e.Assignment? {
      w' := SoundAssign(cfg, base, f, st, w, e, env, c);
    } else if IsStrict(e) {
      w' := SoundStrict(cfg, base, f, st, w, e, env, c);
    } else {
      w' := SoundLogical(cfg, base, f, st, w, e, env, c);
    }
  }

  lemma {:induction false} SoundStrict(
    cfg: Config, base: nat, f: Frame, st: State, w: World, e: Expr, env: Environment, c: Context)
    returns (w': World)
    requires Point(cfg, base, f, st, w, env, c) && ExpressionErrors(c, e) == [] && IsStrict(e)
    ensures var o := Strict(cfg, f, st, e, env);
            Lands(cfg, f.captured, st, w, o.st, w') && EvaluateOk(cfg, base, o.st.functions, c.scopes, e, o.res)
    decreases st.steps, 2
  {
    hide Point, Lands, Fits, WellTyped, HasName, Combine, RegistryOk, HostOk, Strict, EvaluateFrom, Apply;
    PointFacts(cfg, base, f, st, w, env, c);
    assert Refusal(cfg, e).None?;
    StrictSteps(cfg, f, st, e, env);
    forall k | 0 <= k < |Operands(e)|
      ensures ExpressionErrors(c, Operands(e)[k]) == []
    {
      OperandsClean(c, e, k);
    }
    w' := SoundFrom(cfg, base, f, st, w, Operands(e), [], CheckOf(cfg, e), env, c);
    var o := EvaluateFrom(cfg, f, st, Operands(e), [], CheckOf(cfg, e), env);
    if o.res.Err? { return; }
    Stays(cfg, base, f, st, w, env, c, o.st, w');
    var w1 := w';
    if e.Call? {
      w' := SoundDirectCall(cfg, base, f, o.st, w1, e, o.res.value, env, c);
      LandsThen(cfg, f.captured, st, w, o.st, w1, Apply(cfg, f, o.st, o.res.value[0], o.res.value[1..]).st, w');
    } else {
      CombineSound(cfg, base, f, o.st, w1, e, o.res.value, env, c);
      LandsThen(cfg, f.captured, st, w, o.st, w1, Combine(cfg, f, o.st, e, o.res.value).st, w1);
    }
  }

  /** A call whose callee and arguments have values. */
  lemma {:induction false} SoundDirectCall(
    cfg: Config, base: nat, f: Frame, st: State, w: World, e: Expr, values: seq<Value>, env: Environment, c: Context)
    returns (w': World)
    requires Point(cfg, base, f, st, w, env, c) && e.Call? && |values| == |Operands(e)|
    requires AllFine(cfg, st.functions, c.scopes, Operands(e), values)
    ensures var o := Apply(cfg, f, st, values[0], values[1..]);
            Lands(cfg, f.captured, st, w, o.st, w') && EvaluateOk(cfg, base, o.st.functions, c.scopes, e, o.res)
    decreases st.steps, 9
  {
    hide Point, Lands, Fits, RegistryOk, HostOk;
    assert Fine(cfg, st.functions, c.scopes, Operands(e)[0], values[0]);
    forall i | 0 <= i < |values[1..]|
      ensures WellTyped(cfg.types, cfg.identity, values[1..][i])
    {
      assert Fine(cfg, st.functions, c.scopes, Operands(e)[i + 1], values[i + 1]);
    }
    w' := SoundApply(cfg, base, f, st, w, values[0], values[1..], env, c);
    var o := Apply(cfg, f, st, values[0], values[1..]);
    if o.res.Ok? && KnownType(c.types, c.scopes, e).Some? {
      var result := LookUpSymbol(c.scopes, e.callee.Unspanned().name).value.result.value;
      TypeHasName(cfg.types, cfg.identity, o.res.value, result);
    }
  }

  lemma {:induction false} SoundFrom(
    cfg: Config, base: nat, f: Frame, st: State, w: World, es: seq<Expr>, values: seq<Value>, check: Check,
    env: Environment, c: Context)
    returns (w': World)
    requires Point(cfg, base, f, st, w, env, c) && AllClean(c, es)
    requires AllFine(cfg, st.functions, c.scopes, es, values) && Checked(cfg, check, values)
    requires check.FieldContracts? ==> check.id < |cfg.types| && |check.keys| == |es|
    ensures var o := EvaluateFrom(cfg, f, st, es, values, check, env);
            && Lands(cfg, f.captured, st, w, o.st, w')
            && (o.res.Err? ==> Allowed(base, o.res.error))
            && (o.res.Ok? ==> |o.res.value| == |es| && AllFine(cfg, o.st.functions, c.scopes, es, o.res.value))
            && (o.res.Ok? ==> Checked(cfg, check, o.res.value))
    decreases st.steps, 1
  {
    hide Point, Lands, Fits, Fine, ElementError, ExpressionErrors, RegistryOk, HostOk;
    PointFacts(cfg, base, f, st, w, env, c);
    w' := w;
    LandsSame(cfg, f.captured, st, w);
    if |values| >= |es| { return; }
    var i := |values|;
    w' := SoundEvaluate(cfg, base, f, st, w, es[i], env, c);
    var o := Evaluate(cfg, f, st, es[i], env);
    if o.res.Err? { return; }
    ElementErrorHarmless(cfg, check, i, o.res.value);
    if ElementError(cfg, check, i, o.res.value).Some? { return; }
    Stays(cfg, base, f, st, w, env, c, o.st, w');
    LandsGrows(cfg, f.captured, st, w, o.st, w');
    AllFineGrows(cfg, st.functions, o.st.functions, c.scopes, es, values);
    var more := values + [o.res.value];
    var w1 := w';
    w' := SoundFrom(cfg, base, f, o.st, w1, es, more, check, env, c);
    LandsThen(cfg, f.captured, st, w, o.st, w1, EvaluateFrom(cfg, f, o.st, es, more, check, env).st, w');
  }

  lemma LogicalFine(cfg: Config, functions: seq<FunctionDef>, scopes: Scopes, e: Expr, v: Value)
    requires e.Binary? && IsLogical(e.binary) && v.BooleanValue?
    ensures Fine(cfg, functions, scopes, e, v)
  {
  }

  lemma {:induction false} SoundLogical(
    cfg: Config, base: nat, f: Frame, st: State, w: World, e: Expr, env: Environment, c: Context)
    returns (w': World)
    requires Point(cfg, base, f, st, w, env, c) && ExpressionErrors(c, e) == [] && e.Binary? && IsLogical(e.binary)
    ensures var o := Logical(cfg, f, st, e.left, e.binary, e.right, env);
            Lands(cfg, f.captured, st, w, o.st, w') && EvaluateOk(cfg, base, o.st.functions, c.scopes, e, o.res)
    decreases st.steps, 2
  {
    hide Point, Lands, Fine, Operands, RegistryOk, HostOk;
    w' := SoundEvaluate(cfg, base, f, st, w, e.left, env, c);
    var l := Evaluate(cfg, f, st, e.left, env);
    if l.res.Err? || !l.res.value.BooleanValue? { return; }
    LogicalFine(cfg, l.st.functions, c.scopes, e, l.res.value);
    if (e.binary.And? && !l.res.value.boolean) || (e.binary.Or? && l.res.value.boolean) { return; }
    Stays(cfg, base, f, st, w, env, c, l.st, w');
    var w1 := w';
    w' := SoundEvaluate(cfg, base, f, l.st, w1, e.right, env, c);
    var r := Evaluate(cfg, f, l.st, e.right, env);
    LandsThen(cfg, f.captured, st, w, l.st, w1, r.st, w');
    if r.res.Ok? && r.res.value.BooleanValue? {
      LogicalFine(cfg, r.st.functions, c.scopes, e, r.res.value);
    }
  }

  // ----- assignment -----

  lemma {:induction false} NamedClean(c: Context, e: Expr)
    requires e.Unspanned().Identifier? && LookUpSymbol(c.scopes, e.Unspanned().name).Some?
    ensures ExpressionErrors(c, e) == []
    decreases e
  {
    if e.Located? {
      NamedClean(c.(span := Some(e.span)), e.inner);
    }
  }

  /** A clean assignment has a clean, uncaptured target and a clean right-hand side. */
  lemma AssignmentParts(c: Context, e: Expr)
    requires e.Assignment? && ExpressionErrors(c, e) == []
    ensures ExpressionErrors(Here(c, e.target.Where()), e.target) == []
    ensures ExpressionErrors(c, e.value) == []
    ensures !CapturesRoot(c, e.target)
  {
    hide KnownType, CheckContractErrors, TargetContract, CheckMemberErrors, CapturesRoot, TargetErrors;
    var here := Here(c, e.target.Where());
    assert TargetErrors(here, e.target) == [] && CaptureErrors(here, e.target) == [];
    CapturedHere(c, here, e.target);
    CleanTarget(here, e.target);
  }

  lemma CapturedHere(c: Context, here: Context, target: Expr)
    requires here.scopes == c.scopes && here.boundaries == c.boundaries
    ensures CapturesRoot(here, target) <==> CapturesRoot(c, target)
  {
    hide LookUpDepth, RootOf;
  }

  lemma CleanTarget(here: Context, target: Expr)
    requires TargetErrors(here, target) == []
    ensures ExpressionErrors(here, target) == []
  {
    hide KnownType, CheckMemberErrors, ExpressionErrors;
    if target.Unspanned().Identifier? {
      NamedClean(here, target);
    }
  }

  lemma {:induction false} SoundAssign(
    cfg: Config, base: nat, f: Frame, st: State, w: World, e: Expr, env: Environment, c: Context)
    returns (w': World)
    requires Point(cfg, base, f, st, w, env, c) && ExpressionErrors(c, e) == [] && e.Assignment?
    ensures var o := Assign(cfg, f, st, e.target, e.value, env);
            Lands(cfg, f.captured, st, w, o.st, w') && EvaluateOk(cfg, base, o.st.functions, c.scopes, e, o.res)
    decreases st.steps, 2
  {
    hide Point, Lands, Fits, Harmless, WellTyped, ExpressionErrors, CapturesRoot, Write, Permission, RegistryOk, HostOk;
    hide Assign, Target, Evaluate;
    AssignSteps(cfg, f, st, e.target, e.value, env);
    AssignmentParts(c, e);
    var here := Here(c, e.target.Where());
    Moves(cfg, base, f, f, st, w, env, c, here);
    w' := SoundTarget(cfg, base, f, st, w, e.target, env, here);
    var t := Target(cfg, f, st, e.target, env);
    if t.res.Err? { return; }
    var place := t.res.value;
    Stays(cfg, base, f, st, w, env, c, t.st, w');
    PermissionSound(cfg, base, f, t.st, w', env, c, e.target, place.id);
    if Permission(f, t.st, place.id).Some? { return; }
    var w1 := w';
    w' := SoundEvaluate(cfg, base, f, t.st, w1, e.value, env, c);
    var r := Evaluate(cfg, f, t.st, e.value, env);
    LandsThen(cfg, f.captured, st, w, t.st, w1, r.st, w');
    if r.res.Err? { return; }
    LandsGrows(cfg, f.captured, st, w, r.st, w');
    StillWritable(cfg, base, f, t.st, w1, r.st, w', env, c, RootOf(e.target).value, place.id);
    WriteSound(cfg, base, f, r.st, w', place, r.res.value);
    LandsThen(cfg, f.captured, st, w, r.st, w', Write(cfg, f, r.st, place, r.res.value).st, w');
  }

  /** The right-hand side cannot make the target unwritable, nor uninitialized at top level. */
  lemma StillWritable(
    cfg: Config, base: nat, f: Frame, st: State, w: World, after: State, w': World, env: Environment, c: Context,
    name: string, id: nat)
    requires Point(cfg, base, f, st, w, env, c) && Lands(cfg, f.captured, st, w, after, w')
    requires Permission(f, st, id).None? && LookUp(env, name) == Some(id)
    ensures f.captured <= id < |after.bindings| && after.bindings[id].mutable
    ensures f.stack == [] ==> after.bindings[id].value.Some?
  {
    assert KeepsSlot(st.bindings[id], after.bindings[id]);
    LookUpAgrees(w.slots, env, c.scopes, name);
  }

  lemma PointNames(cfg: Config, base: nat, f: Frame, st: State, w: World, env: Environment, c: Context, name: string)
    requires Point(cfg, base, f, st, w, env, c)
    ensures LookUp(env, name).Some? <==> LookUpSymbol(c.scopes, name).Some?
  {
    LookUpAgrees(w.slots, env, c.scopes, name);
  }

  lemma PlaceParts(c: Context, e: Expr)
    requires ExpressionErrors(c, e) == []
    ensures e.Located? ==> ExpressionErrors(c.(span := Some(e.span)), e.inner) == []
    ensures e.Identifier? ==> LookUpSymbol(c.scopes, e.name).Some?
    ensures e.Property? || e.Index? ==> ExpressionErrors(c, e.owner) == []
    ensures e.Index? ==> ExpressionErrors(c, e.index) == []
  {
  }

  lemma {:induction false} SoundTarget(
    cfg: Config, base: nat, f: Frame, st: State, w: World, e: Expr, env: Environment, c: Context)
    returns (w': World)
    requires Point(cfg, base, f, st, w, env, c) && ExpressionErrors(c, e) == []
    ensures var o := Target(cfg, f, st, e, env);
            && Lands(cfg, f.captured, st, w, o.st, w')
            && (o.res.Err? ==> Allowed(base, o.res.error))
            && (o.res.Ok? ==> RootOf(e).Some? && LookUp(env, RootOf(e).value) == Some(o.res.value.id))
    decreases st.steps, 1, e
  {
    hide Point, Lands, Fits, Fine, Operands, Evaluate, Allowed;
    if e.Located? {
      Moves(cfg, base, f, f.(span := Some(e.span)), st, w, env, c, c.(span := Some(e.span)));
      w' := SoundTarget(cfg, base, f.(span := Some(e.span)), st, w, e.inner, env, c.(span := Some(e.span)));
    } else {
      w' := SoundPlace(cfg, base, f, st, w, e, env, c);
    }
  }

  /** A target below its location wrappers. */
  lemma {:induction false} SoundPlace(
    cfg: Config, base: nat, f: Frame, st: State, w: World, e: Expr, env: Environment, c: Context)
    returns (w': World)
    requires Point(cfg, base, f, st, w, env, c) && ExpressionErrors(c, e) == [] && !e.Located?
    ensures var o := Target(cfg, f, st, e, env);
            && Lands(cfg, f.captured, st, w, o.st, w')
            && (o.res.Err? ==> Allowed(base, o.res.error))
            && (o.res.Ok? ==> RootOf(e).Some? && LookUp(env, RootOf(e).value) == Some(o.res.value.id))
    decreases st.steps, 0, e
  {
    hide Point, Lands, Fits, Fine, ExpressionErrors, Operands, RegistryOk, HostOk, Target, Evaluate, LookUp;
    PlaceParts(c, e);
    PointFacts(cfg, base, f, st, w, env, c);
    w' := w;
    LandsSame(cfg, f.captured, st, w);
    if st.steps == 0 || (!e.Property? && !e.Index?) {
      TargetLeaf(cfg, f, st, e, env);
    }
    if st.steps == 0 { return; }
    var ticked := st.(steps := st.steps - 1);
    LandsTick(cfg, f.captured, st, w);
    if e.Identifier? {
      PointNames(cfg, base, f, st, w, env, c, e.name);
      return;
    }
    if e.Property? || e.Index? {
      w' := SoundSelector(cfg, base, f, st, w, e, env, c);
    }
  }

  /** The owner of a selector, then its index. */
  lemma {:induction false} SoundSelector(
    cfg: Config, base: nat, f: Frame, st: State, w: World, e: Expr, env: Environment, c: Context)
    returns (w': World)
    requires Point(cfg, base, f, st, w, env, c) && ExpressionErrors(c, e) == [] && (e.Property? || e.Index?) && st.steps > 0
    ensures var o := Target(cfg, f, st, e, env);
            && Lands(cfg, f.captured, st, w, o.st, w')
            && (o.res.Err? ==> Allowed(base, o.res.error))
            && (o.res.Ok? ==> RootOf(e).Some? && LookUp(env, RootOf(e).value) == Some(o.res.value.id))
    decreases st.steps, 0, e, 0
  {
    hide Point, Lands, Fits, Fine, Allowed, ExpressionErrors, Operands, RegistryOk, HostOk, Target, Evaluate, LookUp;
    PlaceParts(c, e);
    PointFacts(cfg, base, f, st, w, env, c);
    var ticked := st.(steps := st.steps - 1);
    LandsTick(cfg, f.captured, st, w);
    TargetSteps(cfg, f, st, e, env);
    Stays(cfg, base, f, st, w, env, c, ticked, w);
    w' := SoundTarget(cfg, base, f, ticked, w, e.owner, env, c);
    var o := Target(cfg, f, ticked, e.owner, env);
    LandsThen(cfg, f.captured, st, w, ticked, w, o.st, w');
    if o.res.Err? || e.Property? { return; }
    Stays(cfg, base, f, st, w, env, c, o.st, w');
    var w1 := w';
    w' := SoundEvaluate(cfg, base, f, o.st, w1, e.index, env, c);
    LandsThen(cfg, f.captured, st, w, o.st, w1, Evaluate(cfg, f, o.st, e.index, env).st, w');
  }

  // ----- calls -----

  function ResultOf(st: State, callee: Value): Option<ResolvedType> {
    if callee.FunctionValue? && callee.id < |st.functions| then st.functions[callee.id].result else None
  }

  lemma PrintSound(cfg: Config, h: HostState, text: string)
    ensures HostGrows(h, Print(cfg, h, text).0)
    ensures Print(cfg, h, text).1.Some? ==> Harmless(Print(cfg, h, text).1.value)
  {
    PrintGrows(cfg, h, text);
  }

  lemma BuiltinLands(cfg: Config, base: nat, f: Frame, st: State, w: World, b: Builtin, args: seq<Value>)
    requires HostOk(cfg) && Fits(cfg, f.captured, st, w)
    ensures Lands(cfg, f.captured, st, w, BuiltinResult(cfg, f, st, b, args).st, w)
    ensures CallOk(cfg, base, None, BuiltinResult(cfg, f, st, b, args).res)
  {
    hide Fits, RegistryOk, HostOk;
    BuiltinSound(cfg, base, f, st, b, args);
    BuiltinEvolves(cfg, f, st, b, args);
    LandsHere(cfg, f.captured, st, w, BuiltinResult(cfg, f, st, b, args).st);
  }

  lemma {:induction false} SoundApply(
    cfg: Config, base: nat, f: Frame, st: State, w: World, callee: Value, args: seq<Value>, env: Environment, c: Context)
    returns (w': World)
    requires Point(cfg, base, f, st, w, env, c) && AllWellTyped(cfg, args)
    ensures var o := Apply(cfg, f, st, callee, args);
            Lands(cfg, f.captured, st, w, o.st, w') && CallOk(cfg, base, ResultOf(st, callee), o.res)
    decreases st.steps, 8
  {
    hide Point, Lands, Fits, WellTyped, BuiltinResult, Print, RegistryOk, HostOk, CallFunction, Joined;
    PointFacts(cfg, base, f, st, w, env, c);
    w' := w;
    LandsSame(cfg, f.captured, st, w);
    if callee.BuiltinValue? {
      BuiltinLands(cfg, base, f, st, w, callee.builtin, args);
    } else if callee.PrintValue? {
      var (host, failure) := Print(cfg, st.host, Joined(cfg, args));
      PrintSound(cfg, st.host, Joined(cfg, args));
      Hosted(f.captured, st, host);
      LandsHere(cfg, f.captured, st, w, st.(host := host));
      NullWellTyped(cfg);
    } else if callee.FunctionValue? && callee.id < |st.functions| && |f.stack| < cfg.limits.callDepth {
      if |args| == |st.functions[callee.id].parameters| {
        w' := SoundCall(cfg, base, f, st, w, callee.id, args, env, c);
      }
    }
  }

  lemma NullWellTyped(cfg: Config)
    ensures WellTyped(cfg.types, cfg.identity, NullValue)
  {
  }

  /** What a call needs to know about the closure it enters. */
  lemma CallParts(cfg: Config, base: nat, f: Frame, st: State, w: World, id: nat, env: Environment, c: Context)
    requires Point(cfg, base, f, st, w, env, c) && id < |st.functions|
    ensures id < |w.functions| && Fits(cfg, f.captured, st, w)
    ensures var fn, d := st.functions[id], w.functions[id];
            && ClosureFits(cfg, f.captured, w.slots, fn, d)
            && d.function_.Function?
            && FunctionContext(d.context, d.function_).types == cfg.types
            && ParameterErrors(FunctionContext(d.context, d.function_), fn.parameters, |fn.parameters|) == []
            && EnvMatches(w.slots, fn.closure + [map[]], FunctionContext(d.context, d.function_).scopes)
            && (fn.result.Some? ==> InRange(cfg.types, fn.result.value))
  {
    hide SlotsFit, Captures, BodyErrors, RegistryOk, HostOk;
    assert ClosureFits(cfg, f.captured, w.slots, st.functions[id], w.functions[id]);
    PushMatches(w.slots, st.functions[id].closure, w.functions[id].context.scopes, map[], map[]);
  }

  /** A closure is entered at a point that fits its declaration. */
  lemma EnterClosure(
    cfg: Config, base: nat, f: Frame, st: State, w: World, env: Environment, c: Context, after: State, w': World, id: nat,
    scope: map<string, nat>)
    requires Point(cfg, base, f, st, w, env, c) && id < |st.functions| && id < |w.functions|
    requires Lands(cfg, f.captured, st, w, after, w')
    requires ClosureFits(cfg, f.captured, w.slots, st.functions[id], w.functions[id])
    requires var d := w.functions[id];
             EnvMatches(w'.slots, st.functions[id].closure + [scope], InsideFunction(d.context, d.function_).scopes)
    ensures var fn, d := st.functions[id], w.functions[id];
            && Point(cfg, base, Enter(f, fn), after, w', fn.closure + [scope], InsideFunction(d.context, d.function_))
            && BodyErrors(InsideFunction(d.context, d.function_), fn.body) == []
            && InsideFunction(d.context, d.function_).loops == []
  {
    hide Fits, EnvMatches, BodyErrors, Evolves, DeclareParameters, HostOk, RegistryOk;
    var fn, d := st.functions[id], w.functions[id];
    DeclareParametersKeeps(FunctionContext(d.context, d.function_), d.function_.parameters, |d.function_.parameters|);
  }

  lemma LeaveSound(cfg: Config, base: nat, inside: Frame, st: State, fn: FunctionDef, c: Context, flow: Flow)
    requires FlowOk(cfg, inside, c, flow) && c.loops == [] && inside.result == fn.result
    requires fn.result.Some? ==> InRange(cfg.types, fn.result.value)
    ensures CallOk(cfg, base, fn.result, Leave(cfg, inside, st, fn, flow).res)
    ensures Leave(cfg, inside, st, fn, flow).st == st
  {
  }

  lemma {:induction false} SoundCall(
    cfg: Config, base: nat, f: Frame, st: State, w: World, id: nat, args: seq<Value>, env: Environment, c: Context)
    returns (w': World)
    requires Point(cfg, base, f, st, w, env, c) && id < |st.functions| && AllWellTyped(cfg, args)
    requires |args| == |st.functions[id].parameters|
    ensures var o := CallFunction(cfg, f, st, st.functions[id], args);
            Lands(cfg, f.captured, st, w, o.st, w') && CallOk(cfg, base, st.functions[id].result, o.res)
    decreases st.steps, 7
  {
    hide Point, Lands, SlotsFit, EnvMatches, Captures, WellTyped, Leave, BindParameters, StatementErrors, RegistryOk, HostOk;
    CallParts(cfg, base, f, st, w, id, env, c);
    var fn, d := st.functions[id], w.functions[id];
    var start := FunctionContext(d.context, d.function_);
    w' := BindParametersSound(cfg, f, st, w, fn.closure, start, fn.parameters, args, 0, map[]);
    var bound := BindParameters(cfg, f, st, fn.parameters, args, 0, map[]);
    if bound.res.Err? { return; }
    var inside, scope := Enter(f, fn), bound.res.value;
    var w1 := w';
    EnterClosure(cfg, base, f, st, w, env, c, bound.st, w1, id, scope);
    var c' := InsideFunction(d.context, d.function_);
    w' := SoundBody(cfg, base, inside, bound.st, w1, fn.body, fn.closure + [scope], c');
    var o := Body(cfg, inside, bound.st, fn.body, fn.closure + [scope]);
    LandsThen(cfg, f.captured, st, w, bound.st, w1, o.st, w');
    if o.res.Ok? {
      LeaveSound(cfg, base, inside, o.st, fn, c', o.res.value);
    }
  }

  // ----- statement lists -----

  /** After hoisting and installing, the list starts at a program point of the hoisted context. */
  lemma ListPoint(
    cfg: Config, base: nat, f: Frame, st: State, w: World, stmts: seq<Stmt>, env: Environment, c: Context)
    returns (w': World)
    requires Point(cfg, base, f, st, w, env, c) && env != []
    requires HoistErrors(c, stmts, |stmts|) == [] && AllStatementsClean(Hoist(c, stmts, |stmts|), stmts)
    ensures var r := Reserve(cfg, st, stmts, env, []);
            var installed := Install(cfg, r.st, stmts, r.slots, r.env, 0);
            && Lands(cfg, f.captured, st, w, installed, w')
            && |r.slots| == |stmts| && |r.env| == |env|
            && SlotsFor(cfg, installed, stmts, r.slots, f.captured) && SlotSymbols(cfg.types, w'.slots, stmts, r.slots)
            && Point(cfg, base, f, installed, w', r.env, Hoist(c, stmts, |stmts|))
  {
    hide Fits, EnvMatches, Captures, Direct, Evolves, Initialized, HoistErrors, AllStatementsClean, HostOk, RegistryOk, Install, Reserve;
    var h := Hoist(c, stmts, |stmts|);
    HoistKeeps(c, stmts, |stmts|);
    FitsSizes(cfg, f.captured, st, w);
    ReserveEvolves(cfg, f.captured, st, stmts, env, [], f.captured);
    var w1 := ReserveSound(cfg, f.captured, st, w, stmts, env, env, [], c);
    var r := Reserve(cfg, st, stmts, env, []);
    w' := InstallSound(cfg, f.captured, r.st, w1, stmts, r.slots, r.env, 0, h);
    var installed := Install(cfg, r.st, stmts, r.slots, r.env, 0);
    LandsThen(cfg, f.captured, st, w, r.st, w1, installed, w');
    SlotsForEvolves(cfg, f.captured, r.st, installed, stmts, r.slots, f.captured);
    if f.stack == [] {
      HoistedInitialized(f.captured, st, installed, env, r.env, stmts, r.slots);
    }
  }

  lemma {:induction false} SoundStatements(
    cfg: Config, base: nat, f: Frame, st: State, w: World, stmts: seq<Stmt>, env: Environment, c: Context)
    returns (w': World)
    requires Point(cfg, base, f, st, w, env, c) && env != []
    requires HoistErrors(c, stmts, |stmts|) == [] && AllStatementsClean(Hoist(c, stmts, |stmts|), stmts)
    ensures var o := Statements(cfg, f, st, stmts, env);
            Lands(cfg, f.captured, st, w, o.st, w') && StatementOk(cfg, base, f, c, o.res)
    decreases st.steps, 4
  {
    hide Point, Lands, HoistErrors, AllStatementsClean, Install, Reserve, SlotsFor, SlotSymbols, WellTyped, RegistryOk, HostOk;
    HoistKeeps(c, stmts, |stmts|);
    var w1 := ListPoint(cfg, base, f, st, w, stmts, env, c);
    var r := Reserve(cfg, st, stmts, env, []);
    var installed := Install(cfg, r.st, stmts, r.slots, r.env, 0);
    w' := SoundExecuteFrom(cfg, base, f, installed, w1, stmts, r.slots, r.env, 0, Hoist(c, stmts, |stmts|));
    LandsThen(cfg, f.captured, st, w, installed, w1, ExecuteFrom(cfg, f, installed, stmts, r.slots, r.env, 0).st, w');
  }

  /** Everything that holds before statement `i` of a hoisted list runs. */
  ghost predicate ListAt(
    cfg: Config, base: nat, f: Frame, st: State, w: World, stmts: seq<Stmt>, slots: seq<Option<nat>>, env: Environment,
    i: nat, h: Context)
  {
    && i <= |stmts| == |slots| && env != []
    && Point(cfg, base, f, st, w, env, ContextAt(h, stmts, i))
    && SlotsFor(cfg, st, stmts, slots, f.captured) && SlotSymbols(cfg.types, w.slots, stmts, slots)
    && AllStatementsClean(h, stmts)
  }

  lemma ListStays(
    cfg: Config, base: nat, f: Frame, st: State, w: World, stmts: seq<Stmt>, slots: seq<Option<nat>>, env: Environment,
    i: nat, h: Context, after: State, w': World)
    requires ListAt(cfg, base, f, st, w, stmts, slots, env, i, h) && Lands(cfg, f.captured, st, w, after, w')
    ensures ListAt(cfg, base, f, after, w', stmts, slots, env, i, h)
  {
    hide Fits, Point, Evolves, AllStatementsClean, SlotsFor, SlotSymbols, RegistryOk, HostOk;
    Stays(cfg, base, f, st, w, env, ContextAt(h, stmts, i), after, w');
    SlotsForEvolves(cfg, f.captured, st, after, stmts, slots, f.captured);
    SlotSymbolsGrow(cfg.types, w.slots, w'.slots, stmts, slots);
  }

  /** A statement that declares no variable leaves the names alone. */
  lemma ListSkips(
    cfg: Config, base: nat, f: Frame, st: State, w: World, stmts: seq<Stmt>, slots: seq<Option<nat>>, env: Environment,
    i: nat, h: Context)
    requires ListAt(cfg, base, f, st, w, stmts, slots, env, i, h) && i < |stmts| && !stmts[i].Unspanned().Let?
    ensures ListAt(cfg, base, f, st, w, stmts, slots, env, i + 1, h)
  {
    hide Fits, EnvMatches, Captures, Direct, Initialized, AllStatementsClean, SlotsFor, SlotSymbols, HostOk, RegistryOk;
  }

  /** Storing the value of a `let` and exposing its name. */
  lemma LetStored(
    cfg: Config, base: nat, f: Frame, st: State, w: World, stmts: seq<Stmt>, slots: seq<Option<nat>>, env: Environment,
    i: nat, h: Context, v: Value)
    requires ListAt(cfg, base, f, st, w, stmts, slots, env, i, h) && i < |stmts| && stmts[i].Unspanned().Let?
    requires slots[i].Some? && slots[i].value < |st.bindings|
    requires WellTyped(cfg.types, cfg.identity, v) && CheckType(cfg, st.bindings[slots[i].value].annotation, v).None?
    ensures var stored := Store(st, slots[i].value, v);
            && Lands(cfg, f.captured, st, w, stored, w)
            && ListAt(cfg, base, f, stored, w, stmts, slots, Bind(env, stmts[i].Unspanned().name, slots[i].value), i + 1, h)
  {
    hide Fits, EnvMatches, Captures, Direct, AllStatementsClean, SlotSymbols, HostOk, RegistryOk, Evolves, WellTyped, CheckType;
    var id := slots[i].value;
    var stored := Store(st, id, v);
    ContextAtKeeps(h, stmts, i);
    ContextAtKeeps(h, stmts, i + 1);
    assert SlotFor(cfg, st, stmts[i].Unspanned(), slots[i], f.captured);
    StoreChecked(cfg, f, st, w, id, v);
    LetBinds(cfg, f.captured, st, w, stmts, slots, env, i, h);
    ListStays(cfg, base, f, st, w, stmts, slots, env, i, h, stored, w);
  }

  lemma LetResultMeaning(cfg: Config, f: Frame, st: State, slot: Option<nat>, value: Expr, v: Value)
    requires slot.Some? && slot.value < |st.bindings|
    requires st.bindings[slot.value].annotation.Some? ==> InRange(cfg.types, st.bindings[slot.value].annotation.value)
    ensures var l := LetResult(cfg, f, st, slot, value, v);
            && (l.res.Ok? <==> CheckType(cfg, st.bindings[slot.value].annotation, v).None?)
            && (l.res.Ok? ==> l.st == Store(st, slot.value, v))
            && (l.res.Err? ==> l.st == st && Harmless(l.res.error.message))
  {
    CheckTypeMeaning(cfg, st.bindings[slot.value].annotation, v);
  }

  /** A clean statement, its wrappers removed, at its program point. */
  lemma StatementPoint(cfg: Config, base: nat, f: Frame, st: State, w: World, stmts: seq<Stmt>, slots: seq<Option<nat>>, env: Environment, i: nat, h: Context)
    requires ListAt(cfg, base, f, st, w, stmts, slots, env, i, h) && i < |stmts|
    ensures var u := UnderSpan(ContextAt(h, stmts, i), stmts[i]);
            && StatementErrors(u, stmts[i].Unspanned()) == []
            && Point(cfg, base, f.(span := stmts[i].Where().Or(f.span)), st, w, env, u)
  {
    hide Fits, EnvMatches, Captures, Direct, Initialized, SlotsFor, SlotSymbols, HostOk, RegistryOk, StatementErrors, ContextAt;
    assert StatementErrors(ContextAt(h, stmts, i), stmts[i]) == [];
    UnwrappedErrors(ContextAt(h, stmts, i), stmts[i]);
  }

  lemma LetInitializer(c: Context, s: Stmt)
    requires s.Let? && StatementErrors(c, s) == []
    ensures ExpressionErrors(c, s.value) == []
  {
    hide ExpressionErrors;
  }

  /** The reserved slot of a `let`. */
  lemma LetSlot(cfg: Config, base: nat, f: Frame, st: State, w: World, stmts: seq<Stmt>, slots: seq<Option<nat>>, env: Environment, i: nat, h: Context)
    requires ListAt(cfg, base, f, st, w, stmts, slots, env, i, h) && i < |stmts| && stmts[i].Unspanned().Let?
    ensures |slots| == |stmts| && slots[i].Some? && slots[i].value < |st.bindings|
    ensures st.bindings[slots[i].value].annotation.Some? ==> InRange(cfg.types, st.bindings[slots[i].value].annotation.value)
  {
    hide Point, SlotSymbols, AllStatementsClean, ContextAt;
    assert SlotFor(cfg, st, stmts[i].Unspanned(), slots[i], f.captured);
  }

  lemma ListFits(
    cfg: Config, base: nat, f: Frame, st: State, w: World, stmts: seq<Stmt>, slots: seq<Option<nat>>, env: Environment,
    i: nat, h: Context)
    requires ListAt(cfg, base, f, st, w, stmts, slots, env, i, h)
    ensures Fits(cfg, f.captured, st, w) && i <= |stmts| == |slots|
  {
  }

  lemma {:induction false} SoundRunLet(
    cfg: Config, base: nat, f: Frame, st: State, w: World, stmts: seq<Stmt>, slots: seq<Option<nat>>, env: Environment,
    i: nat, h: Context)
    returns (w': World)
    requires ListAt(cfg, base, f, st, w, stmts, slots, env, i, h) && i < |stmts| && stmts[i].Unspanned().Let?
    ensures var stmt, here := stmts[i].Unspanned(), f.(span := stmts[i].Where().Or(f.span));
            var o := RunLet(cfg, here, st, slots[i], stmt.value, env);
            && Lands(cfg, f.captured, st, w, o.st, w')
            && (o.res.Err? ==> Allowed(base, o.res.error))
            && (o.res.Ok? ==>
                  ListAt(cfg, base, f, o.st, w', stmts, slots, Bind(env, stmt.name, slots[i].GetOr(0)), i + 1, h))
    decreases st.steps, 1
  {
    hide ListAt, Point, Lands, WellTyped, CalleeFits, LetResult, CheckType, HasType, KnownType, HasName, StatementErrors, RegistryOk, HostOk;
    hide ContextAt, UnderSpan, RegistryOk, HostOk;
    ListFits(cfg, base, f, st, w, stmts, slots, env, i, h);
    var stmt, here := stmts[i].Unspanned(), f.(span := stmts[i].Where().Or(f.span));
    StatementPoint(cfg, base, f, st, w, stmts, slots, env, i, h);
    LetInitializer(UnderSpan(ContextAt(h, stmts, i), stmts[i]), stmt);
    w' := SoundEvaluate(cfg, base, here, st, w, stmt.value, env, UnderSpan(ContextAt(h, stmts, i), stmts[i]));
    var o := Evaluate(cfg, here, st, stmt.value, env);
    if o.res.Err? { return; }
    ListStays(cfg, base, f, st, w, stmts, slots, env, i, h, o.st, w');
    LetSlot(cfg, base, f, o.st, w', stmts, slots, env, i, h);
    LetResultMeaning(cfg, here, o.st, slots[i], stmt.value, o.res.value);
    if LetResult(cfg, here, o.st, slots[i], stmt.value, o.res.value).res.Err? { return; }
    LetStored(cfg, base, f, o.st, w', stmts, slots, env, i, h, o.res.value);
    LandsThen(cfg, f.captured, st, w, o.st, w', Store(o.st, slots[i].value, o.res.value), w');
  }

  lemma {:induction false} SoundExecuteFrom(
    cfg: Config, base: nat, f: Frame, st: State, w: World, stmts: seq<Stmt>, slots: seq<Option<nat>>, env: Environment,
    i: nat, h: Context)
    returns (w': World)
    requires ListAt(cfg, base, f, st, w, stmts, slots, env, i, h)
    ensures var o := ExecuteFrom(cfg, f, st, stmts, slots, env, i);
            Lands(cfg, f.captured, st, w, o.st, w') && StatementOk(cfg, base, f, h, o.res)
    decreases st.steps, 3
  {
    hide ListAt, Point, Lands, Fits, WellTyped, HasType, StatementErrors, RegistryOk, HostOk;
    w' := w;
    ListFits(cfg, base, f, st, w, stmts, slots, env, i, h);
    LandsSame(cfg, f.captured, st, w);
    if i == |stmts| || st.steps == 0 { return; }
    var stmt := stmts[i].Unspanned();
    var here := f.(span := stmts[i].Where().Or(f.span));
    var ticked := st.(steps := st.steps - 1);
    LandsTick(cfg, f.captured, st, w);
    ListStays(cfg, base, f, st, w, stmts, slots, env, i, h, ticked, w);
    if stmt.Let? {
      w' := SoundRunLet(cfg, base, f, ticked, w, stmts, slots, env, i, h);
      var l := RunLet(cfg, here, ticked, slots[i], stmt.value, env);
      LandsThen(cfg, f.captured, st, w, ticked, w, l.st, w');
      if l.res.Err? { return; }
      var bound := Bind(env, stmt.name, slots[i].GetOr(0));
      var w1 := w';
      w' := SoundExecuteFrom(cfg, base, f, l.st, w1, stmts, slots, bound, i + 1, h);
      LandsThen(cfg, f.captured, st, w, l.st, w1, ExecuteFrom(cfg, f, l.st, stmts, slots, bound, i + 1).st, w');
    } else {
      StatementPoint(cfg, base, f, ticked, w, stmts, slots, env, i, h);
      ContextAtKeeps(h, stmts, i);
      w' := SoundExecute(cfg, base, here, ticked, w, stmt, env, UnderSpan(ContextAt(h, stmts, i), stmts[i]));
      var o := Execute(cfg, here, ticked, stmt, env);
      LandsThen(cfg, f.captured, st, w, ticked, w, o.st, w');
      if o.res.Err? || !o.res.value.Normal? { return; }
      ListStays(cfg, base, f, ticked, w, stmts, slots, env, i, h, o.st, w');
      ListSkips(cfg, base, f, o.st, w', stmts, slots, env, i, h);
      var w1 := w';
      w' := SoundExecuteFrom(cfg, base, f, o.st, w1, stmts, slots, env, i + 1, h);
      LandsThen(cfg, f.captured, st, w, o.st, w1, ExecuteFrom(cfg, f, o.st, stmts, slots, env, i + 1).st, w');
    }
  }

  lemma {:induction false} SoundBody(
    cfg: Config, base: nat, f: Frame, st: State, w: World, body: Stmt, env: Environment, c: Context)
    returns (w': World)
    requires Point(cfg, base, f, st, w, env, c) && env != [] && BodyErrors(c, body) == []
    ensures var o := Body(cfg, f, st, body, env);
            Lands(cfg, f.captured, st, w, o.st, w') && StatementOk(cfg, base, f, c, o.res)
    decreases st.steps, 5, body
  {
    hide Point, Lands, WellTyped, HoistErrors, SequenceErrors, RegistryOk, HostOk;
    if body.LocatedStmt? {
      Moves(cfg, base, f, f.(span := Some(body.span)), st, w, env, c, c.(span := Some(body.span)));
      w' := SoundBody(cfg, base, f.(span := Some(body.span)), st, w, body.inner, env, c.(span := Some(body.span)));
      return;
    }
    var stmts := Contents(body);
    var h := Hoist(c, stmts, |stmts|);
    forall k | 0 <= k < |stmts|
      ensures StatementErrors(ContextAt(h, stmts, k), stmts[k]) == []
    {
      SequenceClean(h, body, |stmts|, k);
    }
    w' := SoundStatements(cfg, base, f, st, w, stmts, env, c);
  }

  // ----- statements -----

  /** An inner scope without names of its own. */
  lemma ScopePoint(cfg: Config, base: nat, f: Frame, st: State, w: World, env: Environment, c: Context, inner: Context)
    requires Point(cfg, base, f, st, w, env, c)
    requires inner.types == c.types && inner.boundaries == c.boundaries && inner.scopes == c.scopes + [map[]]
    ensures Point(cfg, base, f, st, w, env + [map[]], inner)
  {
    hide Fits, RegistryOk, HostOk;
    PushMatches(w.slots, env, c.scopes, map[], map[]);
  }

  /** The body an `if` or `match` chooses is clean in a scope of its own. */
  lemma ChosenClean(cfg: Config, f: Frame, c: Context, s: Stmt, v: Value) returns (names: set<string>)
    requires PlanOf(cfg, f, s, v).Run? && StatementErrors(c, s) == []
    ensures BodyErrors(EnterScope(WithTypes(c, names)), PlanOf(cfg, f, s, v).body) == []
  {
    hide BodyErrors, RegistryOk, HostOk;
    if s.If? {
      names := if v.boolean then {} else TypeNames(s.thenBranch);
      assert WithTypes(c, {}) == c;
    } else {
      var arm := SelectArm(s.arms, v, 0).value;
      names := ArmTypeNames(s, arm);
      ArmClean(c, s, |s.arms|, arm);
    }
  }

  lemma {:induction false} ArmClean(c: Context, s: Stmt, n: nat, k: nat)
    requires s.Match? && n <= |s.arms| && ArmErrors(c, s, n) == [] && k < n
    ensures BodyErrors(EnterScope(WithTypes(c, ArmTypeNames(s, k))), s.arms[k].body) == []
    decreases n
  {
    hide BodyErrors, ArmTypeNames, RegistryOk, HostOk;
    if k < n - 1 {
      ArmClean(c, s, n - 1, k);
    }
  }

  lemma HeadClean(c: Context, s: Stmt)
    requires HeadOf(s).Some? && StatementErrors(c, s) == []
    ensures ExpressionErrors(c, HeadOf(s).value) == []
  {
    hide BodyErrors, ExpressionErrors, ArmErrors, RegistryOk, HostOk;
  }

  /** Plans that run no body respect the analyzer's view of loops, functions and workers. */
  lemma SettleSound(cfg: Config, base: nat, f: Frame, st: State, c: Context, s: Stmt, v: Value)
    requires StatementErrors(c, s) == [] && !s.Let? && !s.LocatedStmt? && !s.Block? && WellTyped(cfg.types, cfg.identity, v)
    requires f.result.Some? ==> InRange(cfg.types, f.result.value)
    requires var plan := PlanOf(cfg, f, s, v); plan.Done? || plan.Refuse?
    ensures StatementOk(cfg, base, f, c, Settle(f, st, PlanOf(cfg, f, s, v)).res)
  {
    hide BodyErrors, ExpressionErrors, ArmErrors, SelectArm, RegistryOk, HostOk;
    CheckTypeMeaning(cfg, f.result, v);
  }

  lemma HeadlessPlan(cfg: Config, f: Frame, s: Stmt)
    requires HeadOf(s).None?
    ensures var plan := PlanOf(cfg, f, s, NullValue); plan.Done? || plan.Refuse?
  {
  }

  lemma {:induction false} SoundExecute(
    cfg: Config, base: nat, f: Frame, st: State, w: World, s: Stmt, env: Environment, c: Context)
    returns (w': World)
    requires Point(cfg, base, f, st, w, env, c) && StatementErrors(c, s) == [] && !s.Unspanned().Let?
    ensures var o := Execute(cfg, f, st, s, env);
            Lands(cfg, f.captured, st, w, o.st, w') && StatementOk(cfg, base, f, c, o.res)
    decreases st.steps, 8, s
  {
    hide Point, Lands, Fits, WellTyped, BodyErrors, PlanOf, ArmErrors, ExpressionErrors, CalleeFits, RegistryOk, HostOk;
    w' := w;
    PointFacts(cfg, base, f, st, w, env, c);
    LandsSame(cfg, f.captured, st, w);
    if s.LocatedStmt? {
      Moves(cfg, base, f, f.(span := Some(s.span)), st, w, env, c, c.(span := Some(s.span)));
      w' := SoundExecute(cfg, base, f.(span := Some(s.span)), st, w, s.inner, env, c.(span := Some(s.span)));
    } else if s.Block? {
      ScopePoint(cfg, base, f, st, w, env, c, EnterScope(c));
      w' := SoundBody(cfg, base, f, st, w, s, env + [map[]], EnterScope(c));
    } else if HeadOf(s).None? {
      NullWellTyped(cfg);
      HeadlessPlan(cfg, f, s);
      SettleSound(cfg, base, f, st, c, s, NullValue);
    } else {
      HeadClean(c, s);
      var head := HeadOf(s).value;
      w' := SoundEvaluate(cfg, base, f, st, w, head, env, c);
      var o := Evaluate(cfg, f, st, head, env);
      if o.res.Err? { return; }
      Stays(cfg, base, f, st, w, env, c, o.st, w');
      var w1, v := w', o.res.value;
      w' := SoundResume(cfg, base, f, o.st, w1, s, v, env, c);
      LandsThen(cfg, f.captured, st, w, o.st, w1, Resume(cfg, f, o.st, s, PlanOf(cfg, f, s, v), env).st, w');
    }
  }

  /** What each plan with a body takes from its statement. */
  lemma PlanParts(cfg: Config, f: Frame, c: Context, s: Stmt, v: Value)
    requires HeadOf(s).Some? && StatementErrors(c, s) == [] && WellTyped(cfg.types, cfg.identity, v)
    ensures match PlanOf(cfg, f, s, v)
            case Repeat(body) => BodyErrors(LoopContext(c, SerialLoop), body) == [] && s.While?
            case Iterate(variable, values, body) =>
              s.For? && s.variable == variable && AllWellTyped(cfg, values) && BodyErrors(IterationContext(c, s), body) == []
            case Spread(variable, values, body) =>
              s.Parallel? && s.variable == variable && AllWellTyped(cfg, values) && BodyErrors(IterationContext(c, s), body) == []
            case _ => true
  {
    hide BodyErrors, ExpressionErrors, ArmErrors, SelectArm, CheckType, RegistryOk, HostOk;
  }

  lemma {:induction false} SoundResume(
    cfg: Config, base: nat, f: Frame, st: State, w: World, s: Stmt, v: Value, env: Environment, c: Context)
    returns (w': World)
    requires Point(cfg, base, f, st, w, env, c) && StatementErrors(c, s) == []
    requires HeadOf(s).Some? && WellTyped(cfg.types, cfg.identity, v)
    ensures var o := Resume(cfg, f, st, s, PlanOf(cfg, f, s, v), env);
            Lands(cfg, f.captured, st, w, o.st, w') && StatementOk(cfg, base, f, c, o.res)
    decreases st.steps, 10
  {
    hide Point, Lands, Fits, WellTyped, BodyErrors, PlanOf, StatementErrors, RegistryOk, HostOk;
    w' := w;
    PointFacts(cfg, base, f, st, w, env, c);
    LandsSame(cfg, f.captured, st, w);
    var plan := PlanOf(cfg, f, s, v);
    PlanParts(cfg, f, c, s, v);
    match plan
    case Run(body) =>
      var names := ChosenClean(cfg, f, c, s, v);
      var inner := EnterScope(WithTypes(c, names));
      ScopePoint(cfg, base, f, st, w, env, c, inner);
      w' := SoundBody(cfg, base, f, st, w, body, env + [map[]], inner);
    case Repeat(body) =>
      var inner := LoopContext(c, SerialLoop);
      ScopePoint(cfg, base, f, st, w, env, c, inner);
      w' := SoundBody(cfg, base, f, st, w, body, env + [map[]], inner);
      var b := Body(cfg, f, st, body, env + [map[]]);
      if b.res.Err? || b.res.value.ReturnFlow? || b.res.value.BreakFlow? { return; }
      Stays(cfg, base, f, st, w, env, c, b.st, w');
      var w1 := w';
      w' := SoundExecute(cfg, base, f, b.st, w1, s, env, c);
      LandsThen(cfg, f.captured, st, w, b.st, w1, Execute(cfg, f, b.st, s, env).st, w');
    case Iterate(variable, values, body) =>
      w' := SoundEach(cfg, base, f, st, w, s, values, 0, body, env, c);
    case Spread(variable, values, body) =>
      SoundBatches(cfg, base, f, st, st, w, s, values, 0, Width(cfg, f), body, env, c);
    case _ =>
      SettleSound(cfg, base, f, st, c, s, v);
  }

  /** The scope of one iteration holds the loop variable in a fresh slot. */
  lemma IterationPoint(
    cfg: Config, base: nat, f: Frame, st: State, w: World, s: Stmt, value: Value, env: Environment, c: Context)
    returns (w': World)
    requires Point(cfg, base, f, st, w, env, c) && s.For? && WellTyped(cfg.types, cfg.identity, value)
    ensures var entered := Allocate(st, None, Some(value), true);
            && Lands(cfg, f.captured, st, w, entered, w')
            && Point(cfg, base, f, entered, w', env + [map[s.variable := |st.bindings|]], IterationContext(c, s))
  {
    hide SlotsFit, ClosuresFit, Evolves, WellTyped, RegistryOk, HostOk;
    FitsSizes(cfg, f.captured, st, w);
    var id := |st.bindings|;
    w' := w.(slots := w.slots + [LoopSymbol]);
    var entered := Allocate(st, None, Some(value), true);
    AllocateFits(cfg, f.captured, st, w, None, Some(value), true, LoopSymbol);
    Stays(cfg, base, f, st, w, env, c, entered, w');
    PushMatches(w'.slots, env, c.scopes, map[s.variable := id], map[s.variable := LoopSymbol]);
    IterationScopes(c, s);
  }

  lemma IterationScopes(c: Context, s: Stmt)
    requires s.For? || s.Parallel?
    ensures IterationContext(c, s).scopes == c.scopes + [map[s.variable := LoopSymbol]]
  {
    var pushed := EnterScope(c).scopes;
    var scope: map<string, Symbol> := map[][s.variable := LoopSymbol];
    assert pushed[|pushed| - 1 := scope] == c.scopes + [scope];
  }

  lemma {:induction false} SoundEach(
    cfg: Config, base: nat, f: Frame, st: State, w: World, s: Stmt, values: seq<Value>, i: nat, body: Stmt,
    env: Environment, c: Context)
    returns (w': World)
    requires Point(cfg, base, f, st, w, env, c) && s.For? && AllWellTyped(cfg, values)
    requires BodyErrors(IterationContext(c, s), body) == []
    ensures var o := EachFrom(cfg, f, st, s.variable, values, i, body, env);
            Lands(cfg, f.captured, st, w, o.st, w') && StatementOk(cfg, base, f, c, o.res)
    decreases st.steps, 7
  {
    hide Point, Lands, Fits, WellTyped, BodyErrors, Allocate, RegistryOk, HostOk, Body;
    w' := w;
    PointFacts(cfg, base, f, st, w, env, c);
    LandsSame(cfg, f.captured, st, w);
    if i >= |values| || st.steps == 0 { return; }
    hide EachFrom;
    EachSteps(cfg, f, st, s.variable, values, i, body, env);
    var ticked := st.(steps := st.steps - 1);
    LandsTick(cfg, f.captured, st, w);
    Stays(cfg, base, f, st, w, env, c, ticked, w);
    var entered := Allocate(ticked, None, Some(values[i]), true);
    EntersSteps(ticked, values[i]);
    var w1 := IterationPoint(cfg, base, f, ticked, w, s, values[i], env, c);
    LandsThen(cfg, f.captured, st, w, ticked, w, entered, w1);
    var inner := env + [map[s.variable := |st.bindings|]];
    w' := SoundBody(cfg, base, f, entered, w1, body, inner, IterationContext(c, s));
    var b := Body(cfg, f, entered, body, inner);
    LandsThen(cfg, f.captured, st, w, entered, w1, b.st, w');
    if b.res.Err? || b.res.value.ReturnFlow? || b.res.value.BreakFlow? { return; }
    Stays(cfg, base, f, st, w, env, c, b.st, w');
    var w2 := w';
    w' := SoundEach(cfg, base, f, b.st, w2, s, values, i + 1, body, env, c);
    LandsThen(cfg, f.captured, st, w, b.st, w2, EachFrom(cfg, f, b.st, s.variable, values, i + 1, body, env).st, w');
  }

  lemma EntersSteps(st: State, v: Value)
    ensures Allocate(st, None, Some(v), true).steps == st.steps
  {
  }

  // ----- parallel iterations -----

  /** Inside a worker the boundary covers the whole snapshot. */
  lemma WidenCapture(cfg: Config, captured: nat, snapshot: State, w: World, st: State)
    requires Fits(cfg, captured, snapshot, w) && st.bindings == snapshot.bindings && st.functions == snapshot.functions
    ensures Fits(cfg, |st.bindings|, st, w)
  {
    forall i | 0 <= i < |st.functions|
      ensures ClosureFits(cfg, |st.bindings|, w.slots, st.functions[i], w.functions[i])
    {
      assert ClosureFits(cfg, captured, w.slots, snapshot.functions[i], w.functions[i]);
    }
  }

  lemma WorkerPoint(
    cfg: Config, base: nat, f: Frame, snapshot: State, w: World, s: Stmt, steps: nat, host: HostState, value: Value,
    env: Environment, c: Context)
    returns (w': World)
    requires Point(cfg, base, f, snapshot, w, env, c) && s.Parallel? && WellTyped(cfg.types, cfg.identity, value)
    ensures Point(cfg, |f.stack|, WorkerFrame(f, Snap(snapshot)), WorkerStart(Snap(snapshot), steps, host, value), w',
                  env + [map[s.variable := |snapshot.bindings|]], IterationContext(c, s))
  {
    hide SlotsFit, ClosuresFit, WellTyped, Evolves, RegistryOk, HostOk;
    var id := |snapshot.bindings|;
    var before := State(snapshot.bindings, snapshot.functions, steps, host.(buffer := Some(Buffer([], 0))));
    var started := WorkerStart(Snap(snapshot), steps, host, value);
    FitsSizes(cfg, f.captured, snapshot, w);
    WidenCapture(cfg, f.captured, snapshot, w, before);
    w' := w.(slots := w.slots + [LoopSymbol]);
    AllocateFits(cfg, id, before, w, None, Some(value), true, LoopSymbol);
    assert started == Allocate(before, None, Some(value), true);
    EnvGrows(w.slots, w'.slots, env, c.scopes);
    PushMatches(w'.slots, env, c.scopes, map[s.variable := id], map[s.variable := LoopSymbol]);
    IterationScopes(c, s);
    WorkerNames(w.slots, env, c.scopes);
    if f.stack == [] {
      assert Initialized(snapshot, env);
    }
  }

  lemma WorkerNames(slots: seq<Symbol>, env: Environment, scopes: Scopes)
    requires EnvMatches(slots, env, scopes)
    ensures forall l, n | 0 <= l < |env| && n in env[l] :: env[l][n] < |slots|
  {
    forall l, n | 0 <= l < |env| && n in env[l]
      ensures env[l][n] < |slots|
    {
      assert ScopeMatches(slots, env[l], scopes[l]);
    }
  }

  /** A worker of an accepted program can end only in an allowed error, carrying its label. */
  lemma {:induction false} SoundWorker(
    cfg: Config, base: nat, f: Frame, snapshot: State, w: World, s: Stmt, steps: nat, host: HostState, value: Value,
    body: Stmt, env: Environment, c: Context, index: nat)
    requires Point(cfg, base, f, snapshot, w, env, c) && s.Parallel? && WellTyped(cfg.types, cfg.identity, value)
    requires BodyErrors(IterationContext(c, s), body) == []
    ensures var outcome := WorkerOutcome(f, Worker(cfg, f, Snap(snapshot), steps, host, value, s.variable, body, env), index);
            outcome.error.Some? ==> Allowed(base, outcome.error.value)
    decreases steps, 6
  {
    hide Point, Lands, WellTyped, BodyErrors, RegistryOk, HostOk;
    var w1 := WorkerPoint(cfg, base, f, snapshot, w, s, steps, host, value, env, c);
    var wf, started := WorkerFrame(f, Snap(snapshot)), WorkerStart(Snap(snapshot), steps, host, value);
    var inner := env + [map[s.variable := |snapshot.bindings|]];
    var _ := SoundBody(cfg, |f.stack|, wf, started, w1, body, inner, IterationContext(c, s));
    var o := Body(cfg, wf, started, body, inner);
    WorkerFlow(cfg, wf, c, s, o.res);
    PointFacts(cfg, base, f, snapshot, w, env, c);
    PointBase(cfg, base, f, snapshot, w, env, c);
  }

  lemma PointBase(cfg: Config, base: nat, f: Frame, st: State, w: World, env: Environment, c: Context)
    requires Point(cfg, base, f, st, w, env, c)
    ensures |f.stack| >= base
  {
  }

  /** Neither `break` nor `return` leaves a worker. */
  lemma WorkerFlow(cfg: Config, wf: Frame, c: Context, s: Stmt, res: Result<Flow, RuntimeError>)
    requires s.Parallel? && (res.Ok? ==> FlowOk(cfg, wf, IterationContext(c, s), res.value))
    ensures res.Ok? ==> res.value.Normal? || res.value.ContinueFlow?
  {
  }

  ghost predicate OutcomesAllowed(base: nat, outcomes: seq<Outcome>) {
    forall i | 0 <= i < |outcomes| :: outcomes[i].error.Some? ==> Allowed(base, outcomes[i].error.value)
  }

  lemma {:induction false} SoundWorkers(
    cfg: Config, base: nat, f: Frame, st: State, snapshot: State, w: World, s: Stmt, values: seq<Value>, first: nat,
    hosts: seq<HostState>, done: seq<Outcome>, body: Stmt, env: Environment, c: Context)
    requires Point(cfg, base, f, snapshot, w, env, c) && s.Parallel? && AllWellTyped(cfg, values)
    requires BodyErrors(IterationContext(c, s), body) == [] && OutcomesAllowed(base, done)
    ensures OutcomesAllowed(base, WorkersFrom(cfg, f, st, Snap(snapshot), s.variable, values, first, hosts, done, body, env).outcomes)
    decreases st.steps, 7, |values| - |done|
  {
    hide Point, WellTyped, BodyErrors, Allowed, WorkerOutcome, RegistryOk, HostOk;
    if |done| >= |values| || |done| >= |hosts| { return; }
    var k := |done|;
    SoundWorker(cfg, base, f, snapshot, w, s, st.steps, hosts[k], values[k], body, env, c, first + k);
    var o := Worker(cfg, f, Snap(snapshot), st.steps, hosts[k], values[k], s.variable, body, env);
    var more := done + [WorkerOutcome(f, o, first + k)];
    SoundWorkers(cfg, base, f, st.(steps := o.st.steps), snapshot, w, s, values, first, hosts, more, body, env, c);
  }

  lemma {:induction false} PrintFromHarmless(cfg: Config, f: Frame, h: HostState, lines: seq<string>, i: nat)
    ensures var r := PrintFrom(cfg, f, h, lines, i); r.1.Some? ==> Harmless(r.1.value.message)
    decreases |lines| - i
  {
    if i < |lines| {
      PrintSound(cfg, h, lines[i]);
      var (next, failure) := Print(cfg, h, lines[i]);
      if failure.None? {
        PrintFromHarmless(cfg, f, next, lines, i + 1);
      }
    }
  }

  lemma {:induction false} ReplayAllowed(
    cfg: Config, base: nat, f: Frame, h: HostState, outcomes: seq<Outcome>, i: nat, first: Option<RuntimeError>)
    requires OutcomesAllowed(base, outcomes) && (first.Some? ==> Allowed(base, first.value))
    ensures var r := Replay(cfg, f, h, outcomes, i, first); r.1.Some? ==> Allowed(base, r.1.value)
    decreases |outcomes| - i
  {
    if i < |outcomes| {
      PrintFromHarmless(cfg, f, h, outcomes[i].lines, 0);
      var (next, failure) := PrintFrom(cfg, f, h, outcomes[i].lines, 0);
      ReplayAllowed(cfg, base, f, next, outcomes, i + 1, first.Or(failure).Or(outcomes[i].error));
    }
  }

  lemma {:induction false} ForkHarmless(cfg: Config, f: Frame, st: State, count: nat, hosts: seq<HostState>)
    ensures var o := ForkFrom(cfg, f, st, count, hosts); o.res.Err? ==> Harmless(o.res.error.message)
    decreases count - |hosts|
  {
    if |hosts| < count && st.steps > 0 {
      var (asked, reply) := Ask(cfg, st.host, Fork);
      if reply.Answer? {
        ForkHarmless(cfg, f, st.(steps := st.steps - 1, host := asked), count, hosts + [HostState(asked.history + [Forked], None)]);
      }
    }
  }

  lemma {:induction false} SoundBatch(
    cfg: Config, base: nat, f: Frame, st: State, snapshot: State, w: World, s: Stmt, values: seq<Value>, first: nat,
    body: Stmt, env: Environment, c: Context)
    requires Point(cfg, base, f, snapshot, w, env, c) && s.Parallel? && AllWellTyped(cfg, values)
    requires BodyErrors(IterationContext(c, s), body) == []
    ensures var o := Batch(cfg, f, st, Snap(snapshot), s.variable, values, first, body, env);
            (o.res.Err? ==> Allowed(base, o.res.error)) && (o.res.Ok? ==> o.res.value == Normal)
    decreases st.steps, 8
  {
    hide Point, WellTyped, BodyErrors, WorkerOutcome, ForkFrom, Replay, RegistryOk, HostOk;
    ForkHarmless(cfg, f, st, |values|, []);
    var forked := ForkFrom(cfg, f, st, |values|, []);
    if forked.res.Err? { return; }
    SoundWorkers(cfg, base, f, forked.st, snapshot, w, s, values, first, forked.res.value, [], body, env, c);
    var o := WorkersFrom(cfg, f, forked.st, Snap(snapshot), s.variable, values, first, forked.res.value, [], body, env);
    ReplayAllowed(cfg, base, f, o.st.host, o.outcomes, 0, None);
  }

  lemma {:induction false} SoundBatches(
    cfg: Config, base: nat, f: Frame, st: State, snapshot: State, w: World, s: Stmt, values: seq<Value>, start: nat,
    width: nat, body: Stmt, env: Environment, c: Context)
    requires Point(cfg, base, f, snapshot, w, env, c) && s.Parallel? && AllWellTyped(cfg, values) && width >= 1
    requires BodyErrors(IterationContext(c, s), body) == []
    requires Fits(cfg, f.captured, st, w)
    ensures var o := Batches(cfg, f, st, Snap(snapshot), s.variable, values, start, width, body, env);
            Lands(cfg, f.captured, st, w, o.st, w) && StatementOk(cfg, base, f, c, o.res)
    decreases st.steps, 9
  {
    hide Point, Lands, WellTyped, BodyErrors, Fits, Evolves, Batch, Allowed, RegistryOk, HostOk;
    BatchesEvolves(cfg, f, st, Snap(snapshot), s.variable, values, start, width, body, env);
    LandsHere(cfg, f.captured, st, w, Batches(cfg, f, st, Snap(snapshot), s.variable, values, start, width, body, env).st);
    if start >= |values| { return; }
    var end := if start + width <= |values| then start + width else |values|;
    SoundBatch(cfg, base, f, st, snapshot, w, s, values[start..end], start, body, env, c);
    var b := Batch(cfg, f, st, Snap(snapshot), s.variable, values[start..end], start, body, env);
    if b.res.Err? { return; }
    BatchEvolves(cfg, f, st, Snap(snapshot), s.variable, values[start..end], start, body, env);
    LandsHere(cfg, f.captured, st, w, b.st);
    SoundBatches(cfg, base, f, b.st, snapshot, w, s, values, end, width, body, env, c);
  }
}
