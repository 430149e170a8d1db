/**
 * The step budget is only fuel: a run that leaves `k` steps unused does exactly
 * the same with `k` steps fewer, and a worker that would need more than it is
 * granted stops with nothing left. This is what makes a worker independent of
 * the schedule of its siblings.
 */
module Budget {
  import opened Wrappers
  import opened Ast
  import opened Types
  import opened Values
  import opened Operations
  import opened Evaluation
  import opened Equations

  function More(st: State, k: nat): State {
    st.(steps := st.steps + k)
  }

  /** Whether a host has forked another one since it was forked itself. */
  predicate HasForked(history: seq<HostCall>) {
    var last := |history| - 1;
    history != [] && !history[last].Forked? && (history[last].Fork? || HasForked(history[..last]))
  }

  /**
   * A worker out of budget fails with the step limit. One message can hide
   * that: replaying the lines of a worker it has forked may overflow its output
   * buffer first.
   */
  predicate Starving(m: Message, h: HostState) {
    Bare(m).StepLimit? || (Bare(m).OutputLimit? && HasForked(h.history))
  }

  predicate Starved<T>(o: Out<T>) {
    o.res.Err? && o.st.steps == 0 && Starving(o.res.error.message, o.st.host)
  }

  /** `a` is the run with `k` more steps than `b`. */
  predicate Spent<T(==)>(f: Frame, a: Out<T>, b: Out<T>, k: nat) {
    && (a.st.steps >= k ==> a.res == b.res && a.st == More(b.st, k))
    && (f.inWorker && a.st.steps < k ==> Starved(b))
  }

  predicate Buffered(f: Frame, st: State) {
    f.inWorker ==> st.host.buffer.Some?
  }

  // ----- steps that do not look at the budget -----

  lemma HostResultShifts(cfg: Config, f: Frame, st: State, call: HostCall, k: nat)
    ensures var a, b := HostResult(cfg, f, More(st, k), call), HostResult(cfg, f, st, call);
            a.res == b.res && a.st == More(b.st, k)
  {
  }

  lemma EffectShifts(cfg: Config, f: Frame, st: State, op: EffectOp, values: seq<Value>, k: nat)
    ensures var a, b := EffectResult(cfg, f, More(st, k), op, values), EffectResult(cfg, f, st, op, values);
            a.res == b.res && a.st == More(b.st, k)
  {
    hide HostResult;
    forall call
      ensures var a, b := HostResult(cfg, f, More(st, k), call), HostResult(cfg, f, st, call);
              a.res == b.res && a.st == More(b.st, k)
    {
      HostResultShifts(cfg, f, st, call, k);
    }
  }

  lemma CombineShifts(cfg: Config, f: Frame, st: State, e: Expr, values: seq<Value>, k: nat)
    requires IsStrict(e) && |values| == |Operands(e)|
    ensures var a, b := Combine(cfg, f, More(st, k), e, values), Combine(cfg, f, st, e, values);
            a.res == b.res && a.st == More(b.st, k)
  {
    hide EffectResult, PureResult, Operands;
    if e.Effect? {
      EffectShifts(cfg, f, st, e.op, values, k);
    }
  }

  lemma BuiltinShifts(cfg: Config, f: Frame, st: State, builtin: Builtin, args: seq<Value>, k: nat)
    ensures var a, b := BuiltinResult(cfg, f, More(st, k), builtin, args), BuiltinResult(cfg, f, st, builtin, args);
            a.res == b.res && a.st == More(b.st, k)
  {
  }

  lemma WriteShifts(cfg: Config, f: Frame, st: State, place: Place, v: Value, k: nat)
    ensures var a, b := Write(cfg, f, More(st, k), place, v), Write(cfg, f, st, place, v);
            a.res == b.res && a.st == More(b.st, k)
  {
  }

  lemma PermissionShifts(f: Frame, st: State, id: nat, k: nat)
    ensures Permission(f, More(st, k), id) == Permission(f, st, id)
  {
  }

  lemma {:induction false} BindParametersShifts(
    cfg: Config, f: Frame, st: State, parameters: seq<Parameter>, args: seq<Value>, i: nat, scope: map<string, nat>, k: nat)
    ensures var a, b := BindParameters(cfg, f, More(st, k), parameters, args, i, scope),
                        BindParameters(cfg, f, st, parameters, args, i, scope);
            a.res == b.res && a.st == More(b.st, k)
    decreases |parameters| - i
  {
    if i < |parameters| && i < |args| {
      var annotation := ResolveAnnotation(cfg.types, parameters[i].annotation);
      var next := Allocate(st, annotation, Some(args[i]), true);
      assert Allocate(More(st, k), annotation, Some(args[i]), true) == More(next, k);
      BindParametersShifts(cfg, f, next, parameters, args, i + 1, scope[parameters[i].name := |st.bindings|], k);
    }
  }

  lemma {:induction false} ReserveShifts(cfg: Config, st: State, stmts: seq<Stmt>, env: Environment, slots: seq<Option<nat>>, k: nat)
    ensures var a, b := Reserve(cfg, More(st, k), stmts, env, slots), Reserve(cfg, st, stmts, env, slots);
            a.env == b.env && a.slots == b.slots && a.st == More(b.st, k)
    decreases |stmts| - |slots|
  {
    if |slots| < |stmts| {
      var stmt := stmts[|slots|].Unspanned();
      var more := slots + [Some(|st.bindings|)];
      if stmt.Let? {
        var next := Allocate(st, ResolveAnnotation(cfg.types, stmt.annotation), None, true);
        assert Allocate(More(st, k), ResolveAnnotation(cfg.types, stmt.annotation), None, true) == More(next, k);
        ReserveShifts(cfg, next, stmts, env, more, k);
      } else if stmt.Function? {
        var next := Allocate(st, None, None, false);
        assert Allocate(More(st, k), None, None, false) == More(next, k);
        ReserveShifts(cfg, next, stmts, Bind(env, stmt.name, |st.bindings|), more, k);
      } else {
        ReserveShifts(cfg, st, stmts, env, slots + [None], k);
      }
    }
  }

  lemma {:induction false} InstallShifts(cfg: Config, st: State, stmts: seq<Stmt>, slots: seq<Option<nat>>, env: Environment, i: nat, k: nat)
    ensures Install(cfg, More(st, k), stmts, slots, env, i) == More(Install(cfg, st, stmts, slots, env, i), k)
    decreases |stmts| - i
  {
    if i < |stmts| && i < |slots| {
      var stmt := stmts[i].Unspanned();
      if stmt.Let? && slots[i].Some? {
        InstallShifts(cfg, st, stmts, slots, Bind(env, stmt.name, slots[i].value), i + 1, k);
      } else if stmt.Function? && slots[i].Some? && slots[i].value < |st.bindings| {
        var pushed := st.(functions := st.functions + [Definition(cfg, stmts[i], env)]);
        var stored := Store(pushed, slots[i].value, FunctionValue(|st.functions|));
        assert Store(More(pushed, k), slots[i].value, FunctionValue(|st.functions|)) == More(stored, k);
        InstallShifts(cfg, stored, stmts, slots, env, i + 1, k);
      } else {
        InstallShifts(cfg, st, stmts, slots, env, i + 1, k);
      }
    }
  }

  lemma LetResultShifts(cfg: Config, f: Frame, st: State, slot: Option<nat>, value: Expr, v: Value, k: nat)
    ensures var a, b := LetResult(cfg, f, More(st, k), slot, value, v), LetResult(cfg, f, st, slot, value, v);
            a.res == b.res && a.st == More(b.st, k)
  {
  }

  // ----- the evaluator -----

  lemma {:induction false} EvaluateSpends(cfg: Config, f: Frame, st: State, e: Expr, env: Environment, k: nat)
    requires Buffered(f, st)
    ensures Spent(f, Evaluate(cfg, f, More(st, k), e, env), Evaluate(cfg, f, st, e, env), k)
    decreases st.steps, 0, e
  {
    hide Inner;
    if e.Located? {
      EvaluateSpends(cfg, f.(span := Some(e.span)), st, e.inner, env, k);
      return;
    }
    if st.steps == 0 { return; }
    hide Evaluate;
    EvaluateSteps(cfg, f, st, e, env);
    EvaluateSteps(cfg, f, More(st, k), e, env);
    var ticked := st.(steps := st.steps - 1);
    assert More(st, k).(steps := More(st, k).steps - 1) == More(ticked, k);
    if f.depth >= cfg.limits.expressionDepth { return; }
    InnerSpends(cfg, f.(depth := f.depth + 1), ticked, e, env, k);
  }

  lemma {:induction false} InnerSpends(cfg: Config, f: Frame, st: State, e: Expr, env: Environment, k: nat)
    requires Buffered(f, st) && !e.Located?
    ensures Spent(f, Inner(cfg, f, More(st, k), e, env), Inner(cfg, f, st, e, env), k)
    decreases st.steps, 3
  {
    if e.Identifier? {
    } else if e.Assignment? {
      AssignSpends(cfg, f, st, e.target, e.value, env, k);
    } else if IsStrict(e) {
      StrictSpends(cfg, f, st, e, env, k);
    } else {
      LogicalSpends(cfg, f, st, e.left, e.binary, e.right, env, k);
    }
  }

  lemma {:induction false} StrictSpends(cfg: Config, f: Frame, st: State, e: Expr, env: Environment, k: nat)
    requires Buffered(f, st) && IsStrict(e)
    ensures Spent(f, Strict(cfg, f, More(st, k), e, env), Strict(cfg, f, st, e, env), k)
    decreases st.steps, 2
  {
    hide Combine;
    if Refusal(cfg, e).Some? { return; }
    EvaluateFromSpends(cfg, f, st, Operands(e), [], CheckOf(cfg, e), env, k);
    var a := EvaluateFrom(cfg, f, More(st, k), Operands(e), [], CheckOf(cfg, e), env);
    var b := EvaluateFrom(cfg, f, st, Operands(e), [], CheckOf(cfg, e), env);
    if a.st.steps < k || b.res.Err? { return; }
    if e.Call? {
      ApplySpends(cfg, f, b.st, b.res.value[0], b.res.value[1..], k);
    } else {
      CombineShifts(cfg, f, b.st, e, b.res.value, k);
    }
  }

  lemma {:induction false} EvaluateFromSpends(
    cfg: Config, f: Frame, st: State, es: seq<Expr>, values: seq<Value>, check: Check, env: Environment, k: nat)
    requires Buffered(f, st)
    ensures Spent(f, EvaluateFrom(cfg, f, More(st, k), es, values, check, env), EvaluateFrom(cfg, f, st, es, values, check, env), k)
    decreases st.steps, 1
  {
    hide ElementError;
    if |values| >= |es| { return; }
    EvaluateSpends(cfg, f, st, es[|values|], env, k);
    var a, b := Evaluate(cfg, f, More(st, k), es[|values|], env), Evaluate(cfg, f, st, es[|values|], env);
    if a.st.steps < k || b.res.Err? { return; }
    if ElementError(cfg, check, |values|, b.res.value).Some? { return; }
    EvaluateFromSpends(cfg, f, b.st, es, values + [b.res.value], check, env, k);
  }

  lemma {:induction false} LogicalSpends(cfg: Config, f: Frame, st: State, left: Expr, op: BinaryOp, right: Expr, env: Environment, k: nat)
    requires Buffered(f, st)
    ensures Spent(f, Logical(cfg, f, More(st, k), left, op, right, env), Logical(cfg, f, st, left, op, right, env), k)
    decreases st.steps, 2
  {
    hide Starving, Logical, Evaluate;
    LogicalSteps(cfg, f, st, left, op, right, env);
    LogicalSteps(cfg, f, More(st, k), left, op, right, env);
    EvaluateSpends(cfg, f, st, left, env, k);
    var a, b := Evaluate(cfg, f, More(st, k), left, env), Evaluate(cfg, f, st, left, env);
    if a.st.steps < k || b.res.Err? || !b.res.value.BooleanValue? { return; }
    if (op.And? && !b.res.value.boolean) || (op.Or? && b.res.value.boolean) { return; }
    EvaluateSpends(cfg, f, b.st, right, env, k);
    var x, y := Evaluate(cfg, f, a.st, right, env), Evaluate(cfg, f, b.st, right, env);
    if x.st.steps < k || y.res.Err? { return; }
  }

  lemma {:induction false} ValueThenWriteSpends(cfg: Config, f: Frame, st: State, place: Place, value: Expr, env: Environment, k: nat)
    requires Buffered(f, st)
    ensures Spent(f, ValueThenWrite(cfg, f, More(st, k), place, value, env), ValueThenWrite(cfg, f, st, place, value, env), k)
    decreases st.steps, 1
  {
    hide Write, Starving;
    EvaluateSpends(cfg, f, st, value, env, k);
    var x, y := Evaluate(cfg, f, More(st, k), value, env), Evaluate(cfg, f, st, value, env);
    if x.st.steps < k || y.res.Err? { return; }
    WriteShifts(cfg, f, y.st, place, y.res.value, k);
  }

  lemma {:induction false} AssignSpends(cfg: Config, f: Frame, st: State, target: Expr, value: Expr, env: Environment, k: nat)
    requires Buffered(f, st)
    ensures Spent(f, Assign(cfg, f, More(st, k), target, value, env), Assign(cfg, f, st, target, value, env), k)
    decreases st.steps, 2
  {
    hide Permission, Starving, Assign, ValueThenWrite, Evaluate, Target;
    AssignSteps(cfg, f, st, target, value, env);
    AssignSteps(cfg, f, More(st, k), target, value, env);
    TargetSpends(cfg, f, st, target, env, k);
    var a, b := Target(cfg, f, More(st, k), target, env), Target(cfg, f, st, target, env);
    if a.st.steps < k || b.res.Err? { return; }
    var place := b.res.value;
    PermissionShifts(f, b.st, place.id, k);
    if Permission(f, b.st, place.id).Some? { return; }
    ValueThenWriteSpends(cfg, f, b.st, place, value, env, k);
  }

  lemma {:induction false} TargetSpends(cfg: Config, f: Frame, st: State, e: Expr, env: Environment, k: nat)
    requires Buffered(f, st)
    ensures Spent(f, Target(cfg, f, More(st, k), e, env), Target(cfg, f, st, e, env), k)
    decreases st.steps, 1, e
  {
    hide Evaluate;
    if e.Located? {
      TargetSpends(cfg, f.(span := Some(e.span)), st, e.inner, env, k);
      return;
    }
    if st.steps == 0 { return; }
    hide Target, Starving;
    if !e.Property? && !e.Index? {
      TargetLeaf(cfg, f, st, e, env);
      TargetLeaf(cfg, f, More(st, k), e, env);
      return;
    }
    TargetSteps(cfg, f, st, e, env);
    TargetSteps(cfg, f, More(st, k), e, env);
    var ticked := st.(steps := st.steps - 1);
    assert More(st, k).(steps := More(st, k).steps - 1) == More(ticked, k);
    TargetSpends(cfg, f, ticked, e.owner, env, k);
    var a, b := Target(cfg, f, More(ticked, k), e.owner, env), Target(cfg, f, ticked, e.owner, env);
    if a.st.steps < k || b.res.Err? || e.Property? { return; }
    EvaluateSpends(cfg, f, b.st, e.index, env, k);
  }

  lemma {:induction false} ApplySpends(cfg: Config, f: Frame, st: State, callee: Value, args: seq<Value>, k: nat)
    requires Buffered(f, st)
    ensures Spent(f, Apply(cfg, f, More(st, k), callee, args), Apply(cfg, f, st, callee, args), k)
    decreases st.steps, 8
  {
    hide BuiltinResult, Print;
    if callee.BuiltinValue? {
      BuiltinShifts(cfg, f, st, callee.builtin, args, k);
    } else if callee.FunctionValue? && callee.id < |st.functions| {
      CallSpends(cfg, f, st, st.functions[callee.id], args, k);
    }
  }

  lemma {:induction false} CallSpends(cfg: Config, f: Frame, st: State, callee: FunctionDef, args: seq<Value>, k: nat)
    requires Buffered(f, st)
    ensures Spent(f, CallFunction(cfg, f, More(st, k), callee, args), CallFunction(cfg, f, st, callee, args), k)
    decreases st.steps, 7
  {
    hide BindParameters, Leave;
    BindParametersShifts(cfg, f, st, callee.parameters, args, 0, map[], k);
    var a := BindParameters(cfg, f, More(st, k), callee.parameters, args, 0, map[]);
    var b := BindParameters(cfg, f, st, callee.parameters, args, 0, map[]);
    if b.res.Err? { return; }
    var env, inside := callee.closure + [b.res.value], Enter(f, callee);
    BodySpends(cfg, inside, b.st, callee.body, env, k);
    var x, y := Body(cfg, inside, a.st, callee.body, env), Body(cfg, inside, b.st, callee.body, env);
    if x.st.steps < k || y.res.Err? { return; }
    LeaveShifts(cfg, inside, y.st, callee, y.res.value, k);
  }

  lemma LeaveShifts(cfg: Config, inside: Frame, st: State, callee: FunctionDef, flow: Flow, k: nat)
    ensures var a, b := Leave(cfg, inside, More(st, k), callee, flow), Leave(cfg, inside, st, callee, flow);
            a.res == b.res && a.st == More(b.st, k) && b.st == st
  {
  }

  lemma {:induction false} StatementsSpends(cfg: Config, f: Frame, st: State, stmts: seq<Stmt>, env: Environment, k: nat)
    requires Buffered(f, st)
    ensures Spent(f, Statements(cfg, f, More(st, k), stmts, env), Statements(cfg, f, st, stmts, env), k)
    decreases st.steps, 4
  {
    hide Reserve, Install;
    if env == [] { return; }
    ReserveShifts(cfg, st, stmts, env, [], k);
    var r := Reserve(cfg, st, stmts, env, []);
    InstallShifts(cfg, r.st, stmts, r.slots, r.env, 0, k);
    ExecuteFromSpends(cfg, f, Install(cfg, r.st, stmts, r.slots, r.env, 0), stmts, r.slots, r.env, 0, k);
  }

  lemma {:induction false} RunLetSpends(cfg: Config, f: Frame, st: State, slot: Option<nat>, value: Expr, env: Environment, k: nat)
    requires Buffered(f, st)
    ensures Spent(f, RunLet(cfg, f, More(st, k), slot, value, env), RunLet(cfg, f, st, slot, value, env), k)
    decreases st.steps, 1
  {
    hide LetResult, Evaluate, Starving;
    EvaluateSpends(cfg, f, st, value, env, k);
    var a, b := Evaluate(cfg, f, More(st, k), value, env), Evaluate(cfg, f, st, value, env);
    if a.st.steps < k || b.res.Err? { return; }
    LetResultShifts(cfg, f, b.st, slot, value, b.res.value, k);
  }

  lemma {:induction false} ExecuteFromSpends(
    cfg: Config, f: Frame, st: State, stmts: seq<Stmt>, slots: seq<Option<nat>>, env: Environment, i: nat, k: nat)
    requires Buffered(f, st)
    ensures Spent(f, ExecuteFrom(cfg, f, More(st, k), stmts, slots, env, i), ExecuteFrom(cfg, f, st, stmts, slots, env, i), k)
    decreases st.steps, 3
  {
    if i >= |stmts| || i >= |slots| || st.steps == 0 { return; }
    var stmt := stmts[i].Unspanned();
    var here := f.(span := stmts[i].Where().Or(f.span));
    var ticked := st.(steps := st.steps - 1);
    assert More(st, k).(steps := More(st, k).steps - 1) == More(ticked, k);
    if stmt.Let? {
      RunLetSpends(cfg, here, ticked, slots[i], stmt.value, env, k);
      var a, b := RunLet(cfg, here, More(ticked, k), slots[i], stmt.value, env), RunLet(cfg, here, ticked, slots[i], stmt.value, env);
      if a.st.steps < k || b.res.Err? { return; }
      ExecuteFromSpends(cfg, f, b.st, stmts, slots, Bind(env, stmt.name, slots[i].GetOr(0)), i + 1, k);
    } else {
      ExecuteSpends(cfg, here, ticked, stmt, env, k);
      var a, b := Execute(cfg, here, More(ticked, k), stmt, env), Execute(cfg, here, ticked, stmt, env);
      if a.st.steps < k || b.res.Err? || !b.res.value.Normal? { return; }
      ExecuteFromSpends(cfg, f, b.st, stmts, slots, env, i + 1, k);
    }
  }

  lemma {:induction false} BodySpends(cfg: Config, f: Frame, st: State, body: Stmt, env: Environment, k: nat)
    requires Buffered(f, st)
    ensures Spent(f, Body(cfg, f, More(st, k), body, env), Body(cfg, f, st, body, env), k)
    decreases st.steps, 5, body
  {
    if body.LocatedStmt? {
      BodySpends(cfg, f.(span := Some(body.span)), st, body.inner, env, k);
    } else {
      StatementsSpends(cfg, f, st, Contents(body), env, k);
    }
  }

  lemma {:induction false} ExecuteSpends(cfg: Config, f: Frame, st: State, s: Stmt, env: Environment, k: nat)
    requires Buffered(f, st)
    ensures Spent(f, Execute(cfg, f, More(st, k), s, env), Execute(cfg, f, st, s, env), k)
    decreases st.steps, 8, s
  {
    hide PlanOf;
    if s.LocatedStmt? {
      ExecuteSpends(cfg, f.(span := Some(s.span)), st, s.inner, env, k);
    } else if s.Block? {
      BodySpends(cfg, f, st, s, env + [map[]], k);
    } else if HeadOf(s).Some? {
      var head := HeadOf(s).value;
      EvaluateSpends(cfg, f, st, head, env, k);
      var a, b := Evaluate(cfg, f, More(st, k), head, env), Evaluate(cfg, f, st, head, env);
      if a.st.steps < k || b.res.Err? { return; }
      ResumeSpends(cfg, f, b.st, s, PlanOf(cfg, f, s, b.res.value), env, k);
    }
  }

  lemma {:induction false} ResumeSpends(cfg: Config, f: Frame, st: State, s: Stmt, plan: Plan, env: Environment, k: nat)
    requires Buffered(f, st)
    ensures Spent(f, Resume(cfg, f, More(st, k), s, plan, env), Resume(cfg, f, st, s, plan, env), k)
    decreases st.steps, 10
  {
    hide Resume, Body, Execute, EachFrom, Batches, Starving;
    ResumeSteps(cfg, f, st, s, plan, env);
    ResumeSteps(cfg, f, More(st, k), s, plan, env);
    match plan
    case Run(body) => BodySpends(cfg, f, st, body, env + [map[]], k);
    case Repeat(body) =>
      BodySpends(cfg, f, st, body, env + [map[]], k);
      var a, b := Body(cfg, f, More(st, k), body, env + [map[]]), Body(cfg, f, st, body, env + [map[]]);
      if a.st.steps < k || b.res.Err? { return; }
      ExecuteSpends(cfg, f, b.st, s, env, k);
    case Iterate(variable, values, body) => EachSpends(cfg, f, st, variable, values, 0, body, env, k);
    case Spread(variable, values, body) =>
      assert Snap(More(st, k)) == Snap(st);
      BatchesSpends(cfg, f, st, Snap(st), variable, values, 0, Width(cfg, f), body, env, k);
    case _ =>
  }

  lemma {:induction false} EachSpends(cfg: Config, f: Frame, st: State, variable: string, values: seq<Value>, i: nat, body: Stmt, env: Environment, k: nat)
    requires Buffered(f, st)
    ensures Spent(f, EachFrom(cfg, f, More(st, k), variable, values, i, body, env), EachFrom(cfg, f, st, variable, values, i, body, env), k)
    decreases st.steps, 7
  {
    if i >= |values| || st.steps == 0 { return; }
    hide EachFrom, Body, Starving;
    EachSteps(cfg, f, st, variable, values, i, body, env);
    EachSteps(cfg, f, More(st, k), variable, values, i, body, env);
    var entered := Allocate(st.(steps := st.steps - 1), None, Some(values[i]), true);
    assert Allocate(More(st, k).(steps := More(st, k).steps - 1), None, Some(values[i]), true) == More(entered, k);
    var scope := env + [map[variable := |st.bindings|]];
    BodySpends(cfg, f, entered, body, scope, k);
    var a, b := Body(cfg, f, More(entered, k), body, scope), Body(cfg, f, entered, body, scope);
    if a.st.steps < k || b.res.Err? || b.res.value.ReturnFlow? || b.res.value.BreakFlow? { return; }
    EachSpends(cfg, f, b.st, variable, values, i + 1, body, env, k);
  }

  // ----- workers -----

  lemma {:induction false} ForkSpends(cfg: Config, f: Frame, st: State, count: nat, hosts: seq<HostState>, k: nat)
    ensures Spent(f, ForkFrom(cfg, f, More(st, k), count, hosts), ForkFrom(cfg, f, st, count, hosts), k)
    decreases count - |hosts|
  {
    if |hosts| < count && st.steps > 0 {
      var (asked, reply) := Ask(cfg, st.host, Fork);
      var next := st.(steps := st.steps - 1, host := asked);
      assert More(st, k).(steps := More(st, k).steps - 1, host := asked) == More(next, k);
      if reply.Answer? {
        ForkSpends(cfg, f, next, count, hosts + [HostState(asked.history + [Forked], None)], k);
      }
    }
  }

  /** A worker granted `k` steps fewer does the same, or starves. */
  lemma {:induction false} WorkerSpends(
    cfg: Config, f: Frame, snapshot: Snapshot, steps: nat, host: HostState, value: Value, variable: string,
    body: Stmt, env: Environment, k: nat)
    ensures Spent(WorkerFrame(f, snapshot),
                  Worker(cfg, f, snapshot, steps + k, host, value, variable, body, env),
                  Worker(cfg, f, snapshot, steps, host, value, variable, body, env), k)
    decreases steps, 6
  {
    assert WorkerStart(snapshot, steps + k, host, value) == More(WorkerStart(snapshot, steps, host, value), k);
    BodySpends(cfg, WorkerFrame(f, snapshot), WorkerStart(snapshot, steps, host, value), body,
               env + [map[variable := |snapshot.bindings|]], k);
  }

  predicate StarvedOutcome(o: Outcome) {
    o.error.Some? && (Bare(o.error.value.message).StepLimit? || Bare(o.error.value.message).OutputLimit?)
  }

  lemma OutcomeOfStarved(f: Frame, o: Out<Flow>, index: nat)
    requires Starved(o)
    ensures StarvedOutcome(WorkerOutcome(f, o, index))
    ensures !HasForked(o.st.host.history) ==> Bare(WorkerOutcome(f, o, index).error.value.message) == StepLimit
  {
  }

  /** Later workers only add outcomes. */
  lemma {:induction false} WorkersExtend(
    cfg: Config, f: Frame, st: State, snapshot: Snapshot, variable: string, values: seq<Value>, first: nat,
    hosts: seq<HostState>, done: seq<Outcome>, body: Stmt, env: Environment)
    ensures var w := WorkersFrom(cfg, f, st, snapshot, variable, values, first, hosts, done, body, env);
            done <= w.outcomes && (|done| <= |values| == |hosts| ==> |w.outcomes| == |values|)
    decreases |values| - |done|
  {
    hide Worker, WorkerOutcome;
    if |done| < |values| && |done| < |hosts| {
      var k := |done|;
      var o := Worker(cfg, f, snapshot, st.steps, hosts[k], values[k], variable, body, env);
      WorkersExtend(cfg, f, st.(steps := o.st.steps), snapshot, variable, values, first, hosts,
                    done + [WorkerOutcome(f, o, first + k)], body, env);
    }
  }

  /** Over a whole batch: the same outcomes with less budget, or some worker starves. */
  lemma {:induction false} WorkersSpend(
    cfg: Config, f: Frame, st: State, snapshot: Snapshot, variable: string, values: seq<Value>, first: nat,
    hosts: seq<HostState>, done: seq<Outcome>, body: Stmt, env: Environment, k: nat)
    ensures var a := WorkersFrom(cfg, f, More(st, k), snapshot, variable, values, first, hosts, done, body, env);
            var b := WorkersFrom(cfg, f, st, snapshot, variable, values, first, hosts, done, body, env);
            && (a.st.steps >= k ==> a.outcomes == b.outcomes && a.st == More(b.st, k))
            && (a.st.steps < k ==> b.st.steps == 0 && exists i :: |done| <= i < |b.outcomes| && StarvedOutcome(b.outcomes[i]))
    decreases st.steps, 7, |values| - |done|
  {
    hide Worker, WorkerOutcome, StarvedOutcome, Starved;
    if |done| >= |values| || |done| >= |hosts| { return; }
    var j := |done|;
    WorkerSpends(cfg, f, snapshot, st.steps, hosts[j], values[j], variable, body, env, k);
    var x := Worker(cfg, f, snapshot, st.steps + k, hosts[j], values[j], variable, body, env);
    var y := Worker(cfg, f, snapshot, st.steps, hosts[j], values[j], variable, body, env);
    var more := done + [WorkerOutcome(f, y, first + j)];
    var next := st.(steps := y.st.steps);
    if x.st.steps >= k {
      SameReport(f, x, y, first + j);
      assert More(st, k).(steps := x.st.steps) == More(next, k);
      WorkersSpend(cfg, f, next, snapshot, variable, values, first, hosts, more, body, env, k);
    } else {
      OutcomeOfStarved(f, y, first + j);
      StarvedSteps(y);
      WorkersExtend(cfg, f, next, snapshot, variable, values, first, hosts, more, body, env);
      var b := WorkersFrom(cfg, f, next, snapshot, variable, values, first, hosts, more, body, env);
      assert more[j] == b.outcomes[j];
    }
  }

  lemma StarvedSteps<T>(o: Out<T>)
    requires Starved(o)
    ensures o.st.steps == 0
  {
  }

  lemma SameReport(f: Frame, x: Out<Flow>, y: Out<Flow>, index: nat)
    requires x.res == y.res && x.st.host == y.st.host
    ensures WorkerOutcome(f, x, index) == WorkerOutcome(f, y, index)
  {
  }

  lemma {:induction false} BatchSpends(
    cfg: Config, f: Frame, st: State, snapshot: Snapshot, variable: string, values: seq<Value>, first: nat,
    body: Stmt, env: Environment, k: nat)
    requires Buffered(f, st) && (f.inWorker ==> |values| <= 1)
    ensures Spent(f, Batch(cfg, f, More(st, k), snapshot, variable, values, first, body, env),
                  Batch(cfg, f, st, snapshot, variable, values, first, body, env), k)
    decreases st.steps, 8
  {
    hide ForkFrom, WorkersFrom, Replay, StarvedOutcome;
    ForkSpends(cfg, f, st, |values|, [], k);
    var x, y := ForkFrom(cfg, f, More(st, k), |values|, []), ForkFrom(cfg, f, st, |values|, []);
    if x.st.steps < k || y.res.Err? { return; }
    WorkersSpend(cfg, f, y.st, snapshot, variable, values, first, y.res.value, [], body, env, k);
    WorkersExtend(cfg, f, y.st, snapshot, variable, values, first, y.res.value, [], body, env);
    var a := WorkersFrom(cfg, f, x.st, snapshot, variable, values, first, y.res.value, [], body, env);
    var b := WorkersFrom(cfg, f, y.st, snapshot, variable, values, first, y.res.value, [], body, env);
    if a.st.steps < k && f.inWorker {
      ForkedHasForked(cfg, f, st, |values|, []);
      ReplayStarved(cfg, f, b.st.host, b.outcomes);
    }
  }

  lemma {:induction false} ForkedHasForked(cfg: Config, f: Frame, st: State, count: nat, hosts: seq<HostState>)
    requires ForkFrom(cfg, f, st, count, hosts).res.Ok? && |hosts| < count
    ensures HasForked(ForkFrom(cfg, f, st, count, hosts).st.host.history)
    decreases count - |hosts|
  {
    var (asked, reply) := Ask(cfg, st.host, Fork);
    var more := hosts + [HostState(asked.history + [Forked], None)];
    if |more| < count {
      ForkedHasForked(cfg, f, st.(steps := st.steps - 1, host := asked), count, more);
    }
  }

  /** A worker prints into its buffer; its host is not asked. */
  lemma {:induction false} BufferedPrint(cfg: Config, f: Frame, h: HostState, lines: seq<string>, i: nat)
    requires h.buffer.Some?
    ensures PrintFrom(cfg, f, h, lines, i).0.history == h.history
    decreases |lines| - i
  {
    if i < |lines| && Print(cfg, h, lines[i]).1.None? {
      BufferedPrint(cfg, f, Print(cfg, h, lines[i]).0, lines, i + 1);
    }
  }

  /** Inside a worker, replaying one starved outcome ends in the step limit or a full buffer. */
  lemma ReplayStarved(cfg: Config, f: Frame, h: HostState, outcomes: seq<Outcome>)
    requires |outcomes| == 1 && StarvedOutcome(outcomes[0]) && h.buffer.Some? && HasForked(h.history)
    ensures var (next, error) := Replay(cfg, f, h, outcomes, 0, None);
            error.Some? && Starving(error.value.message, next)
  {
    hide PrintFrom, HasForked;
    BufferedPrint(cfg, f, h, outcomes[0].lines, 0);
    var (next, failure) := PrintFrom(cfg, f, h, outcomes[0].lines, 0);
    assert Replay(cfg, f, next, outcomes, 1, None.Or(failure).Or(outcomes[0].error)) == (next, failure.Or(outcomes[0].error));
  }

  lemma {:induction false} BatchesSpends(
    cfg: Config, f: Frame, st: State, snapshot: Snapshot, variable: string, values: seq<Value>, start: nat, width: nat,
    body: Stmt, env: Environment, k: nat)
    requires Buffered(f, st) && width >= 1 && (f.inWorker ==> width == 1)
    ensures Spent(f, Batches(cfg, f, More(st, k), snapshot, variable, values, start, width, body, env),
                  Batches(cfg, f, st, snapshot, variable, values, start, width, body, env), k)
    decreases st.steps, 9
  {
    hide Batch;
    if start >= |values| { return; }
    var end := if start + width <= |values| then start + width else |values|;
    BatchSpends(cfg, f, st, snapshot, variable, values[start..end], start, body, env, k);
    var a := Batch(cfg, f, More(st, k), snapshot, variable, values[start..end], start, body, env);
    var b := Batch(cfg, f, st, snapshot, variable, values[start..end], start, body, env);
    if a.st.steps < k || b.res.Err? { return; }
    BatchesSpends(cfg, f, b.st, snapshot, variable, values, end, width, body, env, k);
  }
}
