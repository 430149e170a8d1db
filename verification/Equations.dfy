/** Single steps of the evaluator, each as one equation between a run and the runs of its parts. */
module Equations {
  import opened Wrappers
  import opened Ast
  import opened Values
  import opened Evaluation

  /** An expression that is not a location wrapper costs a step and a level of depth. */
  lemma EvaluateSteps(cfg: Config, f: Frame, st: State, e: Expr, env: Environment)
    requires !e.Located?
    ensures Evaluate(cfg, f, st, e, env) ==
              if st.steps == 0 then Fail(f, st, StepLimit)
              else if f.depth >= cfg.limits.expressionDepth then Fail(f, st.(steps := st.steps - 1), ExpressionDepth)
              else Inner(cfg, f.(depth := f.depth + 1), st.(steps := st.steps - 1), e, env)
  {
    hide Inner;
  }

  /** A strict node: operands first, then the operation. */
  lemma StrictSteps(cfg: Config, f: Frame, st: State, e: Expr, env: Environment)
    requires IsStrict(e) && Refusal(cfg, e).None?
    ensures var o := EvaluateFrom(cfg, f, st, Operands(e), [], CheckOf(cfg, e), env);
            Strict(cfg, f, st, e, env) ==
              if o.res.Err? then Out(o.st, Err(o.res.error))
              else if e.Call? then Apply(cfg, f, o.st, o.res.value[0], o.res.value[1..])
              else Combine(cfg, f, o.st, e, o.res.value)
  {
    hide EvaluateFrom, Apply, Combine;
  }

  lemma StrictInner(cfg: Config, f: Frame, st: State, e: Expr, env: Environment)
    requires IsStrict(e)
    ensures Inner(cfg, f, st, e, env) == Strict(cfg, f, st, e, env)
  {
    hide Strict;
  }

  /** A call costs a step, then its callee and arguments are evaluated, then the callee is applied. */
  lemma CallSteps(cfg: Config, f: Frame, st: State, callee: Expr, arguments: seq<Expr>, env: Environment)
    requires st.steps > 0 && f.depth < cfg.limits.expressionDepth
    ensures var o := EvaluateFrom(cfg, f.(depth := f.depth + 1), st.(steps := st.steps - 1), [callee] + arguments, [], Unchecked, env);
            Evaluate(cfg, f, st, Call(callee, arguments), env) ==
              if o.res.Err? then Out(o.st, Err(o.res.error))
              else Apply(cfg, f.(depth := f.depth + 1), o.st, o.res.value[0], o.res.value[1..])
  {
    var e, g, one := Call(callee, arguments), f.(depth := f.depth + 1), st.(steps := st.steps - 1);
    assert Operands(e) == [callee] + arguments && CheckOf(cfg, e) == Unchecked && Refusal(cfg, e).None? && IsStrict(e);
    hide EvaluateFrom, Apply, Combine, Evaluate, Inner, Strict, Refusal, IsStrict, CheckOf;
    EvaluateSteps(cfg, f, st, e, env);
    StrictInner(cfg, g, one, e, env);
    StrictSteps(cfg, g, one, e, env);
  }

  lemma TargetLeaf(cfg: Config, f: Frame, st: State, e: Expr, env: Environment)
    requires !e.Located? && (st.steps == 0 || (!e.Property? && !e.Index?))
    ensures Target(cfg, f, st, e, env) ==
              if st.steps == 0 then Fail(f, st, StepLimit)
              else if !e.Identifier? then Fail(f, st.(steps := st.steps - 1), BadAssignmentRoot)
              else if LookUp(env, e.name).None? then Fail(f, st.(steps := st.steps - 1), UndefinedName(e.name))
              else Out(st.(steps := st.steps - 1), Ok(Place(LookUp(env, e.name).value, [])))
  {
    hide LookUp;
  }

  /** A short-circuit operator. */
  lemma LogicalSteps(cfg: Config, f: Frame, st: State, left: Expr, op: BinaryOp, right: Expr, env: Environment)
    ensures var l := Evaluate(cfg, f, st, left, env);
            var r := Evaluate(cfg, f, l.st, right, env);
            Logical(cfg, f, st, left, op, right, env) ==
              if l.res.Err? then l
              else if !l.res.value.BooleanValue? then Fail(f, l.st, ExpectedBoolean(l.res.value.KindName()))
              else if (op.And? && !l.res.value.boolean) || (op.Or? && l.res.value.boolean) then l
              else if r.res.Err? || r.res.value.BooleanValue? then r
              else Fail(f, r.st, ExpectedBoolean(r.res.value.KindName()))
  {
    hide Evaluate;
  }

  /** One selector of an assignment target. */
  lemma TargetSteps(cfg: Config, f: Frame, st: State, e: Expr, env: Environment)
    requires st.steps > 0 && (e.Property? || e.Index?)
    ensures var o := Target(cfg, f, st.(steps := st.steps - 1), e.owner, env);
            Target(cfg, f, st, e, env) ==
              if o.res.Err? then o
              else if e.Property? then Out(o.st, Ok(o.res.value.(selectors := o.res.value.selectors + [Member(e.name)])))
              else
                var i := Evaluate(cfg, f, o.st, e.index, env);
                if i.res.Err? then Out(i.st, Err(i.res.error))
                else Out(i.st, Ok(o.res.value.(selectors := o.res.value.selectors + [At(i.res.value)])))
  {
    hide Evaluate;
  }

  /** The half of an assignment after its target is known and may be written. */
  function ValueThenWrite(cfg: Config, f: Frame, st: State, place: Place, value: Expr, env: Environment): (o: Out<Value>)
    ensures Leads(st, o.st)
  {
    var r := Evaluate(cfg, f, st, value, env);
    if r.res.Err? then r else Write(cfg, f, r.st, place, r.res.value)
  }

  /** An assignment: target, permission, value, write. */
  lemma AssignSteps(cfg: Config, f: Frame, st: State, target: Expr, value: Expr, env: Environment)
    ensures var t := Target(cfg, f, st, target, env);
            Assign(cfg, f, st, target, value, env) ==
              if t.res.Err? then Out(t.st, Err(t.res.error))
              else if Permission(f, t.st, t.res.value.id).Some? then Fail(f, t.st, Permission(f, t.st, t.res.value.id).value)
              else ValueThenWrite(cfg, f, t.st, t.res.value, value, env)
  {
    hide Write, Permission;
  }

  /** One turn of a `for` loop. */
  lemma EachSteps(cfg: Config, f: Frame, st: State, variable: string, values: seq<Value>, i: nat, body: Stmt, env: Environment)
    requires i < |values| && st.steps > 0
    ensures var entered := Allocate(st.(steps := st.steps - 1), None, Some(values[i]), true);
            var b := Body(cfg, f, entered, body, env + [map[variable := |st.bindings|]]);
            EachFrom(cfg, f, st, variable, values, i, body, env) ==
              if b.res.Err? || b.res.value.ReturnFlow? then b
              else if b.res.value.BreakFlow? then Out(b.st, Ok(Normal))
              else EachFrom(cfg, f, b.st, variable, values, i + 1, body, env)
  {
  }

  /** One statement of a list. */
  lemma ExecuteFromSteps(
    cfg: Config, f: Frame, st: State, stmts: seq<Stmt>, slots: seq<Option<nat>>, env: Environment, i: nat)
    requires i < |stmts| && i < |slots| && st.steps > 0
    ensures var stmt := stmts[i].Unspanned();
            var here := f.(span := stmts[i].Where().Or(f.span));
            var ticked := st.(steps := st.steps - 1);
            ExecuteFrom(cfg, f, st, stmts, slots, env, i) ==
              if stmt.Let? then
                var l := RunLet(cfg, here, ticked, slots[i], stmt.value, env);
                if l.res.Err? then Out(l.st, Err(l.res.error))
                else ExecuteFrom(cfg, f, l.st, stmts, slots, Bind(env, stmt.name, slots[i].GetOr(0)), i + 1)
              else
                var o := Execute(cfg, here, ticked, stmt, env);
                if o.res.Ok? && o.res.value.Normal? then ExecuteFrom(cfg, f, o.st, stmts, slots, env, i + 1) else o
  {
    hide RunLet, Execute;
  }

  /** A statement with a head: its value decides what happens next. */
  lemma ExecuteSteps(cfg: Config, f: Frame, st: State, s: Stmt, env: Environment)
    requires !s.LocatedStmt? && !s.Block?
    ensures HeadOf(s).None? ==> Execute(cfg, f, st, s, env) == Settle(f, st, PlanOf(cfg, f, s, NullValue))
    ensures HeadOf(s).Some? ==>
              var o := Evaluate(cfg, f, st, HeadOf(s).value, env);
              && (o.res.Err? ==> Execute(cfg, f, st, s, env) == Out(o.st, Err(o.res.error)))
              && (o.res.Ok? ==> Execute(cfg, f, st, s, env) == Resumed(cfg, f, o.st, s, PlanOf(cfg, f, s, o.res.value), env))
  {
    hide Evaluate, PlanOf, Settle, Body, EachFrom, Batches;
    if HeadOf(s).Some? {
      var o := Evaluate(cfg, f, st, HeadOf(s).value, env);
      if o.res.Ok? {
        ResumeSteps(cfg, f, o.st, s, PlanOf(cfg, f, s, o.res.value), env);
      }
    }
  }

  /** The plan of a statement, carried out. */
  function Resumed(cfg: Config, f: Frame, st: State, s: Stmt, plan: Plan, env: Environment): Out<Flow> {
    match plan
    case Run(body) => Body(cfg, f, st, body, env + [map[]])
    case Repeat(body) =>
      var b := Body(cfg, f, st, body, env + [map[]]);
      if b.res.Err? || b.res.value.ReturnFlow? then b
      else if b.res.value.BreakFlow? then Out(b.st, Ok(Normal))
      else Execute(cfg, f, b.st, s, env)
    case Iterate(variable, values, body) => EachFrom(cfg, f, st, variable, values, 0, body, env)
    case Spread(variable, values, body) => Batches(cfg, f, st, Snap(st), variable, values, 0, Width(cfg, f), body, env)
    case _ => Settle(f, st, plan)
  }

  lemma ResumeSteps(cfg: Config, f: Frame, st: State, s: Stmt, plan: Plan, env: Environment)
    ensures Resume(cfg, f, st, s, plan, env) == Resumed(cfg, f, st, s, plan, env)
  {
    hide Body, Execute, EachFrom, Batches, Settle;
  }
}
