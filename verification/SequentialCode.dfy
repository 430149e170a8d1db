/** Code without `parallel` never forks, so a worker that runs it has nothing to replay. */
module SequentialCode {
  import opened Wrappers
  import opened Ast
  import opened Types
  import opened Values
  import opened Operations
  import opened Evaluation
  import opened Equations
  import opened Budget
  import opened Schedule

  /** No `parallel` statement anywhere inside. */
  predicate Sequential(s: Stmt)
    decreases s
  {
    match s
    case Parallel(_, _, _) => false
    case LocatedStmt(_, inner) => Sequential(inner)
    case Block(statements) => forall i | 0 <= i < |statements| :: Sequential(statements[i])
    case If(_, thenBranch, elseBranch) => Sequential(thenBranch) && (elseBranch.Some? ==> Sequential(elseBranch.value))
    case While(_, body) => Sequential(body)
    case For(_, _, body) => Sequential(body)
    case Match(_, arms) => forall i | 0 <= i < |arms| :: Sequential(arms[i].body)
    case Function(_, _, _, body) => Sequential(body)
    case _ => true
  }

  predicate AllSequential(stmts: seq<Stmt>) {
    forall i | 0 <= i < |stmts| :: Sequential(stmts[i])
  }

  predicate SequentialFunctions(functions: seq<FunctionDef>) {
    forall i | 0 <= i < |functions| :: Sequential(functions[i].body)
  }

  /** Nothing has been forked, and no function could. */
  predicate Calm(st: State) {
    SequentialFunctions(st.functions) && !HasForked(st.host.history)
  }

  predicate SequentialPlan(plan: Plan) {
    match plan
    case Run(body) => Sequential(body)
    case Repeat(body) => Sequential(body)
    case Iterate(_, _, body) => Sequential(body)
    case Spread(_, _, _) => false
    case _ => true
  }

  lemma {:induction false} UnspannedSequential(s: Stmt)
    requires Sequential(s)
    ensures Sequential(s.Unspanned())
    decreases s
  {
    if s.LocatedStmt? {
      UnspannedSequential(s.inner);
    }
  }

  lemma PlanSequential(cfg: Config, f: Frame, s: Stmt, v: Value)
    requires Sequential(s) && !s.LocatedStmt? && !s.Block?
    ensures SequentialPlan(PlanOf(cfg, f, s, v))
  {
  }

  // ----- steps that do not evaluate -----

  /** A call other than a fork leaves the host calm. */
  lemma AskCalm(cfg: Config, h: HostState, call: HostCall)
    requires !call.Fork? && !HasForked(h.history)
    ensures !HasForked(Ask(cfg, h, call).0.history)
  {
    var asked := h.history + [call];
    assert asked[..|asked| - 1] == h.history;
  }

  lemma HostResultCalm(cfg: Config, f: Frame, st: State, call: HostCall)
    requires Calm(st) && !call.Fork?
    ensures Calm(HostResult(cfg, f, st, call).st)
  {
    AskCalm(cfg, st.host, call);
  }

  lemma CombineCalm(cfg: Config, f: Frame, st: State, e: Expr, values: seq<Value>)
    requires IsStrict(e) && |values| == |Operands(e)| && Calm(st)
    ensures Calm(Combine(cfg, f, st, e, values).st)
  {
    hide HostResult, Calm, PureResult, Operands;
    if e.Effect? {
      forall call: HostCall | !call.Fork?
        ensures Calm(HostResult(cfg, f, st, call).st)
      {
        HostResultCalm(cfg, f, st, call);
      }
    }
  }

  lemma BuiltinCalm(cfg: Config, f: Frame, st: State, builtin: Builtin, args: seq<Value>)
    requires Calm(st)
    ensures Calm(BuiltinResult(cfg, f, st, builtin, args).st)
  {
    hide HostResult, Calm;
    forall call: HostCall | !call.Fork?
      ensures Calm(HostResult(cfg, f, st, call).st)
    {
      HostResultCalm(cfg, f, st, call);
    }
  }

  lemma PrintCalm(cfg: Config, h: HostState, text: string)
    requires !HasForked(h.history)
    ensures !HasForked(Print(cfg, h, text).0.history)
  {
    if h.buffer.None? {
      AskCalm(cfg, h, PrintLine(text));
    }
  }

  lemma WriteCalm(cfg: Config, f: Frame, st: State, place: Place, v: Value)
    requires Calm(st)
    ensures Calm(Write(cfg, f, st, place, v).st)
  {
    hide Set, CheckType, HasForked;
  }

  lemma {:induction false} BindParametersCalm(
    cfg: Config, f: Frame, st: State, parameters: seq<Parameter>, args: seq<Value>, i: nat, scope: map<string, nat>)
    requires Calm(st)
    ensures Calm(BindParameters(cfg, f, st, parameters, args, i, scope).st)
    decreases |parameters| - i
  {
    hide CheckType, HasForked;
    if i < |parameters| && i < |args| {
      var annotation := ResolveAnnotation(cfg.types, parameters[i].annotation);
      var next := Allocate(st, annotation, Some(args[i]), true);
      BindParametersCalm(cfg, f, next, parameters, args, i + 1, scope[parameters[i].name := |st.bindings|]);
    }
  }

  lemma {:induction false} ReserveCalm(cfg: Config, st: State, stmts: seq<Stmt>, env: Environment, slots: seq<Option<nat>>)
    requires Calm(st)
    ensures Calm(Reserve(cfg, st, stmts, env, slots).st)
    decreases |stmts| - |slots|
  {
    hide HasForked;
    if |slots| < |stmts| {
      var stmt, more := stmts[|slots|].Unspanned(), slots + [Some(|st.bindings|)];
      if stmt.Let? {
        ReserveCalm(cfg, Allocate(st, ResolveAnnotation(cfg.types, stmt.annotation), None, true), stmts, env, more);
      } else if stmt.Function? {
        ReserveCalm(cfg, Allocate(st, None, None, false), stmts, Bind(env, stmt.name, |st.bindings|), more);
      } else {
        ReserveCalm(cfg, st, stmts, env, slots + [None]);
      }
    }
  }

  lemma {:induction false} InstallCalm(cfg: Config, st: State, stmts: seq<Stmt>, slots: seq<Option<nat>>, env: Environment, i: nat)
    requires Calm(st) && AllSequential(stmts)
    ensures Calm(Install(cfg, st, stmts, slots, env, i))
    decreases |stmts| - i
  {
    hide HasForked;
    if i < |stmts| && i < |slots| {
      var stmt := stmts[i].Unspanned();
      UnspannedSequential(stmts[i]);
      if stmt.Let? && slots[i].Some? {
        InstallCalm(cfg, st, stmts, slots, Bind(env, stmt.name, slots[i].value), i + 1);
      } else if stmt.Function? && slots[i].Some? && slots[i].value < |st.bindings| {
        var pushed := st.(functions := st.functions + [Definition(cfg, stmts[i], env)]);
        InstallCalm(cfg, Store(pushed, slots[i].value, FunctionValue(|st.functions|)), stmts, slots, env, i + 1);
      } else {
        InstallCalm(cfg, st, stmts, slots, env, i + 1);
      }
    }
  }

  lemma LetResultCalm(cfg: Config, f: Frame, st: State, slot: Option<nat>, value: Expr, v: Value)
    requires Calm(st)
    ensures Calm(LetResult(cfg, f, st, slot, value, v).st)
  {
    hide CheckType, HasForked;
  }

  // ----- the evaluator -----

  lemma {:induction false} EvaluateCalm(cfg: Config, f: Frame, st: State, e: Expr, env: Environment)
    requires Calm(st)
    ensures Calm(Evaluate(cfg, f, st, e, env).st)
    decreases st.steps, 0, e
  {
    hide HasForked, Inner;
    if e.Located? {
      EvaluateCalm(cfg, f.(span := Some(e.span)), st, e.inner, env);
    } else if st.steps > 0 && f.depth < cfg.limits.expressionDepth {
      InnerCalm(cfg, f.(depth := f.depth + 1), st.(steps := st.steps - 1), e, env);
    }
  }

  lemma {:induction false} InnerCalm(cfg: Config, f: Frame, st: State, e: Expr, env: Environment)
    requires Calm(st) && !e.Located?
    ensures Calm(Inner(cfg, f, st, e, env).st)
    decreases st.steps, 3
  {
    hide Calm, Assign, Strict, Logical;
    if e.Identifier? {
    } else if e.Assignment? {
      AssignCalm(cfg, f, st, e.target, e.value, env);
    } else if IsStrict(e) {
      StrictCalm(cfg, f, st, e, env);
    } else {
      LogicalCalm(cfg, f, st, e.left, e.binary, e.right, env);
    }
  }

  lemma {:induction false} StrictCalm(cfg: Config, f: Frame, st: State, e: Expr, env: Environment)
    requires Calm(st) && IsStrict(e)
    ensures Calm(Strict(cfg, f, st, e, env).st)
    decreases st.steps, 2
  {
    hide Calm, Combine, EvaluateFrom, Apply;
    EvaluateFromCalm(cfg, f, st, Operands(e), [], CheckOf(cfg, e), env);
    var o := EvaluateFrom(cfg, f, st, Operands(e), [], CheckOf(cfg, e), env);
    if Refusal(cfg, e).Some? || o.res.Err? { return; }
    if e.Call? {
      ApplyCalm(cfg, f, o.st, o.res.value[0], o.res.value[1..]);
    } else {
      CombineCalm(cfg, f, o.st, e, o.res.value);
    }
  }

  lemma {:induction false} EvaluateFromCalm(
    cfg: Config, f: Frame, st: State, es: seq<Expr>, values: seq<Value>, check: Check, env: Environment)
    requires Calm(st)
    ensures Calm(EvaluateFrom(cfg, f, st, es, values, check, env).st)
    decreases st.steps, 1
  {
    hide Calm, Evaluate, ElementError;
    if |values| >= |es| { return; }
    EvaluateCalm(cfg, f, st, es[|values|], env);
    var o := Evaluate(cfg, f, st, es[|values|], env);
    if o.res.Err? || ElementError(cfg, check, |values|, o.res.value).Some? { return; }
    EvaluateFromCalm(cfg, f, o.st, es, values + [o.res.value], check, env);
  }

  lemma {:induction false} LogicalCalm(cfg: Config, f: Frame, st: State, left: Expr, op: BinaryOp, right: Expr, env: Environment)
    requires Calm(st)
    ensures Calm(Logical(cfg, f, st, left, op, right, env).st)
    decreases st.steps, 2
  {
    hide Calm, Evaluate, Logical;
    LogicalSteps(cfg, f, st, left, op, right, env);
    EvaluateCalm(cfg, f, st, left, env);
    var l := Evaluate(cfg, f, st, left, env);
    if l.res.Ok? {
      EvaluateCalm(cfg, f, l.st, right, env);
    }
  }

  lemma {:induction false} AssignCalm(cfg: Config, f: Frame, st: State, target: Expr, value: Expr, env: Environment)
    requires Calm(st)
    ensures Calm(Assign(cfg, f, st, target, value, env).st)
    decreases st.steps, 2
  {
    hide Calm, Assign, Evaluate, Target, Permission, Write;
    AssignSteps(cfg, f, st, target, value, env);
    TargetCalm(cfg, f, st, target, env);
    var t := Target(cfg, f, st, target, env);
    if t.res.Err? || Permission(f, t.st, t.res.value.id).Some? { return; }
    EvaluateCalm(cfg, f, t.st, value, env);
    var r := Evaluate(cfg, f, t.st, value, env);
    if r.res.Ok? {
      WriteCalm(cfg, f, r.st, t.res.value, r.res.value);
    }
  }

  lemma {:induction false} TargetCalm(cfg: Config, f: Frame, st: State, e: Expr, env: Environment)
    requires Calm(st)
    ensures Calm(Target(cfg, f, st, e, env).st)
    decreases st.steps, 1, e
  {
    if e.Located? {
      TargetCalm(cfg, f.(span := Some(e.span)), st, e.inner, env);
      return;
    }
    hide HasForked;
    if st.steps == 0 || (!e.Property? && !e.Index?) { return; }
    var ticked := st.(steps := st.steps - 1);
    assert Calm(ticked);
    hide Calm, Target, Evaluate;
    TargetSteps(cfg, f, st, e, env);
    TargetCalm(cfg, f, ticked, e.owner, env);
    var o := Target(cfg, f, ticked, e.owner, env);
    if o.res.Err? || e.Property? { return; }
    EvaluateCalm(cfg, f, o.st, e.index, env);
  }

  lemma {:induction false} ApplyCalm(cfg: Config, f: Frame, st: State, callee: Value, args: seq<Value>)
    requires Calm(st)
    ensures Calm(Apply(cfg, f, st, callee, args).st)
    decreases st.steps, 8
  {
    hide BuiltinResult, Print, HasForked, CallFunction;
    if callee.BuiltinValue? {
      BuiltinCalm(cfg, f, st, callee.builtin, args);
    } else if callee.PrintValue? {
      PrintCalm(cfg, st.host, Joined(cfg, args));
    } else if callee.FunctionValue? && callee.id < |st.functions| {
      CallCalm(cfg, f, st, st.functions[callee.id], args);
    }
  }

  lemma {:induction false} CallCalm(cfg: Config, f: Frame, st: State, callee: FunctionDef, args: seq<Value>)
    requires Calm(st) && Sequential(callee.body)
    ensures Calm(CallFunction(cfg, f, st, callee, args).st)
    decreases st.steps, 7
  {
    hide Calm, BindParameters, Leave, Body, Sequential;
    BindParametersCalm(cfg, f, st, callee.parameters, args, 0, map[]);
    var bound := BindParameters(cfg, f, st, callee.parameters, args, 0, map[]);
    if bound.res.Ok? {
      BodyCalm(cfg, Enter(f, callee), bound.st, callee.body, callee.closure + [bound.res.value]);
    }
  }

  lemma {:induction false} StatementsCalm(cfg: Config, f: Frame, st: State, stmts: seq<Stmt>, env: Environment)
    requires Calm(st) && AllSequential(stmts)
    ensures Calm(Statements(cfg, f, st, stmts, env).st)
    decreases st.steps, 4
  {
    hide Calm, AllSequential, Reserve, Install, ExecuteFrom;
    ReserveCalm(cfg, st, stmts, env, []);
    var r := Reserve(cfg, st, stmts, env, []);
    InstallCalm(cfg, r.st, stmts, r.slots, r.env, 0);
    ExecuteFromCalm(cfg, f, Install(cfg, r.st, stmts, r.slots, r.env, 0), stmts, r.slots, r.env, 0);
  }

  lemma {:induction false} RunLetCalm(cfg: Config, f: Frame, st: State, slot: Option<nat>, value: Expr, env: Environment)
    requires Calm(st)
    ensures Calm(RunLet(cfg, f, st, slot, value, env).st)
    decreases st.steps, 1
  {
    hide Calm, Evaluate, LetResult;
    EvaluateCalm(cfg, f, st, value, env);
    var o := Evaluate(cfg, f, st, value, env);
    if o.res.Ok? {
      LetResultCalm(cfg, f, o.st, slot, value, o.res.value);
    }
  }

  lemma {:induction false} ExecuteFromCalm(
    cfg: Config, f: Frame, st: State, stmts: seq<Stmt>, slots: seq<Option<nat>>, env: Environment, i: nat)
    requires Calm(st) && AllSequential(stmts)
    ensures Calm(ExecuteFrom(cfg, f, st, stmts, slots, env, i).st)
    decreases st.steps, 3
  {
    if i >= |stmts| || i >= |slots| || st.steps == 0 { return; }
    hide HasForked, ExecuteFrom, RunLet, Execute, Sequential;
    ExecuteFromSteps(cfg, f, st, stmts, slots, env, i);
    UnspannedSequential(stmts[i]);
    var stmt, here := stmts[i].Unspanned(), f.(span := stmts[i].Where().Or(f.span));
    var ticked := st.(steps := st.steps - 1);
    if stmt.Let? {
      RunLetCalm(cfg, here, ticked, slots[i], stmt.value, env);
      var l := RunLet(cfg, here, ticked, slots[i], stmt.value, env);
      if l.res.Err? { return; }
      ExecuteFromCalm(cfg, f, l.st, stmts, slots, Bind(env, stmt.name, slots[i].GetOr(0)), i + 1);
    } else {
      ExecuteCalm(cfg, here, ticked, stmt, env);
      var o := Execute(cfg, here, ticked, stmt, env);
      if o.res.Err? || !o.res.value.Normal? { return; }
      ExecuteFromCalm(cfg, f, o.st, stmts, slots, env, i + 1);
    }
  }

  lemma {:induction false} BodyCalm(cfg: Config, f: Frame, st: State, body: Stmt, env: Environment)
    requires Calm(st) && Sequential(body)
    ensures Calm(Body(cfg, f, st, body, env).st)
    decreases st.steps, 5, body
  {
    hide Calm, Statements;
    if body.LocatedStmt? {
      BodyCalm(cfg, f.(span := Some(body.span)), st, body.inner, env);
    } else {
      StatementsCalm(cfg, f, st, Contents(body), env);
    }
  }

  lemma {:induction false} ExecuteCalm(cfg: Config, f: Frame, st: State, s: Stmt, env: Environment)
    requires Calm(st) && Sequential(s)
    ensures Calm(Execute(cfg, f, st, s, env).st)
    decreases st.steps, 8, s
  {
    hide Calm, PlanOf, Evaluate, Resume, Body, Settle;
    if s.LocatedStmt? {
      ExecuteCalm(cfg, f.(span := Some(s.span)), st, s.inner, env);
    } else if s.Block? {
      BodyCalm(cfg, f, st, s, env + [map[]]);
    } else if HeadOf(s).Some? {
      EvaluateCalm(cfg, f, st, HeadOf(s).value, env);
      var o := Evaluate(cfg, f, st, HeadOf(s).value, env);
      if o.res.Err? { return; }
      PlanSequential(cfg, f, s, o.res.value);
      ResumeCalm(cfg, f, o.st, s, PlanOf(cfg, f, s, o.res.value), env);
    }
  }

  lemma {:induction false} ResumeCalm(cfg: Config, f: Frame, st: State, s: Stmt, plan: Plan, env: Environment)
    requires Calm(st) && Sequential(s) && SequentialPlan(plan)
    ensures Calm(Resume(cfg, f, st, s, plan, env).st)
    decreases st.steps, 10
  {
    hide Calm, Body, Execute, EachFrom, Settle, Sequential;
    match plan
    case Run(body) => BodyCalm(cfg, f, st, body, env + [map[]]);
    case Repeat(body) =>
      BodyCalm(cfg, f, st, body, env + [map[]]);
      var b := Body(cfg, f, st, body, env + [map[]]);
      if b.res.Err? || b.res.value.ReturnFlow? || b.res.value.BreakFlow? { return; }
      ExecuteCalm(cfg, f, b.st, s, env);
    case Iterate(variable, values, body) => EachCalm(cfg, f, st, variable, values, 0, body, env);
    case _ =>
  }

  lemma {:induction false} EachCalm(
    cfg: Config, f: Frame, st: State, variable: string, values: seq<Value>, i: nat, body: Stmt, env: Environment)
    requires Calm(st) && Sequential(body)
    ensures Calm(EachFrom(cfg, f, st, variable, values, i, body, env).st)
    decreases st.steps, 7
  {
    if i >= |values| || st.steps == 0 { return; }
    hide HasForked, Body, EachFrom, Sequential;
    EachSteps(cfg, f, st, variable, values, i, body, env);
    var entered := Allocate(st.(steps := st.steps - 1), None, Some(values[i]), true);
    var scope := env + [map[variable := |st.bindings|]];
    BodyCalm(cfg, f, entered, body, scope);
    var b := Body(cfg, f, entered, body, scope);
    if b.res.Err? || b.res.value.ReturnFlow? || b.res.value.BreakFlow? { return; }
    EachCalm(cfg, f, b.st, variable, values, i + 1, body, env);
  }

  // ----- workers -----

  /** A worker that is refused a step and can reach no `parallel` reports exactly the step limit. */
  lemma SequentialJobShowsStarvation(job: Job, n: nat)
    requires Wants(job, n)
    requires Sequential(job.body) && SequentialFunctions(job.snapshot.functions) && !HasForked(job.host.history)
    ensures Report(job, n).error.Some? && Bare(Report(job, n).error.value.message) == StepLimit
  {
    RefusedJobStarves(job, n);
    hide HasForked, Body, Report, Sequential;
    BodyCalm(job.cfg, WorkerFrame(job.frame, job.snapshot), WorkerStart(job.snapshot, n, job.host, job.value), job.body,
             job.env + [map[job.variable := |job.snapshot.bindings|]]);
  }

  /** Every host a batch hands to its workers has forked nothing yet. */
  lemma {:induction false} ForkedHostsAreCalm(cfg: Config, f: Frame, st: State, count: nat, hosts: seq<HostState>)
    requires forall i | 0 <= i < |hosts| :: !HasForked(hosts[i].history)
    requires ForkFrom(cfg, f, st, count, hosts).res.Ok?
    ensures forall i | 0 <= i < |ForkFrom(cfg, f, st, count, hosts).res.value| ::
              !HasForked(ForkFrom(cfg, f, st, count, hosts).res.value[i].history)
    decreases count - |hosts|
  {
    if |hosts| < count {
      var (asked, reply) := Ask(cfg, st.host, Fork);
      ForkedHostsAreCalm(cfg, f, st.(steps := st.steps - 1, host := asked), count,
                         hosts + [HostState(asked.history + [Forked], None)]);
    }
  }

  /**
   * An uncovered batch of workers that can reach no `parallel`: whatever the
   * schedule, every refused worker reports exactly the step limit, and one is refused.
   */
  lemma UncoveredBatchShowsTheStepLimit(jobs: seq<Job>, budget: nat, schedule: seq<nat>)
    requires Complete(jobs, Interleave(jobs, budget, schedule)) && !BudgetCovers(jobs, budget)
    requires forall i | 0 <= i < |jobs| ::
               && Sequential(jobs[i].body) && SequentialFunctions(jobs[i].snapshot.functions)
               && !HasForked(jobs[i].host.history)
    ensures var m := Interleave(jobs, budget, schedule);
            && (exists i :: 0 <= i < |jobs| && m.refused[i])
            && forall i | 0 <= i < |jobs| && m.refused[i] ::
                 Reports(jobs, m)[i].error.Some? && Bare(Reports(jobs, m)[i].error.value.message) == StepLimit
  {
    hide HasForked, Sequential, Interleave, Report, Wants;
    var m := Interleave(jobs, budget, schedule);
    ScheduleIndependence(jobs, budget, schedule);
    StepsAreConserved(jobs, budget, schedule);
    forall i | 0 <= i < |jobs| && m.refused[i]
      ensures Reports(jobs, m)[i].error.Some? && Bare(Reports(jobs, m)[i].error.value.message) == StepLimit
    {
      SequentialJobShowsStarvation(jobs[i], m.granted[i]);
    }
  }
}
