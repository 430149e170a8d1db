/** Inference rules for statements. */
module Rules {
  import opened Wrappers
  import opened Source
  import opened Ast
  import opened Values
  import opened Evaluation
  import opened Equations
  import opened Laws
  import opened Assigning

  /** The shape of a derivation; which rule was used is read off the statement. */
  datatype Derivation = Axiom | One(only: Derivation) | Two(first: Derivation, second: Derivation)

  // ----- patterns -----

  predicate PatternHolds(p: Pattern, v: Value) {
    match p
    case LocatedPattern(_, inner) => PatternHolds(inner, v)
    case IntegerPattern(i) => v == IntegerValue(i)
    case StringPattern(text) => v == StringValue(text)
    case BooleanPattern(b) => v == BooleanValue(b)
    case NullPattern => v == NullValue
    case Wildcard => true
  }

  lemma {:induction false} PatternHoldsIff(p: Pattern, v: Value)
    ensures PatternMatches(p, v) <==> PatternHolds(p, v)
  {
    if p.LocatedPattern? {
      PatternHoldsIff(p.inner, v);
    }
  }

  /** Arm `k` matches and no earlier one does. */
  predicate Chosen(arms: seq<MatchArm>, v: Value, k: nat) {
    k < |arms| && PatternHolds(arms[k].pattern, v) && forall j | 0 <= j < k :: !PatternHolds(arms[j].pattern, v)
  }

  predicate NoneHolds(arms: seq<MatchArm>, v: Value) {
    forall j | 0 <= j < |arms| :: !PatternHolds(arms[j].pattern, v)
  }

  lemma {:induction false} SelectsFrom(arms: seq<MatchArm>, v: Value, i: nat)
    requires forall j | 0 <= j < i && j < |arms| :: !PatternHolds(arms[j].pattern, v)
    ensures var arm := SelectArm(arms, v, i); if arm.Some? then Chosen(arms, v, arm.value) else NoneHolds(arms, v)
    decreases |arms| - i
  {
    hide PatternMatches, PatternHolds;
    if i < |arms| {
      PatternHoldsIff(arms[i].pattern, v);
      if !PatternMatches(arms[i].pattern, v) {
        SelectsFrom(arms, v, i + 1);
      }
    }
  }

  // ----- rules -----

  /** `return` ends in the returned value if the contract of the function admits it. */
  function Returning(cfg: Config, f: Frame, blamed: Option<Span>, st: State, v: Value): Out<Flow> {
    if Admits(cfg, f.result, v) then Out(st, Ok(ReturnFlow(v))) else Fault(f.(span := blamed), st, Mismatch(cfg, f.result, v))
  }

  function Failing(v: Out<Value>): Out<Flow>
    requires v.res.Err?
  {
    Out(v.st, Err(v.res.error))
  }

  /** How many iterations run at once: one inside a worker, elsewhere as many as the limit allows. */
  function AtOnce(cfg: Config, f: Frame): (n: nat)
    ensures n >= 1
  {
    if cfg.limits.workers > 1 && !f.inWorker then cfg.limits.workers else 1
  }

  /** The statement, run from the state in the environment, ends in `o`. */
  ghost predicate Runs(d: Derivation, cfg: Config, f: Frame, st: State, s: Stmt, env: Environment, o: Out<Flow>)
    decreases d
  {
    match s
    case LocatedStmt(span, inner) => d.One? && Runs(d.only, cfg, f.(span := Some(span)), st, inner, env, o)
    case Block(_) => d.One? && RunsBody(d.only, cfg, f, st, s, env + [map[]], o)
    case Break => o == Out(st, Ok(BreakFlow))
    case Continue => o == Out(st, Ok(ContinueFlow))
    case TypeDecl(_, _) => o == Out(st, Ok(Normal))
    case Function(_, _, _, _) => o == Out(st, Ok(Normal))
    case Let(_, _, _) => o == Fault(f, st, Panic)  // a `let` is run by its list
    case ExprStmt(e) =>
      var v := Evaluate(cfg, f, st, e, env);
      o == if v.res.Err? then Failing(v) else Out(v.st, Ok(Normal))
    case Return(None) => o == Returning(cfg, f, f.span, st, NullValue)
    case Return(Some(e)) =>
      var v := Evaluate(cfg, f, st, e, env);
      o == if v.res.Err? then Failing(v) else Returning(cfg, f, e.Where().Or(f.span), v.st, v.res.value)
    case If(condition, thenBranch, elseBranch) =>
      var v := Evaluate(cfg, f, st, condition, env);
      if v.res.Err? then o == Failing(v)
      else if v.res.value == BooleanValue(true) then d.One? && RunsBody(d.only, cfg, f, v.st, thenBranch, env + [map[]], o)
      else if v.res.value == BooleanValue(false) then
        if elseBranch.Some? then d.One? && RunsBody(d.only, cfg, f, v.st, elseBranch.value, env + [map[]], o)
        else o == Out(v.st, Ok(Normal))
      else o == NotBoolean(f, condition, v)
    case While(condition, body) =>
      var v := Evaluate(cfg, f, st, condition, env);
      if v.res.Err? then o == Failing(v)
      else if v.res.value == BooleanValue(true) then
        d.Two? && exists b ::
          && RunsBody(d.first, cfg, f, v.st, body, env + [map[]], b)
          && if Stops(b) then o == Stopped(b) else Runs(d.second, cfg, f, b.st, s, env, o)
      else if v.res.value == BooleanValue(false) then o == Out(v.st, Ok(Normal))
      else o == NotBoolean(f, condition, v)
    case For(variable, iterable, body) =>
      var v := Evaluate(cfg, f, st, iterable, env);
      if v.res.Err? then o == Failing(v)
      else if v.res.value.ArrayValue? then d.One? && RunsEach(d.only, cfg, f, v.st, variable, v.res.value.elements, 0, body, env, o)
      else o == Fault(f, v.st, NotAnArray("for"))
    case Parallel(variable, iterable, body) =>
      var v := Evaluate(cfg, f, st, iterable, env);
      if v.res.Err? then o == Failing(v)
      else if v.res.value.ArrayValue?
      then o == Batches(cfg, f, v.st, Snap(v.st), variable, v.res.value.elements, 0, AtOnce(cfg, f), body, env)
      else o == Fault(f, v.st, NotAnArray("parallel"))
    case Match(subject, arms) =>
      var v := Evaluate(cfg, f, st, subject, env);
      if v.res.Err? then o == Failing(v)
      else if NoneHolds(arms, v.res.value) then o == Out(v.st, Ok(Normal))
      else exists k: nat ::
        Chosen(arms, v.res.value, k) && d.One? && RunsBody(d.only, cfg, f, v.st, arms[k].body, env + [map[]], o)
  }

  function NotBoolean(f: Frame, condition: Expr, v: Out<Value>): Out<Flow>
    requires v.res.Ok?
  {
    Fault(f.(span := condition.Where().Or(f.span)), v.st, ExpectedBoolean(v.res.value.KindName()))
  }

  /** A turn of a loop that is the last: it failed, broke or returned. */
  predicate Stops(b: Out<Flow>) {
    b.res.Err? || b.res.value.BreakFlow? || b.res.value.ReturnFlow?
  }

  /** A break ends at its loop; everything else goes on outwards. */
  function Stopped(b: Out<Flow>): Out<Flow> {
    if b.res == Ok(BreakFlow) then Out(b.st, Ok(Normal)) else b
  }

  /** The statements of a body share the scope the environment ends with. */
  ghost predicate RunsBody(d: Derivation, cfg: Config, f: Frame, st: State, body: Stmt, env: Environment, o: Out<Flow>)
    decreases d
  {
    if body.LocatedStmt? then d.One? && RunsBody(d.only, cfg, f.(span := Some(body.span)), st, body.inner, env, o)
    else if env == [] then o == Fault(f, st, Panic)
    else
      var r := Reserve(cfg, st, Contents(body), env, []);
      d.One? && RunsList(d.only, cfg, f, Install(cfg, r.st, Contents(body), r.slots, r.env, 0), Contents(body), r.slots, r.env, 0, o)
  }

  /** The statements from `i` on, each for a step. */
  ghost predicate RunsList(
    d: Derivation, cfg: Config, f: Frame, st: State, stmts: seq<Stmt>, slots: seq<Option<nat>>, env: Environment, i: nat, o: Out<Flow>)
    decreases d
  {
    if i >= |stmts| || i >= |slots| then o == Out(st, Ok(Normal))
    else
      var s, here := stmts[i].Unspanned(), f.(span := stmts[i].Where().Or(f.span));
      if st.steps == 0 then o == Fault(here, st, StepLimit)
      else if s.Let? then
        var v := Evaluate(cfg, here, Ticked(st), s.value, env);
        if v.res.Err? then o == Failing(v)
        else if slots[i].None? || slots[i].value >= |v.st.bindings| then o == Fault(here, v.st, Panic)
        else
          var slot := slots[i].value;
          var binding := v.st.bindings[slot];
          if !Admits(cfg, binding.annotation, v.res.value)
          then o == Fault(here.(span := s.value.Where().Or(here.span)), v.st, Mismatch(cfg, binding.annotation, v.res.value))
          else
            var after := v.st.(bindings := v.st.bindings[slot := binding.(value := Some(v.res.value))]);
            d.One? && RunsList(d.only, cfg, f, after, stmts, slots, Bind(env, s.name, slot), i + 1, o)
      else
        d.Two? && exists b ::
          && Runs(d.first, cfg, here, Ticked(st), s, env, b)
          && if b.res == Ok(Normal) then RunsList(d.second, cfg, f, b.st, stmts, slots, env, i + 1, o) else o == b
  }

  /** The turns of a `for` from `i` on, each for a step, with the item in a slot of its own. */
  ghost predicate RunsEach(
    d: Derivation, cfg: Config, f: Frame, st: State, variable: string, values: seq<Value>, i: nat, body: Stmt, env: Environment, o: Out<Flow>)
    decreases d
  {
    if i >= |values| then o == Out(st, Ok(Normal))
    else if st.steps == 0 then o == Fault(f, st, StepLimit)
    else
      var entered := Ticked(st).(bindings := st.bindings + [Binding(None, Some(values[i]), true)]);
      d.Two? && exists b ::
        && RunsBody(d.first, cfg, f, entered, body, env + [map[variable := |st.bindings|]], b)
        && if Stops(b) then o == Stopped(b) else RunsEach(d.second, cfg, f, b.st, variable, values, i + 1, body, env, o)
  }

  // ----- what the rules derive is what the interpreter does -----

  lemma PlanReturns(cfg: Config, f: Frame, st: State, s: Stmt, v: Value, env: Environment)
    requires s.Return?
    ensures Resumed(cfg, f, st, s, PlanOf(cfg, f, s, v), env) ==
            Returning(cfg, f, (if s.returned.Some? then s.returned.value.Where() else None).Or(f.span), st, v)
  {
    AdmitsIff(cfg, f.result, v);
    hide CheckType, Admits;
  }

  /** The plan of a statement whose head has a value, spelled out. */
  lemma PlanBranches(cfg: Config, f: Frame, st: State, s: Stmt, v: Value, env: Environment)
    ensures s.If? && v == BooleanValue(true) ==>
              Resumed(cfg, f, st, s, PlanOf(cfg, f, s, v), env) == Body(cfg, f, st, s.thenBranch, env + [map[]])
    ensures s.If? && v == BooleanValue(false) ==>
              Resumed(cfg, f, st, s, PlanOf(cfg, f, s, v), env) ==
              if s.elseBranch.Some? then Body(cfg, f, st, s.elseBranch.value, env + [map[]]) else Out(st, Ok(Normal))
    ensures (s.If? || s.While?) && !v.BooleanValue? ==>
              Resumed(cfg, f, st, s, PlanOf(cfg, f, s, v), env) == NotBoolean(f, s.condition, Out(st, Ok(v)))
    ensures s.ExprStmt? ==> Resumed(cfg, f, st, s, PlanOf(cfg, f, s, v), env) == Out(st, Ok(Normal))
  {
    hide Body;
  }

  lemma PlanLoops(cfg: Config, f: Frame, st: State, s: Stmt, v: Value, env: Environment)
    ensures s.While? && v == BooleanValue(true) ==>
              var b := Body(cfg, f, st, s.body, env + [map[]]);
              Resumed(cfg, f, st, s, PlanOf(cfg, f, s, v), env) == if Stops(b) then Stopped(b) else Execute(cfg, f, b.st, s, env)
    ensures s.While? && v == BooleanValue(false) ==> Resumed(cfg, f, st, s, PlanOf(cfg, f, s, v), env) == Out(st, Ok(Normal))
    ensures s.For? ==>
              Resumed(cfg, f, st, s, PlanOf(cfg, f, s, v), env) ==
              if v.ArrayValue? then EachFrom(cfg, f, st, s.variable, v.elements, 0, s.body, env) else Fault(f, st, NotAnArray("for"))
    ensures s.Parallel? ==>
              Resumed(cfg, f, st, s, PlanOf(cfg, f, s, v), env) ==
              if v.ArrayValue? then Batches(cfg, f, st, Snap(st), s.variable, v.elements, 0, Width(cfg, f), s.body, env)
              else Fault(f, st, NotAnArray("parallel"))
  {
    hide Body, Execute, EachFrom, Batches;
  }

  lemma PlanOfMatch(cfg: Config, f: Frame, st: State, s: Stmt, v: Value, env: Environment)
    requires s.Match?
    ensures var arm := SelectArm(s.arms, v, 0);
            Resumed(cfg, f, st, s, PlanOf(cfg, f, s, v), env) ==
              if arm.Some? then Body(cfg, f, st, s.arms[arm.value].body, env + [map[]]) else Out(st, Ok(Normal))
  {
    hide Body, SelectArm;
  }

  lemma ChosenOnce(arms: seq<MatchArm>, v: Value, j: nat, k: nat)
    requires Chosen(arms, v, j) && Chosen(arms, v, k)
    ensures j == k
  {
    hide PatternHolds;
  }

  lemma ChosenHolds(arms: seq<MatchArm>, v: Value, k: nat)
    requires Chosen(arms, v, k)
    ensures k < |arms| && !NoneHolds(arms, v)
  {
    hide PatternHolds;
  }

  lemma PlanMatches(cfg: Config, f: Frame, st: State, s: Stmt, v: Value, env: Environment)
    requires s.Match?
    ensures NoneHolds(s.arms, v) ==> Resumed(cfg, f, st, s, PlanOf(cfg, f, s, v), env) == Out(st, Ok(Normal))
    ensures forall k: nat | Chosen(s.arms, v, k) ::
              k < |s.arms| && Resumed(cfg, f, st, s, PlanOf(cfg, f, s, v), env) == Body(cfg, f, st, s.arms[k].body, env + [map[]])
    ensures NoneHolds(s.arms, v) || exists k: nat :: Chosen(s.arms, v, k)
  {
    SelectsFrom(s.arms, v, 0);
    PlanOfMatch(cfg, f, st, s, v, env);
    hide Body, SelectArm, PatternHolds, Chosen, NoneHolds, Resumed, PlanOf;
    var arm := SelectArm(s.arms, v, 0);
    if arm.Some? {
      ChosenHolds(s.arms, v, arm.value);
    }
    forall k: nat | Chosen(s.arms, v, k)
      ensures k < |s.arms| && arm == Some(k)
    {
      ChosenHolds(s.arms, v, k);
      if arm.Some? {
        ChosenOnce(s.arms, v, arm.value, k);
      }
    }
  }

  // ----- the laws of statements -----

  lemma HeadFirst(cfg: Config, f: Frame, st: State, s: Stmt, env: Environment)
    requires !s.LocatedStmt? && !s.Block? && HeadOf(s).Some?
    ensures var v := Evaluate(cfg, f, st, HeadOf(s).value, env);
            Execute(cfg, f, st, s, env) ==
              if v.res.Err? then Failing(v) else Resumed(cfg, f, v.st, s, PlanOf(cfg, f, s, v.res.value), env)
  {
    hide Execute, Evaluate, Resumed, PlanOf;
    ExecuteSteps(cfg, f, st, s, env);
  }

  /** True runs the then branch, false the else branch or nothing, each in a new scope. */
  lemma IfRuns(cfg: Config, f: Frame, st: State, condition: Expr, thenBranch: Stmt, elseBranch: Option<Stmt>, env: Environment)
    ensures var v := Evaluate(cfg, f, st, condition, env);
            Execute(cfg, f, st, If(condition, thenBranch, elseBranch), env) ==
              if v.res.Err? then Failing(v)
              else if v.res.value == BooleanValue(true) then Body(cfg, f, v.st, thenBranch, env + [map[]])
              else if v.res.value == BooleanValue(false) then
                (if elseBranch.Some? then Body(cfg, f, v.st, elseBranch.value, env + [map[]]) else Out(v.st, Ok(Normal)))
              else NotBoolean(f, condition, v)
  {
    hide Execute, Evaluate, Resumed, PlanOf, Body;
    var s, v := If(condition, thenBranch, elseBranch), Evaluate(cfg, f, st, condition, env);
    HeadFirst(cfg, f, st, s, env);
    if v.res.Ok? {
      PlanBranches(cfg, f, v.st, s, v.res.value, env);
    }
  }

  /** `while` is the conditional that runs its body and then itself. */
  lemma WhileUnrolls(cfg: Config, f: Frame, st: State, condition: Expr, body: Stmt, env: Environment)
    ensures var s, v := While(condition, body), Evaluate(cfg, f, st, condition, env);
            var b := Body(cfg, f, v.st, body, env + [map[]]);
            Execute(cfg, f, st, s, env) ==
              if v.res.Err? then Failing(v)
              else if v.res.value == BooleanValue(true) then (if Stops(b) then Stopped(b) else Execute(cfg, f, b.st, s, env))
              else if v.res.value == BooleanValue(false) then Out(v.st, Ok(Normal))
              else NotBoolean(f, condition, v)
  {
    hide Execute, Evaluate, Resumed, PlanOf, Body;
    var s, v := While(condition, body), Evaluate(cfg, f, st, condition, env);
    HeadFirst(cfg, f, st, s, env);
    if v.res.Ok? {
      PlanBranches(cfg, f, v.st, s, v.res.value, env);
      PlanLoops(cfg, f, v.st, s, v.res.value, env);
    }
  }

  lemma IterationsRun(cfg: Config, f: Frame, st: State, s: Stmt, env: Environment)
    requires s.For? || s.Parallel?
    ensures var v := Evaluate(cfg, f, st, s.iterable, env);
            Execute(cfg, f, st, s, env) ==
              if v.res.Err? then Failing(v)
              else if !v.res.value.ArrayValue? then Fault(f, v.st, NotAnArray(if s.For? then "for" else "parallel"))
              else if s.For? then EachFrom(cfg, f, v.st, s.variable, v.res.value.elements, 0, s.body, env)
              else Batches(cfg, f, v.st, Snap(v.st), s.variable, v.res.value.elements, 0, AtOnce(cfg, f), s.body, env)
  {
    hide Execute, Evaluate, Resumed, PlanOf, EachFrom, Batches;
    var v := Evaluate(cfg, f, st, s.iterable, env);
    HeadFirst(cfg, f, st, s, env);
    if v.res.Ok? {
      PlanLoops(cfg, f, v.st, s, v.res.value, env);
    }
  }

  /** Exactly the first arm that matches runs, in a new scope; without one nothing does. */
  lemma MatchRuns(cfg: Config, f: Frame, st: State, subject: Expr, arms: seq<MatchArm>, env: Environment)
    ensures var s, v := Match(subject, arms), Evaluate(cfg, f, st, subject, env);
            && (v.res.Err? ==> Execute(cfg, f, st, s, env) == Failing(v))
            && (v.res.Ok? && NoneHolds(arms, v.res.value) ==> Execute(cfg, f, st, s, env) == Out(v.st, Ok(Normal)))
            && (v.res.Ok? ==> forall k: nat | Chosen(arms, v.res.value, k) ::
                  Execute(cfg, f, st, s, env) == Body(cfg, f, v.st, arms[k].body, env + [map[]]))
            && (v.res.Ok? ==> NoneHolds(arms, v.res.value) || exists k: nat :: Chosen(arms, v.res.value, k))
  {
    hide Execute, Evaluate, Resumed, PlanOf, Body, Chosen, NoneHolds;
    var s, v := Match(subject, arms), Evaluate(cfg, f, st, subject, env);
    HeadFirst(cfg, f, st, s, env);
    if v.res.Ok? {
      PlanMatches(cfg, f, v.st, s, v.res.value, env);
    }
  }

  /** `return` checks the contract of the function, at the returned expression; a bare one returns null. */
  lemma ReturnRuns(cfg: Config, f: Frame, st: State, returned: Option<Expr>, env: Environment)
    ensures Execute(cfg, f, st, Return(returned), env) ==
            if returned.None? then Returning(cfg, f, f.span, st, NullValue)
            else
              var v := Evaluate(cfg, f, st, returned.value, env);
              if v.res.Err? then Failing(v) else Returning(cfg, f, returned.value.Where().Or(f.span), v.st, v.res.value)
  {
    hide Execute, Evaluate, Returning;
    var s := Return(returned);
    if returned.None? {
      PlanReturns(cfg, f, st, s, NullValue, env);
      ExecuteSteps(cfg, f, st, s, env);
    } else {
      var v := Evaluate(cfg, f, st, returned.value, env);
      HeadFirst(cfg, f, st, s, env);
      if v.res.Ok? {
        PlanReturns(cfg, f, v.st, s, v.res.value, env);
      }
    }
  }

  lemma SimpleRuns(cfg: Config, f: Frame, st: State, s: Stmt, env: Environment)
    ensures s == Break ==> Execute(cfg, f, st, s, env) == Out(st, Ok(BreakFlow))
    ensures s == Continue ==> Execute(cfg, f, st, s, env) == Out(st, Ok(ContinueFlow))
    ensures s.TypeDecl? || s.Function? ==> Execute(cfg, f, st, s, env) == Out(st, Ok(Normal))
    ensures s.Let? ==> Execute(cfg, f, st, s, env) == Fault(f, st, Panic)
    ensures s.LocatedStmt? ==> Execute(cfg, f, st, s, env) == Execute(cfg, f.(span := Some(s.span)), st, s.inner, env)
    ensures s.Block? ==> Execute(cfg, f, st, s, env) == Body(cfg, f, st, s, env + [map[]])
    ensures s.ExprStmt? ==>
              var v := Evaluate(cfg, f, st, s.expression, env);
              Execute(cfg, f, st, s, env) == if v.res.Err? then Failing(v) else Out(v.st, Ok(Normal))
  {
    hide Evaluate, Body;
  }

  lemma BodyRuns(cfg: Config, f: Frame, st: State, body: Stmt, env: Environment)
    ensures Body(cfg, f, st, body, env) ==
            if body.LocatedStmt? then Body(cfg, f.(span := Some(body.span)), st, body.inner, env)
            else if env == [] then Fault(f, st, Panic)
            else
              var r := Reserve(cfg, st, Contents(body), env, []);
              ExecuteFrom(cfg, f, Install(cfg, r.st, Contents(body), r.slots, r.env, 0), Contents(body), r.slots, r.env, 0)
  {
    hide Reserve, Install, ExecuteFrom;
  }

  lemma EachRuns(cfg: Config, f: Frame, st: State, variable: string, values: seq<Value>, i: nat, body: Stmt, env: Environment)
    requires i < |values| && st.steps > 0
    ensures var entered := Ticked(st).(bindings := st.bindings + [Binding(None, Some(values[i]), true)]);
            var b := Body(cfg, f, entered, body, env + [map[variable := |st.bindings|]]);
            EachFrom(cfg, f, st, variable, values, i, body, env) ==
              if Stops(b) then Stopped(b) else EachFrom(cfg, f, b.st, variable, values, i + 1, body, env)
  {
    hide Body, EachFrom;
    EachSteps(cfg, f, st, variable, values, i, body, env);
    assert Allocate(st.(steps := st.steps - 1), None, Some(values[i]), true)
        == Ticked(st).(bindings := st.bindings + [Binding(None, Some(values[i]), true)]);
  }

  /** The loop variable reads the item of the turn. */
  lemma LoopVariableReads(cfg: Config, f: Frame, st: State, variable: string, item: Value, env: Environment)
    requires f.depth < cfg.limits.expressionDepth && st.steps > 0
    ensures var entered := st.(bindings := st.bindings + [Binding(None, Some(item), true)]);
            Evaluate(cfg, f, entered, Identifier(variable), env + [map[variable := |st.bindings|]]) == Out(Ticked(entered), Ok(item))
  {
    hide Evaluate;
    var entered := st.(bindings := st.bindings + [Binding(None, Some(item), true)]);
    assert Denotes(env + [map[variable := |st.bindings|]], variable, |env|);
    NameReads(cfg, f, entered, variable, env + [map[variable := |st.bindings|]], |env|);
  }

  /** A worker runs the body on a copy of the snapshot with its item in a slot of its own, and an empty buffer. */
  lemma WorkerRuns(
    cfg: Config, f: Frame, snapshot: Snapshot, steps: nat, host: HostState, value: Value, variable: string, body: Stmt, env: Environment)
    ensures var start := State(snapshot.bindings + [Binding(None, Some(value), true)], snapshot.functions, steps,
                               HostState(host.history, Some(Buffer([], 0))));
            Worker(cfg, f, snapshot, steps, host, value, variable, body, env) ==
            Body(cfg, Frame(0, f.stack, None, f.span, |snapshot.bindings|, true), start, body,
                 env + [map[variable := |snapshot.bindings|]])
  {
    hide Body;
  }

  // ----- statement lists -----

  /** A `let` whose initializer has a value that its contract admits: the slot holds it and the name is exposed. */
  function Held(st: State, slot: nat, v: Value): State
    requires slot < |st.bindings|
  {
    st.(bindings := st.bindings[slot := st.bindings[slot].(value := Some(v))])
  }

  lemma LetRuns(cfg: Config, f: Frame, st: State, stmts: seq<Stmt>, slots: seq<Option<nat>>, env: Environment, i: nat)
    requires i < |stmts| && i < |slots| && st.steps > 0 && stmts[i].Unspanned().Let?
    ensures var s, here := stmts[i].Unspanned(), f.(span := stmts[i].Where().Or(f.span));
            var v := Evaluate(cfg, here, Ticked(st), s.value, env);
            ExecuteFrom(cfg, f, st, stmts, slots, env, i) ==
              if v.res.Err? then Failing(v)
              else if slots[i].None? || slots[i].value >= |v.st.bindings| then Fault(here, v.st, Panic)
              else
                var slot, contract := slots[i].value, v.st.bindings[slots[i].value].annotation;
                if !Admits(cfg, contract, v.res.value)
                then Fault(here.(span := s.value.Where().Or(here.span)), v.st, Mismatch(cfg, contract, v.res.value))
                else ExecuteFrom(cfg, f, Held(v.st, slot, v.res.value), stmts, slots, Bind(env, s.name, slot), i + 1)
  {
    var s, here := stmts[i].Unspanned(), f.(span := stmts[i].Where().Or(f.span));
    var v := Evaluate(cfg, here, Ticked(st), s.value, env);
    LetEnds(cfg, here, Ticked(st), slots[i], s.value, env);
    hide Evaluate, ExecuteFrom, RunLet, Admits;
    ExecuteFromSteps(cfg, f, st, stmts, slots, env, i);
  }

  lemma LetEnds(cfg: Config, f: Frame, st: State, slot: Option<nat>, value: Expr, env: Environment)
    ensures var v := Evaluate(cfg, f, st, value, env);
            RunLet(cfg, f, st, slot, value, env) ==
              if v.res.Err? then Out(v.st, Err(v.res.error))
              else if slot.None? || slot.value >= |v.st.bindings| then Fault(f, v.st, Panic)
              else
                var contract := v.st.bindings[slot.value].annotation;
                if !Admits(cfg, contract, v.res.value)
                then Fault(f.(span := value.Where().Or(f.span)), v.st, Mismatch(cfg, contract, v.res.value))
                else Out(Held(v.st, slot.value, v.res.value), Ok(()))
  {
    hide Evaluate;
    var v := Evaluate(cfg, f, st, value, env);
    if v.res.Ok? && slot.Some? && slot.value < |v.st.bindings| {
      AdmitsIff(cfg, v.st.bindings[slot.value].annotation, v.res.value);
      hide CheckType, Admits, Mismatch;
    }
  }

  lemma OneRuns(cfg: Config, f: Frame, st: State, stmts: seq<Stmt>, slots: seq<Option<nat>>, env: Environment, i: nat)
    requires i < |stmts| && i < |slots| && st.steps > 0 && !stmts[i].Unspanned().Let?
    ensures var b := Execute(cfg, f.(span := stmts[i].Where().Or(f.span)), Ticked(st), stmts[i].Unspanned(), env);
            ExecuteFrom(cfg, f, st, stmts, slots, env, i) ==
              if b.res == Ok(Normal) then ExecuteFrom(cfg, f, b.st, stmts, slots, env, i + 1) else b
  {
    hide Execute, ExecuteFrom;
    ExecuteFromSteps(cfg, f, st, stmts, slots, env, i);
  }

  lemma ListEnds(cfg: Config, f: Frame, st: State, stmts: seq<Stmt>, slots: seq<Option<nat>>, env: Environment, i: nat)
    ensures i >= |stmts| || i >= |slots| ==> ExecuteFrom(cfg, f, st, stmts, slots, env, i) == Out(st, Ok(Normal))
    ensures i < |stmts| && i < |slots| && st.steps == 0 ==>
              ExecuteFrom(cfg, f, st, stmts, slots, env, i) == Fault(f.(span := stmts[i].Where().Or(f.span)), st, StepLimit)
  {
    hide Execute, RunLet;
  }

  lemma EachEnds(cfg: Config, f: Frame, st: State, variable: string, values: seq<Value>, i: nat, body: Stmt, env: Environment)
    ensures i >= |values| ==> EachFrom(cfg, f, st, variable, values, i, body, env) == Out(st, Ok(Normal))
    ensures i < |values| && st.steps == 0 ==> EachFrom(cfg, f, st, variable, values, i, body, env) == Fault(f, st, StepLimit)
  {
    hide Body;
  }

  // ----- soundness: a derivation ends as the interpreter does -----

  lemma {:induction false} RunsSound(d: Derivation, cfg: Config, f: Frame, st: State, s: Stmt, env: Environment, o: Out<Flow>)
    requires Runs(d, cfg, f, st, s, env, o)
    ensures o == Execute(cfg, f, st, s, env)
    decreases d
  {
    hide Execute, Evaluate, Body, EachFrom, Batches, Returning, RunsBody, RunsEach, Chosen, NoneHolds;
    match s
    case LocatedStmt(span, inner) =>
      SimpleRuns(cfg, f, st, s, env);
      RunsSound(d.only, cfg, f.(span := Some(span)), st, inner, env, o);
    case Block(_) =>
      SimpleRuns(cfg, f, st, s, env);
      BodySound(d.only, cfg, f, st, s, env + [map[]], o);
    case If(condition, thenBranch, elseBranch) =>
      IfRuns(cfg, f, st, condition, thenBranch, elseBranch, env);
      var v := Evaluate(cfg, f, st, condition, env);
      if v.res == Ok(BooleanValue(true)) {
        BodySound(d.only, cfg, f, v.st, thenBranch, env + [map[]], o);
      } else if v.res == Ok(BooleanValue(false)) && elseBranch.Some? {
        BodySound(d.only, cfg, f, v.st, elseBranch.value, env + [map[]], o);
      }
    case While(condition, body) => WhileSound(d, cfg, f, st, s, env, o);
    case For(variable, iterable, body) =>
      IterationsRun(cfg, f, st, s, env);
      var v := Evaluate(cfg, f, st, iterable, env);
      if v.res.Ok? && v.res.value.ArrayValue? {
        EachSound(d.only, cfg, f, v.st, variable, v.res.value.elements, 0, body, env, o);
      }
    case Parallel(_, _, _) => IterationsRun(cfg, f, st, s, env);
    case Match(_, _) => MatchSound(d, cfg, f, st, s, env, o);
    case Return(returned) => ReturnRuns(cfg, f, st, returned, env);
    case _ => SimpleRuns(cfg, f, st, s, env);
  }

  lemma {:induction false} MatchSound(d: Derivation, cfg: Config, f: Frame, st: State, s: Stmt, env: Environment, o: Out<Flow>)
    requires Runs(d, cfg, f, st, s, env, o) && s.Match?
    ensures o == Execute(cfg, f, st, s, env)
    decreases d, 0
  {
    hide Execute, Evaluate, Body, RunsBody, NoneHolds;
    MatchRuns(cfg, f, st, s.subject, s.arms, env);
    var v := Evaluate(cfg, f, st, s.subject, env);
    if v.res.Ok? && !NoneHolds(s.arms, v.res.value) {
      var k: nat :| Chosen(s.arms, v.res.value, k) && d.One? && RunsBody(d.only, cfg, f, v.st, s.arms[k].body, env + [map[]], o);
      BodySound(d.only, cfg, f, v.st, s.arms[k].body, env + [map[]], o);
    }
  }

  lemma {:induction false} WhileSound(d: Derivation, cfg: Config, f: Frame, st: State, s: Stmt, env: Environment, o: Out<Flow>)
    requires Runs(d, cfg, f, st, s, env, o) && s.While?
    ensures o == Execute(cfg, f, st, s, env)
    decreases d, 0
  {
    hide Execute, Evaluate, Body, RunsBody;
    WhileUnrolls(cfg, f, st, s.condition, s.body, env);
    var v := Evaluate(cfg, f, st, s.condition, env);
    if v.res == Ok(BooleanValue(true)) {
      var b :| RunsBody(d.first, cfg, f, v.st, s.body, env + [map[]], b)
               && if Stops(b) then o == Stopped(b) else Runs(d.second, cfg, f, b.st, s, env, o);
      BodySound(d.first, cfg, f, v.st, s.body, env + [map[]], b);
      if !Stops(b) {
        RunsSound(d.second, cfg, f, b.st, s, env, o);
      }
    }
  }

  lemma {:induction false} BodySound(d: Derivation, cfg: Config, f: Frame, st: State, body: Stmt, env: Environment, o: Out<Flow>)
    requires RunsBody(d, cfg, f, st, body, env, o)
    ensures o == Body(cfg, f, st, body, env)
    decreases d
  {
    hide Body, ExecuteFrom, Reserve, Install, RunsList;
    BodyRuns(cfg, f, st, body, env);
    if body.LocatedStmt? {
      BodySound(d.only, cfg, f.(span := Some(body.span)), st, body.inner, env, o);
    } else if env != [] {
      var r := Reserve(cfg, st, Contents(body), env, []);
      ListSound(d.only, cfg, f, Install(cfg, r.st, Contents(body), r.slots, r.env, 0), Contents(body), r.slots, r.env, 0, o);
    }
  }

  lemma {:induction false} ListSound(
    d: Derivation, cfg: Config, f: Frame, st: State, stmts: seq<Stmt>, slots: seq<Option<nat>>, env: Environment, i: nat, o: Out<Flow>)
    requires RunsList(d, cfg, f, st, stmts, slots, env, i, o)
    ensures o == ExecuteFrom(cfg, f, st, stmts, slots, env, i)
    decreases d
  {
    hide Execute, ExecuteFrom, Evaluate, Admits, Mismatch, Runs, Bind;
    ListEnds(cfg, f, st, stmts, slots, env, i);
    if i >= |stmts| || i >= |slots| || st.steps == 0 { return; }
    var s, here := stmts[i].Unspanned(), f.(span := stmts[i].Where().Or(f.span));
    if s.Let? {
      LetRuns(cfg, f, st, stmts, slots, env, i);
      var v := Evaluate(cfg, here, Ticked(st), s.value, env);
      if v.res.Err? || slots[i].None? || slots[i].value >= |v.st.bindings| { return; }
      var slot := slots[i].value;
      if Admits(cfg, v.st.bindings[slot].annotation, v.res.value) {
        ListSound(d.only, cfg, f, Held(v.st, slot, v.res.value), stmts, slots, Bind(env, s.name, slot), i + 1, o);
      }
    } else {
      OneRuns(cfg, f, st, stmts, slots, env, i);
      var b :| Runs(d.first, cfg, here, Ticked(st), s, env, b)
               && if b.res == Ok(Normal) then RunsList(d.second, cfg, f, b.st, stmts, slots, env, i + 1, o) else o == b;
      RunsSound(d.first, cfg, here, Ticked(st), s, env, b);
      if b.res == Ok(Normal) {
        ListSound(d.second, cfg, f, b.st, stmts, slots, env, i + 1, o);
      }
    }
  }

  lemma {:induction false} EachSound(
    d: Derivation, cfg: Config, f: Frame, st: State, variable: string, values: seq<Value>, i: nat, body: Stmt, env: Environment, o: Out<Flow>)
    requires RunsEach(d, cfg, f, st, variable, values, i, body, env, o)
    ensures o == EachFrom(cfg, f, st, variable, values, i, body, env)
    decreases d
  {
    hide Body, EachFrom, RunsBody;
    EachEnds(cfg, f, st, variable, values, i, body, env);
    if i >= |values| || st.steps == 0 { return; }
    EachRuns(cfg, f, st, variable, values, i, body, env);
    var entered := Ticked(st).(bindings := st.bindings + [Binding(None, Some(values[i]), true)]);
    var b :| RunsBody(d.first, cfg, f, entered, body, env + [map[variable := |st.bindings|]], b)
             && if Stops(b) then o == Stopped(b) else RunsEach(d.second, cfg, f, b.st, variable, values, i + 1, body, env, o);
    BodySound(d.first, cfg, f, entered, body, env + [map[variable := |st.bindings|]], b);
    if !Stops(b) {
      EachSound(d.second, cfg, f, b.st, variable, values, i + 1, body, env, o);
    }
  }

  // ----- completeness: every run has a derivation -----

  lemma {:induction false} RunsComplete(cfg: Config, f: Frame, st: State, s: Stmt, env: Environment) returns (d: Derivation)
    ensures Runs(d, cfg, f, st, s, env, Execute(cfg, f, st, s, env))
    decreases st.steps, 8, s
  {
    hide Execute, Evaluate, Body, EachFrom, Batches, Returning, RunsBody, RunsEach, Chosen, NoneHolds;
    d := Axiom;
    match s
    case LocatedStmt(span, inner) =>
      SimpleRuns(cfg, f, st, s, env);
      var only := RunsComplete(cfg, f.(span := Some(span)), st, inner, env);
      d := One(only);
    case Block(_) =>
      SimpleRuns(cfg, f, st, s, env);
      var only := BodyComplete(cfg, f, st, s, env + [map[]]);
      d := One(only);
    case If(condition, thenBranch, elseBranch) =>
      IfRuns(cfg, f, st, condition, thenBranch, elseBranch, env);
      var v := Evaluate(cfg, f, st, condition, env);
      if v.res == Ok(BooleanValue(true)) {
        var only := BodyComplete(cfg, f, v.st, thenBranch, env + [map[]]);
        d := One(only);
      } else if v.res == Ok(BooleanValue(false)) && elseBranch.Some? {
        var only := BodyComplete(cfg, f, v.st, elseBranch.value, env + [map[]]);
        d := One(only);
      }
    case While(_, _) => d := WhileComplete(cfg, f, st, s, env);
    case For(variable, iterable, body) =>
      IterationsRun(cfg, f, st, s, env);
      var v := Evaluate(cfg, f, st, iterable, env);
      if v.res.Ok? && v.res.value.ArrayValue? {
        var only := EachComplete(cfg, f, v.st, variable, v.res.value.elements, 0, body, env);
        d := One(only);
      }
    case Parallel(_, _, _) => IterationsRun(cfg, f, st, s, env);
    case Match(subject, arms) => d := MatchComplete(cfg, f, st, s, env);
    case Return(returned) => ReturnRuns(cfg, f, st, returned, env);
    case _ => SimpleRuns(cfg, f, st, s, env);
  }

  lemma {:induction false} MatchComplete(cfg: Config, f: Frame, st: State, s: Stmt, env: Environment) returns (d: Derivation)
    requires s.Match?
    ensures Runs(d, cfg, f, st, s, env, Execute(cfg, f, st, s, env))
    decreases st.steps, 8, s, 0
  {
    hide Execute, Evaluate, Body, RunsBody, Chosen, NoneHolds;
    d := Axiom;
    MatchRuns(cfg, f, st, s.subject, s.arms, env);
    var v := Evaluate(cfg, f, st, s.subject, env);
    if v.res.Ok? && !NoneHolds(s.arms, v.res.value) {
      var k: nat :| Chosen(s.arms, v.res.value, k);
      ChosenInRange(s.arms, v.res.value, k);
      var only := BodyComplete(cfg, f, v.st, s.arms[k].body, env + [map[]]);
      d := One(only);
    }
  }

  lemma ChosenInRange(arms: seq<MatchArm>, v: Value, k: nat)
    requires Chosen(arms, v, k)
    ensures k < |arms|
  {
  }

  lemma {:induction false} WhileComplete(cfg: Config, f: Frame, st: State, s: Stmt, env: Environment) returns (d: Derivation)
    requires s.While?
    ensures Runs(d, cfg, f, st, s, env, Execute(cfg, f, st, s, env))
    decreases st.steps, 8, s, 0
  {
    hide Execute, Evaluate, Body, RunsBody;
    d := Axiom;
    WhileUnrolls(cfg, f, st, s.condition, s.body, env);
    var v := Evaluate(cfg, f, st, s.condition, env);
    if v.res == Ok(BooleanValue(true)) {
      var b := Body(cfg, f, v.st, s.body, env + [map[]]);
      var first := BodyComplete(cfg, f, v.st, s.body, env + [map[]]);
      d := Two(first, Axiom);
      if !Stops(b) {
        var second := RunsComplete(cfg, f, b.st, s, env);
        d := Two(first, second);
      }
    }
  }

  lemma {:induction false} BodyComplete(cfg: Config, f: Frame, st: State, body: Stmt, env: Environment) returns (d: Derivation)
    ensures RunsBody(d, cfg, f, st, body, env, Body(cfg, f, st, body, env))
    decreases st.steps, 5, body
  {
    hide Body, ExecuteFrom, Reserve, Install, RunsList;
    d := Axiom;
    BodyRuns(cfg, f, st, body, env);
    if body.LocatedStmt? {
      var only := BodyComplete(cfg, f.(span := Some(body.span)), st, body.inner, env);
      d := One(only);
    } else if env != [] {
      var r := Reserve(cfg, st, Contents(body), env, []);
      var only := ListComplete(cfg, f, Install(cfg, r.st, Contents(body), r.slots, r.env, 0), Contents(body), r.slots, r.env, 0);
      d := One(only);
    }
  }

  lemma {:induction false} ListComplete(
    cfg: Config, f: Frame, st: State, stmts: seq<Stmt>, slots: seq<Option<nat>>, env: Environment, i: nat) returns (d: Derivation)
    ensures RunsList(d, cfg, f, st, stmts, slots, env, i, ExecuteFrom(cfg, f, st, stmts, slots, env, i))
    decreases st.steps, 3
  {
    hide Execute, ExecuteFrom, Evaluate, Admits, Mismatch, Runs, Bind;
    d := Axiom;
    ListEnds(cfg, f, st, stmts, slots, env, i);
    if i >= |stmts| || i >= |slots| || st.steps == 0 { return; }
    var s, here := stmts[i].Unspanned(), f.(span := stmts[i].Where().Or(f.span));
    if s.Let? {
      LetRuns(cfg, f, st, stmts, slots, env, i);
      var v := Evaluate(cfg, here, Ticked(st), s.value, env);
      if v.res.Err? || slots[i].None? || slots[i].value >= |v.st.bindings| { return; }
      var slot := slots[i].value;
      if Admits(cfg, v.st.bindings[slot].annotation, v.res.value) {
        var only := ListComplete(cfg, f, Held(v.st, slot, v.res.value), stmts, slots, Bind(env, s.name, slot), i + 1);
        d := One(only);
      }
    } else {
      OneRuns(cfg, f, st, stmts, slots, env, i);
      var b := Execute(cfg, here, Ticked(st), s, env);
      var first := RunsComplete(cfg, here, Ticked(st), s, env);
      d := Two(first, Axiom);
      if b.res == Ok(Normal) {
        var second := ListComplete(cfg, f, b.st, stmts, slots, env, i + 1);
        d := Two(first, second);
      }
    }
  }

  lemma {:induction false} EachComplete(
    cfg: Config, f: Frame, st: State, variable: string, values: seq<Value>, i: nat, body: Stmt, env: Environment) returns (d: Derivation)
    ensures RunsEach(d, cfg, f, st, variable, values, i, body, env, EachFrom(cfg, f, st, variable, values, i, body, env))
    decreases st.steps, 7
  {
    hide Body, EachFrom, RunsBody;
    d := Axiom;
    EachEnds(cfg, f, st, variable, values, i, body, env);
    if i >= |values| || st.steps == 0 { return; }
    EachRuns(cfg, f, st, variable, values, i, body, env);
    var entered := Ticked(st).(bindings := st.bindings + [Binding(None, Some(values[i]), true)]);
    var b := Body(cfg, f, entered, body, env + [map[variable := |st.bindings|]]);
    var first := BodyComplete(cfg, f, entered, body, env + [map[variable := |st.bindings|]]);
    d := Two(first, Axiom);
    if !Stops(b) {
      var second := EachComplete(cfg, f, b.st, variable, values, i + 1, body, env);
      d := Two(first, second);
    }
  }

  /** The rules and the interpreter agree: a statement ends in `o` by the rules if and only if it does when it runs. */
  lemma RulesAreExecution(cfg: Config, f: Frame, st: State, s: Stmt, env: Environment, o: Out<Flow>)
    ensures (exists d :: Runs(d, cfg, f, st, s, env, o)) <==> o == Execute(cfg, f, st, s, env)
  {
    hide Runs, Execute;
    if d :| Runs(d, cfg, f, st, s, env, o) {
      RunsSound(d, cfg, f, st, s, env, o);
    }
    var d := RunsComplete(cfg, f, st, s, env);
  }
}
