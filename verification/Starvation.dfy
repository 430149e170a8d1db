/** Exactly when a worker that ran out of steps reports the step limit. */
module Starvation {
  import opened Wrappers
  import opened Ast
  import opened Values
  import opened Operations
  import opened Evaluation
  import opened Equations
  import opened Evolution
  import opened Budget
  import opened Schedule
  import opened OutputRoom

  /**
   * Room for the lines of a worker that starves, and of the workers nested in
   * it: each holds no more than the limit, and forking the next costs a step.
   */
  function Enough(limit: nat, steps: nat): (room: nat)
    ensures room >= limit
  {
    if steps == 0 then limit else Enough(limit, steps - 1) + limit
  }

  lemma {:induction false} EnoughIs(limit: nat, steps: nat)
    ensures Enough(limit, steps) == limit * (steps + 1)
  {
    if steps > 0 {
      EnoughIs(limit, steps - 1);
    }
  }

  lemma {:induction false} EnoughGrows(limit: nat, a: nat, b: nat)
    requires a <= b
    ensures Enough(limit, a) <= Enough(limit, b)
  {
    if a < b {
      EnoughGrows(limit, a, b - 1);
    }
  }

  /** The step limit is reported, with no more than so many bytes in the buffer. */
  predicate Shows<T>(most: nat, o: Out<T>) {
    && o.res.Err? && Bare(o.res.error.message) == StepLimit
    && o.st.host.buffer.Some? && o.st.host.buffer.value.bytes <= most
  }

  predicate Roomed(cfg: Config, room: nat, f: Frame, st: State) {
    Started(cfg, room, f, st) && Enough(cfg.limits.outputBytes, st.steps) <= room
  }

  lemma FewerSteps<T>(limit: nat, a: nat, b: nat, o: Out<T>)
    requires Shows(Enough(limit, a), o) && a <= b
    ensures Shows(Enough(limit, b), o)
  {
    EnoughGrows(limit, a, b);
  }

  /** Where the run stands in the text does not matter. */
  lemma SpanRoomed(cfg: Config, room: nat, f: Frame, g: Frame, st: State)
    requires g == f.(span := g.span)
    ensures Roomed(cfg, room, g, st) <==> Roomed(cfg, room, f, st)
  {
  }

  lemma TickRoomed(cfg: Config, room: nat, f: Frame, st: State)
    requires Roomed(cfg, room, f, st) && st.steps > 0
    ensures Roomed(cfg, room, f, st.(steps := st.steps - 1))
  {
    EnoughGrows(cfg.limits.outputBytes, st.steps - 1, st.steps);
  }

  /** A part that does not starve: with more steps, with more room and as it is, it ends in the same place. */
  lemma Agree<T>(cfg: Config, room: nat, f: Frame, st: State, x: Out<T>, y: Out<T>, z: Out<T>, k: nat)
    requires Roomed(cfg, room, f, st)
    requires Spent(f, x, y, k) && Widens(cfg.limits.outputBytes, z, y) && Evolves(f.captured, st, y.st)
    ensures x.st.steps >= k ==> x.res == y.res && x.st == More(y.st, k)
    ensures y.res.Ok? ==> z == y && Roomed(cfg, room, f, y.st) && y.st.steps <= st.steps
  {
    EnoughGrows(cfg.limits.outputBytes, y.st.steps, st.steps);
  }

  // ----- expressions -----

  /** If `k` more steps would not be enough either, the run with enough room reports the step limit. */
  lemma {:induction false} EvaluateStarves(cfg: Config, room: nat, f: Frame, st: State, e: Expr, env: Environment, k: nat)
    requires Roomed(cfg, room, f, st)
    ensures Evaluate(cfg, f, More(st, k), e, env).st.steps < k ==>
              Shows(Enough(cfg.limits.outputBytes, st.steps), Evaluate(Widened(cfg, room), f, st, e, env))
    decreases st.steps, 0, e
  {
    hide Inner;
    if e.Located? {
      EvaluateStarves(cfg, room, f.(span := Some(e.span)), st, e.inner, env, k);
      return;
    }
    hide Evaluate;
    EvaluateSteps(cfg, f, More(st, k), e, env);
    EvaluateSteps(Widened(cfg, room), f, st, e, env);
    if st.steps == 0 || f.depth >= cfg.limits.expressionDepth { return; }
    var ticked := st.(steps := st.steps - 1);
    assert More(st, k).(steps := More(st, k).steps - 1) == More(ticked, k);
    TickRoomed(cfg, room, f, st);
    InnerStarves(cfg, room, f.(depth := f.depth + 1), ticked, e, env, k);
    EnoughGrows(cfg.limits.outputBytes, ticked.steps, st.steps);
  }

  lemma {:induction false} InnerStarves(cfg: Config, room: nat, f: Frame, st: State, e: Expr, env: Environment, k: nat)
    requires Roomed(cfg, room, f, st) && !e.Located?
    ensures Inner(cfg, f, More(st, k), e, env).st.steps < k ==>
              Shows(Enough(cfg.limits.outputBytes, st.steps), Inner(Widened(cfg, room), f, st, e, env))
    decreases st.steps, 3
  {
    hide Assign, Strict, Logical, Shows, Roomed;
    if e.Identifier? {
    } else if e.Assignment? {
      AssignStarves(cfg, room, f, st, e.target, e.value, env, k);
    } else if IsStrict(e) {
      StrictStarves(cfg, room, f, st, e, env, k);
    } else {
      LogicalStarves(cfg, room, f, st, e.left, e.binary, e.right, env, k);
    }
  }

  lemma {:induction false} StrictStarves(cfg: Config, room: nat, f: Frame, st: State, e: Expr, env: Environment, k: nat)
    requires Roomed(cfg, room, f, st) && IsStrict(e)
    ensures Strict(cfg, f, More(st, k), e, env).st.steps < k ==>
              Shows(Enough(cfg.limits.outputBytes, st.steps), Strict(Widened(cfg, room), f, st, e, env))
    decreases st.steps, 2
  {
    var w, es, check, limit := Widened(cfg, room), Operands(e), CheckOf(cfg, e), cfg.limits.outputBytes;
    hide CheckType, ElementError, CheckOf, EvaluateFrom, Apply, Combine, Evolves, Spent, Widens;
    ChecksWiden(cfg, room, f);
    if Refusal(cfg, e).Some? { return; }
    hide Refusal, Strict;
    StrictSteps(cfg, f, More(st, k), e, env);
    StrictSteps(w, f, st, e, env);
    EvaluateFromSpends(cfg, f, st, es, [], check, env, k);
    EvaluateFromWidens(cfg, room, f, st, es, [], check, env);
    EvaluateFromEvolves(cfg, f, st, es, [], check, env);
    EvaluateFromStarves(cfg, room, f, st, es, [], check, env, k);
    var x, y, z := EvaluateFrom(cfg, f, More(st, k), es, [], check, env), EvaluateFrom(cfg, f, st, es, [], check, env),
                   EvaluateFrom(w, f, st, es, [], check, env);
    Agree(cfg, room, f, st, x, y, z, k);
    if x.st.steps < k || y.res.Err? { return; }
    if e.Call? {
      ApplyStarves(cfg, room, f, y.st, y.res.value[0], y.res.value[1..], k);
      EnoughGrows(limit, y.st.steps, st.steps);
    } else {
      CombineShifts(cfg, f, y.st, e, y.res.value, k);
    }
  }

  lemma {:induction false} EvaluateFromStarves(
    cfg: Config, room: nat, f: Frame, st: State, es: seq<Expr>, values: seq<Value>, check: Check, env: Environment, k: nat)
    requires Roomed(cfg, room, f, st)
    ensures EvaluateFrom(cfg, f, More(st, k), es, values, check, env).st.steps < k ==>
              Shows(Enough(cfg.limits.outputBytes, st.steps), EvaluateFrom(Widened(cfg, room), f, st, es, values, check, env))
    decreases st.steps, 1
  {
    if |values| >= |es| { return; }
    hide Evaluate, ElementError, CheckType, Refusal, CheckOf, Evolves, Spent, Widens;
    var w, e := Widened(cfg, room), es[|values|];
    ChecksWiden(cfg, room, f);
    EvaluateSpends(cfg, f, st, e, env, k);
    EvaluateWidens(cfg, room, f, st, e, env);
    EvaluateEvolves(cfg, f, st, e, env);
    EvaluateStarves(cfg, room, f, st, e, env, k);
    var x, y, z := Evaluate(cfg, f, More(st, k), e, env), Evaluate(cfg, f, st, e, env), Evaluate(w, f, st, e, env);
    Agree(cfg, room, f, st, x, y, z, k);
    if x.st.steps < k || y.res.Err? { return; }
    if ElementError(cfg, check, |values|, y.res.value).Some? { return; }
    EvaluateFromStarves(cfg, room, f, y.st, es, values + [y.res.value], check, env, k);
    EnoughGrows(cfg.limits.outputBytes, y.st.steps, st.steps);
  }

  lemma {:induction false} LogicalStarves(
    cfg: Config, room: nat, f: Frame, st: State, left: Expr, op: BinaryOp, right: Expr, env: Environment, k: nat)
    requires Roomed(cfg, room, f, st)
    ensures Logical(cfg, f, More(st, k), left, op, right, env).st.steps < k ==>
              Shows(Enough(cfg.limits.outputBytes, st.steps), Logical(Widened(cfg, room), f, st, left, op, right, env))
    decreases st.steps, 2
  {
    hide Logical, Evaluate, Evolves, Spent, Widens;
    var w := Widened(cfg, room);
    LogicalSteps(cfg, f, More(st, k), left, op, right, env);
    LogicalSteps(w, f, st, left, op, right, env);
    EvaluateSpends(cfg, f, st, left, env, k);
    EvaluateWidens(cfg, room, f, st, left, env);
    EvaluateEvolves(cfg, f, st, left, env);
    EvaluateStarves(cfg, room, f, st, left, env, k);
    var x, y, z := Evaluate(cfg, f, More(st, k), left, env), Evaluate(cfg, f, st, left, env), Evaluate(w, f, st, left, env);
    Agree(cfg, room, f, st, x, y, z, k);
    if x.st.steps < k || y.res.Err? || !y.res.value.BooleanValue? { return; }
    if (op.And? && !y.res.value.boolean) || (op.Or? && y.res.value.boolean) { return; }
    RightStarves(cfg, room, f, y.st, right, env, k);
    EnoughGrows(cfg.limits.outputBytes, y.st.steps, st.steps);
  }

  /** The right operand: if it starves it fails, so its kind is not looked at. */
  lemma {:induction false} RightStarves(cfg: Config, room: nat, f: Frame, st: State, right: Expr, env: Environment, k: nat)
    requires Roomed(cfg, room, f, st)
    ensures var x, z := Evaluate(cfg, f, More(st, k), right, env), Evaluate(Widened(cfg, room), f, st, right, env);
            x.st.steps < k ==> Shows(Enough(cfg.limits.outputBytes, st.steps), z)
    decreases st.steps, 1
  {
    EvaluateStarves(cfg, room, f, st, right, env, k);
  }

  lemma {:induction false} AssignStarves(
    cfg: Config, room: nat, f: Frame, st: State, target: Expr, value: Expr, env: Environment, k: nat)
    requires Roomed(cfg, room, f, st)
    ensures Assign(cfg, f, More(st, k), target, value, env).st.steps < k ==>
              Shows(Enough(cfg.limits.outputBytes, st.steps), Assign(Widened(cfg, room), f, st, target, value, env))
    decreases st.steps, 2
  {
    hide Assign, Target, ValueThenWrite, Permission, Evolves, Spent, Widens;
    var w := Widened(cfg, room);
    AssignSteps(cfg, f, More(st, k), target, value, env);
    AssignSteps(w, f, st, target, value, env);
    TargetSpends(cfg, f, st, target, env, k);
    TargetWidens(cfg, room, f, st, target, env);
    TargetEvolves(cfg, f, st, target, env);
    TargetStarves(cfg, room, f, st, target, env, k);
    var x, y, z := Target(cfg, f, More(st, k), target, env), Target(cfg, f, st, target, env), Target(w, f, st, target, env);
    Agree(cfg, room, f, st, x, y, z, k);
    if x.st.steps < k || y.res.Err? { return; }
    PermissionShifts(f, y.st, y.res.value.id, k);
    if Permission(f, y.st, y.res.value.id).Some? { return; }
    ValueThenWriteStarves(cfg, room, f, y.st, y.res.value, value, env, k);
    EnoughGrows(cfg.limits.outputBytes, y.st.steps, st.steps);
  }

  lemma {:induction false} ValueThenWriteStarves(
    cfg: Config, room: nat, f: Frame, st: State, place: Place, value: Expr, env: Environment, k: nat)
    requires Roomed(cfg, room, f, st)
    ensures ValueThenWrite(cfg, f, More(st, k), place, value, env).st.steps < k ==>
              Shows(Enough(cfg.limits.outputBytes, st.steps), ValueThenWrite(Widened(cfg, room), f, st, place, value, env))
    decreases st.steps, 1
  {
    hide Evaluate, Write;
    EvaluateStarves(cfg, room, f, st, value, env, k);
  }

  lemma {:induction false} TargetStarves(cfg: Config, room: nat, f: Frame, st: State, e: Expr, env: Environment, k: nat)
    requires Roomed(cfg, room, f, st)
    ensures Target(cfg, f, More(st, k), e, env).st.steps < k ==>
              Shows(Enough(cfg.limits.outputBytes, st.steps), Target(Widened(cfg, room), f, st, e, env))
    decreases st.steps, 1, e
  {
    hide Evaluate;
    if e.Located? {
      TargetStarves(cfg, room, f.(span := Some(e.span)), st, e.inner, env, k);
      return;
    }
    hide Target, Evolves, Spent, Widens;
    var w, limit := Widened(cfg, room), cfg.limits.outputBytes;
    if st.steps == 0 {
      TargetLeaf(w, f, st, e, env);
      return;
    }
    if !e.Property? && !e.Index? {
      TargetLeaf(cfg, f, More(st, k), e, env);
      return;
    }
    var ticked := st.(steps := st.steps - 1);
    assert More(st, k).(steps := More(st, k).steps - 1) == More(ticked, k);
    TargetSteps(cfg, f, More(st, k), e, env);
    TargetSteps(w, f, st, e, env);
    TickRoomed(cfg, room, f, st);
    TargetSpends(cfg, f, ticked, e.owner, env, k);
    TargetWidens(cfg, room, f, ticked, e.owner, env);
    TargetEvolves(cfg, f, ticked, e.owner, env);
    TargetStarves(cfg, room, f, ticked, e.owner, env, k);
    EnoughGrows(limit, ticked.steps, st.steps);
    var x, y, z := Target(cfg, f, More(ticked, k), e.owner, env), Target(cfg, f, ticked, e.owner, env), Target(w, f, ticked, e.owner, env);
    Agree(cfg, room, f, ticked, x, y, z, k);
    if x.st.steps < k || y.res.Err? || e.Property? { return; }
    EvaluateStarves(cfg, room, f, y.st, e.index, env, k);
    EnoughGrows(limit, y.st.steps, st.steps);
  }

  // ----- calls -----

  lemma {:induction false} ApplyStarves(cfg: Config, room: nat, f: Frame, st: State, callee: Value, args: seq<Value>, k: nat)
    requires Roomed(cfg, room, f, st)
    ensures Apply(cfg, f, More(st, k), callee, args).st.steps < k ==>
              Shows(Enough(cfg.limits.outputBytes, st.steps), Apply(Widened(cfg, room), f, st, callee, args))
    decreases st.steps, 8
  {
    hide BuiltinResult, Print, CallFunction, Joined, Shows, Roomed;
    if callee.BuiltinValue? {
      BuiltinShifts(cfg, f, st, callee.builtin, args, k);
    } else if callee.FunctionValue? && callee.id < |st.functions| {
      CallStarves(cfg, room, f, st, st.functions[callee.id], args, k);
    }
  }

  lemma {:induction false} CallStarves(cfg: Config, room: nat, f: Frame, st: State, callee: FunctionDef, args: seq<Value>, k: nat)
    requires Roomed(cfg, room, f, st)
    ensures CallFunction(cfg, f, More(st, k), callee, args).st.steps < k ==>
              Shows(Enough(cfg.limits.outputBytes, st.steps), CallFunction(Widened(cfg, room), f, st, callee, args))
    decreases st.steps, 7
  {
    hide BindParameters, Leave, Body, Evolves;
    BindParametersWidens(cfg, room, f, st, callee.parameters, args, 0, map[]);
    BindParametersShifts(cfg, f, st, callee.parameters, args, 0, map[], k);
    BindParametersEvolves(cfg, f, st, callee.parameters, args, 0, map[]);
    var bound := BindParameters(cfg, f, st, callee.parameters, args, 0, map[]);
    Grown(f, st, bound.st);
    if bound.res.Err? { return; }
    BodyStarves(cfg, room, Enter(f, callee), bound.st, callee.body, callee.closure + [bound.res.value], k);
  }

  // ----- statements -----

  lemma {:induction false} StatementsStarves(
    cfg: Config, room: nat, f: Frame, st: State, stmts: seq<Stmt>, env: Environment, k: nat)
    requires Roomed(cfg, room, f, st)
    ensures Statements(cfg, f, More(st, k), stmts, env).st.steps < k ==>
              Shows(Enough(cfg.limits.outputBytes, st.steps), Statements(Widened(cfg, room), f, st, stmts, env))
    decreases st.steps, 4
  {
    if env == [] { return; }
    ReserveWidens(cfg, room, st, stmts, env, []);
    ReserveShifts(cfg, st, stmts, env, [], k);
    ReserveEvolves(cfg, f.captured, st, stmts, env, [], f.captured);
    var r := Reserve(cfg, st, stmts, env, []);
    InstallWidens(cfg, room, r.st, stmts, r.slots, r.env, 0);
    InstallShifts(cfg, r.st, stmts, r.slots, r.env, 0, k);
    InstallEvolves(cfg, f.captured, r.st, stmts, r.slots, r.env, 0);
    var installed := Install(cfg, r.st, stmts, r.slots, r.env, 0);
    SlotsForEvolves(cfg, f.captured, r.st, installed, stmts, r.slots, f.captured);
    hide Reserve, Install, ExecuteFrom, SlotsFor, Pending, DistinctSlots, KeepsSlot, HostGrows, Shows;
    ExecuteFromStarves(cfg, room, f, installed, stmts, r.slots, r.env, 0, k);
  }

  lemma {:induction false} RunLetStarves(
    cfg: Config, room: nat, f: Frame, st: State, slot: Option<nat>, value: Expr, env: Environment, k: nat)
    requires Roomed(cfg, room, f, st)
    ensures RunLet(cfg, f, More(st, k), slot, value, env).st.steps < k ==>
              Shows(Enough(cfg.limits.outputBytes, st.steps), RunLet(Widened(cfg, room), f, st, slot, value, env))
    decreases st.steps, 1
  {
    hide Evaluate, LetResult;
    EvaluateStarves(cfg, room, f, st, value, env, k);
  }

  lemma {:induction false} ExecuteFromStarves(
    cfg: Config, room: nat, f: Frame, st: State, stmts: seq<Stmt>, slots: seq<Option<nat>>, env: Environment, i: nat, k: nat)
    requires Roomed(cfg, room, f, st) && SlotsFor(cfg, st, stmts, slots, f.captured)
    ensures ExecuteFrom(cfg, f, More(st, k), stmts, slots, env, i).st.steps < k ==>
              Shows(Enough(cfg.limits.outputBytes, st.steps), ExecuteFrom(Widened(cfg, room), f, st, stmts, slots, env, i))
    decreases st.steps, 3
  {
    hide SlotsFor, RunLet, Execute;
    if i >= |stmts| || i >= |slots| || st.steps == 0 { return; }
    hide ExecuteFrom, Roomed, Shows;
    if stmts[i].Unspanned().Let? {
      LetStarves(cfg, room, f, st, stmts, slots, env, i, k);
    } else {
      OtherStarves(cfg, room, f, st, stmts, slots, env, i, k);
    }
  }

  lemma RoomedFacts(cfg: Config, room: nat, f: Frame, st: State)
    requires Roomed(cfg, room, f, st)
    ensures Started(cfg, room, f, st) && Buffered(f, st) && f.captured <= |st.bindings|
  {
  }

  lemma RestShows(
    cfg: Config, room: nat, f: Frame, st: State, after: State, stmts: seq<Stmt>, slots: seq<Option<nat>>, env: Environment, i: nat, k: nat)
    requires after.steps <= st.steps
    requires ExecuteFrom(cfg, f, More(after, k), stmts, slots, env, i).st.steps < k ==>
               Shows(Enough(cfg.limits.outputBytes, after.steps), ExecuteFrom(Widened(cfg, room), f, after, stmts, slots, env, i))
    ensures ExecuteFrom(cfg, f, More(after, k), stmts, slots, env, i).st.steps < k ==>
              Shows(Enough(cfg.limits.outputBytes, st.steps), ExecuteFrom(Widened(cfg, room), f, after, stmts, slots, env, i))
  {
    hide ExecuteFrom;
    EnoughGrows(cfg.limits.outputBytes, after.steps, st.steps);
  }

  /** The initializer of a `let`, with all that is known about it. */
  lemma {:induction false} LetPart(
    cfg: Config, room: nat, f: Frame, st: State, slot: Option<nat>, value: Expr, env: Environment, k: nat)
    requires Roomed(cfg, room, f, st)
    requires slot.Some? ==> f.captured <= slot.value < |st.bindings| && st.bindings[slot.value].mutable
    ensures var x, y, z := RunLet(cfg, f, More(st, k), slot, value, env), RunLet(cfg, f, st, slot, value, env),
                           RunLet(Widened(cfg, room), f, st, slot, value, env);
            && (x.st.steps < k ==> Shows(Enough(cfg.limits.outputBytes, st.steps), z))
            && (x.st.steps >= k ==> x.res == y.res && x.st == More(y.st, k))
            && (y.res.Ok? ==> z == y && Roomed(cfg, room, f, y.st))
            && Evolves(f.captured, st, y.st) && y.st.steps <= st.steps
    decreases st.steps, 2
  {
    hide RunLet, Spent, Widens, Shows, Roomed, Evolves;
    RoomedFacts(cfg, room, f, st);
    RunLetSpends(cfg, f, st, slot, value, env, k);
    RunLetWidens(cfg, room, f, st, slot, value, env);
    RunLetEvolves(cfg, f, st, slot, value, env);
    RunLetStarves(cfg, room, f, st, slot, value, env, k);
    Agree(cfg, room, f, st, RunLet(cfg, f, More(st, k), slot, value, env), RunLet(cfg, f, st, slot, value, env),
          RunLet(Widened(cfg, room), f, st, slot, value, env), k);
  }

  /** A statement, with all that is known about it. */
  lemma {:induction false} StatementPart(cfg: Config, room: nat, f: Frame, st: State, s: Stmt, env: Environment, k: nat)
    requires Roomed(cfg, room, f, st)
    ensures var x, y, z := Execute(cfg, f, More(st, k), s, env), Execute(cfg, f, st, s, env), Execute(Widened(cfg, room), f, st, s, env);
            && (x.st.steps < k ==> Shows(Enough(cfg.limits.outputBytes, st.steps), z))
            && (x.st.steps >= k ==> x.res == y.res && x.st == More(y.st, k))
            && (y.res.Ok? ==> z == y && Roomed(cfg, room, f, y.st))
            && Evolves(f.captured, st, y.st) && y.st.steps <= st.steps
    decreases st.steps, 9
  {
    hide Execute, Spent, Widens, Shows, Roomed, Evolves;
    RoomedFacts(cfg, room, f, st);
    ExecuteSpends(cfg, f, st, s, env, k);
    ExecuteWidens(cfg, room, f, st, s, env);
    ExecuteEvolves(cfg, f, st, s, env);
    ExecuteStarves(cfg, room, f, st, s, env, k);
    Agree(cfg, room, f, st, Execute(cfg, f, More(st, k), s, env), Execute(cfg, f, st, s, env), Execute(Widened(cfg, room), f, st, s, env), k);
  }

  lemma {:induction false} LetStarves(
    cfg: Config, room: nat, f: Frame, st: State, stmts: seq<Stmt>, slots: seq<Option<nat>>, env: Environment, i: nat, k: nat)
    requires Roomed(cfg, room, f, st) && SlotsFor(cfg, st, stmts, slots, f.captured)
    requires i < |stmts| && i < |slots| && st.steps > 0 && stmts[i].Unspanned().Let?
    ensures ExecuteFrom(cfg, f, More(st, k), stmts, slots, env, i).st.steps < k ==>
              Shows(Enough(cfg.limits.outputBytes, st.steps), ExecuteFrom(Widened(cfg, room), f, st, stmts, slots, env, i))
    decreases st.steps, 2
  {
    var w, stmt, limit := Widened(cfg, room), stmts[i].Unspanned(), cfg.limits.outputBytes;
    var here, ticked := f.(span := stmts[i].Where().Or(f.span)), st.(steps := st.steps - 1);
    assert SlotFor(cfg, st, stmt, slots[i], f.captured);
    assert More(st, k).(steps := More(st, k).steps - 1) == More(ticked, k);
    hide ExecuteFrom, RunLet, SlotsFor, Evolves, Shows, Roomed, Enough;
    ExecuteFromSteps(cfg, f, More(st, k), stmts, slots, env, i);
    ExecuteFromSteps(w, f, st, stmts, slots, env, i);
    TickRoomed(cfg, room, f, st);
    SpanRoomed(cfg, room, f, here, ticked);
    LetPart(cfg, room, here, ticked, slots[i], stmt.value, env, k);
    var x, y, z := RunLet(cfg, here, More(ticked, k), slots[i], stmt.value, env),
                   RunLet(cfg, here, ticked, slots[i], stmt.value, env), RunLet(w, here, ticked, slots[i], stmt.value, env);
    if x.st.steps < k {
      FewerSteps(limit, ticked.steps, st.steps, z);
      StaysShown(Enough(limit, st.steps), z);
      assert ExecuteFrom(w, f, st, stmts, slots, env, i) == Out(z.st, Err(z.res.error));
    } else if y.res.Ok? {
      SpanRoomed(cfg, room, f, here, y.st);
      Ticks(f.captured, st, st.steps - 1);
      Then(f.captured, st, ticked, y.st);
      SlotsForEvolves(cfg, f.captured, st, y.st, stmts, slots, f.captured);
      ExecuteFromStarves(cfg, room, f, y.st, stmts, slots, Bind(env, stmt.name, slots[i].GetOr(0)), i + 1, k);
      RestShows(cfg, room, f, st, y.st, stmts, slots, Bind(env, stmt.name, slots[i].GetOr(0)), i + 1, k);
    }
  }

  /** A failed part fails the whole with the same error. */
  lemma StaysShown<T>(most: nat, o: Out<T>)
    requires Shows(most, o)
    ensures o.res.Err? && var failed: Out<Flow> := Out(o.st, Err(o.res.error)); Shows(most, failed)
  {
  }

  lemma {:induction false} OtherStarves(
    cfg: Config, room: nat, f: Frame, st: State, stmts: seq<Stmt>, slots: seq<Option<nat>>, env: Environment, i: nat, k: nat)
    requires Roomed(cfg, room, f, st) && SlotsFor(cfg, st, stmts, slots, f.captured)
    requires i < |stmts| && i < |slots| && st.steps > 0 && !stmts[i].Unspanned().Let?
    ensures ExecuteFrom(cfg, f, More(st, k), stmts, slots, env, i).st.steps < k ==>
              Shows(Enough(cfg.limits.outputBytes, st.steps), ExecuteFrom(Widened(cfg, room), f, st, stmts, slots, env, i))
    decreases st.steps, 2
  {
    var w, stmt, limit := Widened(cfg, room), stmts[i].Unspanned(), cfg.limits.outputBytes;
    var here, ticked := f.(span := stmts[i].Where().Or(f.span)), st.(steps := st.steps - 1);
    assert More(st, k).(steps := More(st, k).steps - 1) == More(ticked, k);
    hide ExecuteFrom, Execute, SlotsFor, Evolves, Shows, Roomed, Enough;
    TickRoomed(cfg, room, f, st);
    SpanRoomed(cfg, room, f, here, ticked);
    StatementPart(cfg, room, here, ticked, stmt, env, k);
    ExecuteFromSteps(cfg, f, More(st, k), stmts, slots, env, i);
    ExecuteFromSteps(w, f, st, stmts, slots, env, i);
    var x, y, z := Execute(cfg, here, More(ticked, k), stmt, env), Execute(cfg, here, ticked, stmt, env), Execute(w, here, ticked, stmt, env);
    if x.st.steps < k {
      FewerSteps(limit, ticked.steps, st.steps, z);
      StaysShown(Enough(limit, st.steps), z);
      assert ExecuteFrom(w, f, st, stmts, slots, env, i) == z;
    } else if y.res.Ok? && y.res.value.Normal? {
      SpanRoomed(cfg, room, f, here, y.st);
      Ticks(f.captured, st, st.steps - 1);
      Then(f.captured, st, ticked, y.st);
      SlotsForEvolves(cfg, f.captured, st, y.st, stmts, slots, f.captured);
      ExecuteFromStarves(cfg, room, f, y.st, stmts, slots, env, i + 1, k);
      RestShows(cfg, room, f, st, y.st, stmts, slots, env, i + 1, k);
    }
  }

  lemma {:induction false} BodyStarves(cfg: Config, room: nat, f: Frame, st: State, body: Stmt, env: Environment, k: nat)
    requires Roomed(cfg, room, f, st)
    ensures Body(cfg, f, More(st, k), body, env).st.steps < k ==>
              Shows(Enough(cfg.limits.outputBytes, st.steps), Body(Widened(cfg, room), f, st, body, env))
    decreases st.steps, 5, body
  {
    hide Statements, Shows;
    if body.LocatedStmt? {
      BodyStarves(cfg, room, f.(span := Some(body.span)), st, body.inner, env, k);
    } else {
      StatementsStarves(cfg, room, f, st, Contents(body), env, k);
    }
  }

  lemma {:induction false} ExecuteStarves(cfg: Config, room: nat, f: Frame, st: State, s: Stmt, env: Environment, k: nat)
    requires Roomed(cfg, room, f, st)
    ensures Execute(cfg, f, More(st, k), s, env).st.steps < k ==>
              Shows(Enough(cfg.limits.outputBytes, st.steps), Execute(Widened(cfg, room), f, st, s, env))
    decreases st.steps, 8, s
  {
    hide PlanOf, Evaluate, Resume, Body, Settle, Evolves, Spent, Widens;
    var w := Widened(cfg, room);
    if s.LocatedStmt? {
      ExecuteStarves(cfg, room, f.(span := Some(s.span)), st, s.inner, env, k);
    } else if s.Block? {
      BodyStarves(cfg, room, f, st, s, env + [map[]], k);
    } else if HeadOf(s).Some? {
      var head := HeadOf(s).value;
      EvaluateSpends(cfg, f, st, head, env, k);
      EvaluateWidens(cfg, room, f, st, head, env);
      EvaluateEvolves(cfg, f, st, head, env);
      EvaluateStarves(cfg, room, f, st, head, env, k);
      var x, y, z := Evaluate(cfg, f, More(st, k), head, env), Evaluate(cfg, f, st, head, env), Evaluate(w, f, st, head, env);
      Agree(cfg, room, f, st, x, y, z, k);
      if x.st.steps < k || y.res.Err? { return; }
      PlanWidens(cfg, room, f, s, y.res.value);
      ResumeStarves(cfg, room, f, y.st, s, PlanOf(cfg, f, s, y.res.value), env, k);
      EnoughGrows(cfg.limits.outputBytes, y.st.steps, st.steps);
    }
  }

  lemma {:induction false} ResumeStarves(cfg: Config, room: nat, f: Frame, st: State, s: Stmt, plan: Plan, env: Environment, k: nat)
    requires Roomed(cfg, room, f, st)
    ensures Resume(cfg, f, More(st, k), s, plan, env).st.steps < k ==>
              Shows(Enough(cfg.limits.outputBytes, st.steps), Resume(Widened(cfg, room), f, st, s, plan, env))
    decreases st.steps, 10
  {
    hide Resume, Body, Execute, EachFrom, Batches, Evolves, Spent, Widens;
    var w := Widened(cfg, room);
    ResumeSteps(cfg, f, More(st, k), s, plan, env);
    ResumeSteps(w, f, st, s, plan, env);
    match plan
    case Run(body) => BodyStarves(cfg, room, f, st, body, env + [map[]], k);
    case Repeat(body) =>
      var inner := env + [map[]];
      BodySpends(cfg, f, st, body, inner, k);
      BodyWidens(cfg, room, f, st, body, inner);
      BodyEvolves(cfg, f, st, body, inner);
      BodyStarves(cfg, room, f, st, body, inner, k);
      var x, y, z := Body(cfg, f, More(st, k), body, inner), Body(cfg, f, st, body, inner), Body(w, f, st, body, inner);
      Agree(cfg, room, f, st, x, y, z, k);
      if x.st.steps < k || y.res.Err? || y.res.value.ReturnFlow? || y.res.value.BreakFlow? { return; }
      ExecuteStarves(cfg, room, f, y.st, s, env, k);
      EnoughGrows(cfg.limits.outputBytes, y.st.steps, st.steps);
    case Iterate(variable, values, body) => EachStarves(cfg, room, f, st, variable, values, 0, body, env, k);
    case Spread(variable, values, body) =>
      assert Snap(More(st, k)) == Snap(st);
      BatchesStarves(cfg, room, f, st, Snap(st), variable, values, 0, body, env, k);
    case _ =>
  }

  lemma {:induction false} EachStarves(
    cfg: Config, room: nat, f: Frame, st: State, variable: string, values: seq<Value>, i: nat, body: Stmt, env: Environment, k: nat)
    requires Roomed(cfg, room, f, st)
    ensures EachFrom(cfg, f, More(st, k), variable, values, i, body, env).st.steps < k ==>
              Shows(Enough(cfg.limits.outputBytes, st.steps), EachFrom(Widened(cfg, room), f, st, variable, values, i, body, env))
    decreases st.steps, 7
  {
    if i >= |values| || st.steps == 0 { return; }
    hide Body, EachFrom, Evolves, Spent, Widens;
    var w, limit := Widened(cfg, room), cfg.limits.outputBytes;
    EachSteps(cfg, f, More(st, k), variable, values, i, body, env);
    EachSteps(w, f, st, variable, values, i, body, env);
    var entered := Allocate(st.(steps := st.steps - 1), None, Some(values[i]), true);
    assert Allocate(More(st, k).(steps := More(st, k).steps - 1), None, Some(values[i]), true) == More(entered, k);
    TickRoomed(cfg, room, f, st);
    EnoughGrows(limit, entered.steps, st.steps);
    var scope := env + [map[variable := |st.bindings|]];
    BodySpends(cfg, f, entered, body, scope, k);
    BodyWidens(cfg, room, f, entered, body, scope);
    BodyEvolves(cfg, f, entered, body, scope);
    BodyStarves(cfg, room, f, entered, body, scope, k);
    var x, y, z := Body(cfg, f, More(entered, k), body, scope), Body(cfg, f, entered, body, scope), Body(w, f, entered, body, scope);
    Agree(cfg, room, f, entered, x, y, z, k);
    if x.st.steps < k || y.res.Err? || y.res.value.ReturnFlow? || y.res.value.BreakFlow? { return; }
    EachStarves(cfg, room, f, y.st, variable, values, i + 1, body, env, k);
    EnoughGrows(limit, y.st.steps, st.steps);
  }

  // ----- nested workers -----

  lemma {:induction false} WorkerStarves(
    cfg: Config, room: nat, f: Frame, snapshot: Snapshot, steps: nat, host: HostState, value: Value, variable: string,
    body: Stmt, env: Environment, k: nat)
    requires Enough(cfg.limits.outputBytes, steps) <= room
    ensures Worker(cfg, f, snapshot, steps + k, host, value, variable, body, env).st.steps < k ==>
              Shows(Enough(cfg.limits.outputBytes, steps), Worker(Widened(cfg, room), f, snapshot, steps, host, value, variable, body, env))
    decreases steps, 6
  {
    assert WorkerStart(snapshot, steps + k, host, value) == More(WorkerStart(snapshot, steps, host, value), k);
    BodyStarves(cfg, room, WorkerFrame(f, snapshot), WorkerStart(snapshot, steps, host, value), body,
                env + [map[variable := |snapshot.bindings|]], k);
  }

  /** Replaying what a starved worker buffered, when there is room for it on top of the lines that are there. */
  lemma ReplayShows(cfg: Config, f: Frame, h: HostState, o: Out<Flow>, first: nat, held: nat, most: nat)
    requires Shows(most, o) && o.st.host.buffer.value.bytes == Cost(o.st.host.buffer.value.lines)
    requires h.buffer.Some? && h.buffer.value.bytes <= held && held + most <= cfg.limits.outputBytes
    ensures var (next, error) := Replay(cfg, f, h, [WorkerOutcome(f, o, first)], 0, None);
            && error.Some? && Bare(error.value.message) == StepLimit
            && next.buffer.Some? && next.buffer.value.bytes <= held + most
  {
    hide Replay, Cost;
    ReplayedOne(cfg, f, h, WorkerOutcome(f, o, first));
  }

  lemma ForkTakesOne(cfg: Config, f: Frame, st: State, k: nat)
    requires st.steps > 0
    ensures var a, b := ForkFrom(cfg, f, More(st, k), 1, []), ForkFrom(cfg, f, st, 1, []);
            && a.res == b.res && a.st == More(b.st, k) && b.st.steps == st.steps - 1
            && b.st.host.buffer == st.host.buffer && (b.res.Ok? ==> |b.res.value| == 1)
  {
    var (asked, reply) := Ask(cfg, st.host, Fork);
    var next := st.(steps := st.steps - 1, host := asked);
    assert More(st, k).(steps := More(st, k).steps - 1, host := asked) == More(next, k);
  }

  /** A batch of one whose worker starves: its lines fit, and its step limit is the batch's. */
  lemma StarvedBatchShows(
    cfg: Config, f: Frame, st: State, snapshot: Snapshot, variable: string, value: Value, first: nat, host: HostState,
    body: Stmt, env: Environment, held: nat, most: nat)
    requires Shows(most, Worker(cfg, f, snapshot, st.steps, host, value, variable, body, env))
    requires st.host.buffer.Some? && st.host.buffer.value.bytes <= held && held + most <= cfg.limits.outputBytes
    ensures var o := Rejoined(cfg, f, WorkersFrom(cfg, f, st, snapshot, variable, [value], first, [host], [], body, env));
            Shows(held + most, o)
  {
    hide WorkersFrom, Worker, WorkerOutcome, Replay, Cost;
    OneWorker(cfg, f, st, snapshot, variable, value, first, host, body, env);
    WorkerPays(cfg, f, snapshot, st.steps, host, value, variable, body, env);
    ReplayShows(cfg, f, st.host, Worker(cfg, f, snapshot, st.steps, host, value, variable, body, env), first, held, most);
  }

  /** The end of a batch: replay what its workers left. */
  function Rejoined(cfg: Config, f: Frame, w: Finished): Out<Flow> {
    var (host, error) := Replay(cfg, f, w.st.host, w.outcomes, 0, None);
    Out(w.st.(host := host), if error.Some? then Err(error.value) else Ok(Normal))
  }

  lemma BatchParts(
    cfg: Config, f: Frame, st: State, snapshot: Snapshot, variable: string, value: Value, first: nat, body: Stmt, env: Environment)
    ensures var forked := ForkFrom(cfg, f, st, 1, []);
            Batch(cfg, f, st, snapshot, variable, [value], first, body, env) ==
              if forked.res.Err? then Out(forked.st, Err(forked.res.error))
              else Rejoined(cfg, f, WorkersFrom(cfg, f, forked.st, snapshot, variable, [value], first, forked.res.value, [], body, env))
  {
    hide ForkFrom, WorkersFrom, Replay;
  }

  lemma NoStepToFork(cfg: Config, f: Frame, st: State)
    requires st.steps == 0
    ensures ForkFrom(cfg, f, st, 1, []) == Fail(f, st, StepLimit)
  {
  }

  lemma ForkFacts(cfg: Config, room: nat, f: Frame, st: State)
    requires Roomed(cfg, room, f, st)
    ensures st.host.buffer.Some? && st.host.buffer.value.bytes <= cfg.limits.outputBytes
    ensures Enough(cfg.limits.outputBytes, st.steps) <= room
    ensures st.steps > 0 ==>
              Enough(cfg.limits.outputBytes, st.steps) == cfg.limits.outputBytes + Enough(cfg.limits.outputBytes, st.steps - 1)
  {
  }

  lemma {:induction false} BatchStarves(
    cfg: Config, room: nat, f: Frame, st: State, snapshot: Snapshot, variable: string, value: Value, first: nat,
    body: Stmt, env: Environment, k: nat)
    requires Roomed(cfg, room, f, st)
    ensures Batch(cfg, f, More(st, k), snapshot, variable, [value], first, body, env).st.steps < k ==>
              Shows(Enough(cfg.limits.outputBytes, st.steps),
                    Batch(Widened(cfg, room), f, st, snapshot, variable, [value], first, body, env))
    decreases st.steps, 8
  {
    hide WorkersFrom, Worker, WorkerOutcome, Replay, Batch, ForkFrom, Roomed, Enough;
    var w, limit := Widened(cfg, room), cfg.limits.outputBytes;
    ForkFacts(cfg, room, f, st);
    BatchParts(cfg, f, More(st, k), snapshot, variable, value, first, body, env);
    BatchParts(w, f, st, snapshot, variable, value, first, body, env);
    if st.steps == 0 {
      NoStepToFork(w, f, st);
      return;
    }
    ForkTakesOne(cfg, f, st, k);
    ForkWidens(cfg, room, f, st, 1, []);
    var forked, more := ForkFrom(cfg, f, st, 1, []), ForkFrom(cfg, f, More(st, k), 1, []);
    if forked.res.Err? { return; }
    var host, steps := forked.res.value[0], forked.st.steps;
    assert forked.res.value == [host];
    OneWorker(cfg, f, more.st, snapshot, variable, value, first, host, body, env);
    hide Shows;
    WorkerStarves(cfg, room, f, snapshot, steps, host, value, variable, body, env, k);
    if Worker(cfg, f, snapshot, steps + k, host, value, variable, body, env).st.steps < k {
      StarvedBatchShows(w, f, forked.st, snapshot, variable, value, first, host, body, env, limit, Enough(limit, steps));
    }
  }

  lemma {:induction false} BatchesStarves(
    cfg: Config, room: nat, f: Frame, st: State, snapshot: Snapshot, variable: string, values: seq<Value>, start: nat,
    body: Stmt, env: Environment, k: nat)
    requires Roomed(cfg, room, f, st)
    ensures Batches(cfg, f, More(st, k), snapshot, variable, values, start, 1, body, env).st.steps < k ==>
              Shows(Enough(cfg.limits.outputBytes, st.steps),
                    Batches(Widened(cfg, room), f, st, snapshot, variable, values, start, 1, body, env))
    decreases st.steps, 9
  {
    hide Batch, Evolves, Spent, Widens;
    if start >= |values| { return; }
    var w, one := Widened(cfg, room), [values[start]];
    assert values[start..start + 1] == one;
    BatchSpends(cfg, f, st, snapshot, variable, one, start, body, env, k);
    BatchWidens(cfg, room, f, st, snapshot, variable, values[start], start, body, env);
    BatchEvolves(cfg, f, st, snapshot, variable, one, start, body, env);
    BatchStarves(cfg, room, f, st, snapshot, variable, values[start], start, body, env, k);
    var x, y, z := Batch(cfg, f, More(st, k), snapshot, variable, one, start, body, env),
                   Batch(cfg, f, st, snapshot, variable, one, start, body, env), Batch(w, f, st, snapshot, variable, one, start, body, env);
    Agree(cfg, room, f, st, x, y, z, k);
    if x.st.steps < k || y.res.Err? { return; }
    BatchesStarves(cfg, room, f, y.st, snapshot, variable, values, start + 1, body, env, k);
    EnoughGrows(cfg.limits.outputBytes, y.st.steps, st.steps);
  }

  // ----- jobs -----

  /** With enough room a refused job always reports the step limit. */
  lemma RoomShowsStarvation(job: Job, room: nat, n: nat)
    requires Wants(job, n) && job.cfg.limits.outputBytes * (n + 1) <= room
    ensures var wide := Report(Roomier(job, room), n);
            wide.error.Some? && Bare(wide.error.value.message) == StepLimit
  {
    hide Worker;
    EnoughIs(job.cfg.limits.outputBytes, n);
    WorkerStarves(job.cfg, room, job.frame, job.snapshot, n, job.host, job.value, job.variable, job.body, job.env, 1);
  }

  /** Room for a job that is refused after `n` steps, whatever it runs. */
  function Unbounded(job: Job, n: nat): Job {
    Roomier(job, job.cfg.limits.outputBytes * (n + 1))
  }

  /**
   * Exactly when a worker that is refused a step reports the step limit: if and
   * only if the lines it buffers when there is room for all of them cost no more
   * than the limit.
   */
  lemma StarvationShowsIff(job: Job, n: nat)
    requires Wants(job, n)
    ensures Report(job, n).error.Some?
    ensures Bare(Report(job, n).error.value.message) == StepLimit
       <==> Cost(Report(Unbounded(job, n), n).lines) <= job.cfg.limits.outputBytes
  {
    var room := job.cfg.limits.outputBytes * (n + 1);
    EnoughIs(job.cfg.limits.outputBytes, n);
    hide Report, Cost, Wants, Roomier;
    RoomShowsStarvation(job, room, n);
    RoomDecides(job, room, n);
  }

  /** So for every refused worker of every interleaving. */
  lemma RefusedWorkersShowIff(jobs: seq<Job>, budget: nat, schedule: seq<nat>)
    ensures var m := Interleave(jobs, budget, schedule);
            forall i | 0 <= i < |jobs| && m.refused[i] ::
              && Reports(jobs, m)[i].error.Some?
              && (Bare(Reports(jobs, m)[i].error.value.message) == StepLimit
                  <==> Cost(Report(Unbounded(jobs[i], m.granted[i]), m.granted[i]).lines) <= jobs[i].cfg.limits.outputBytes)
  {
    hide Report, Wants, Interleave, Cost, Unbounded;
    var m := Interleave(jobs, budget, schedule);
    StepsAreConserved(jobs, budget, schedule);
    forall i | 0 <= i < |jobs| && m.refused[i]
      ensures Reports(jobs, m)[i].error.Some?
      ensures Bare(Reports(jobs, m)[i].error.value.message) == StepLimit
         <==> Cost(Report(Unbounded(jobs[i], m.granted[i]), m.granted[i]).lines) <= jobs[i].cfg.limits.outputBytes
    {
      StarvationShowsIff(jobs[i], m.granted[i]);
    }
  }
}
