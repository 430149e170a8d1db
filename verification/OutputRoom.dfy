/** What the output limit of workers decides, and so when a worker that ran out of steps says so. */
module OutputRoom {
  import opened Wrappers
  import opened Ast
  import opened Types
  import opened Values
  import opened Operations
  import opened Evaluation
  import opened Equations
  import opened Evolution
  import opened Schedule
  import opened Parallel

  function Widened(cfg: Config, room: nat): Config {
    cfg.(limits := cfg.limits.(outputBytes := room))
  }

  predicate Spilled<T>(res: Result<T, RuntimeError>) {
    res.Err? && Bare(res.error.message) == OutputLimit
  }

  predicate Over(limit: nat, h: HostState) {
    h.buffer.Some? && h.buffer.value.bytes > limit
  }

  predicate Snug(limit: nat, h: HostState) {
    h.buffer.Some? && h.buffer.value.bytes <= limit
  }

  /** `a` is the run with wider buffers: the same as `b`, or `b` spilled and `a` has too much in its buffer or spilled too. */
  predicate Widens<T(==)>(limit: nat, a: Out<T>, b: Out<T>) {
    || (a == b && Snug(limit, b.st.host))
    || (Spilled(b.res) && (Spilled(a.res) || Over(limit, a.st.host)))
  }

  /** Inside a worker whose buffer keeps the limit. */
  predicate Started(cfg: Config, room: nat, f: Frame, st: State) {
    f.inWorker && f.captured <= |st.bindings| && cfg.limits.outputBytes <= room && Snug(cfg.limits.outputBytes, st.host)
  }

  lemma StaysOver(limit: nat, captured: nat, a: State, b: State)
    requires Over(limit, a.host) && Evolves(captured, a, b)
    ensures Over(limit, b.host)
  {
  }

  // ----- steps that do not look at the limit -----

  lemma ChecksWiden(cfg: Config, room: nat, f: Frame)
    ensures forall expected, v :: CheckType(Widened(cfg, room), expected, v) == CheckType(cfg, expected, v)
    ensures forall e :: Refusal(Widened(cfg, room), e) == Refusal(cfg, e) && CheckOf(Widened(cfg, room), e) == CheckOf(cfg, e)
    ensures forall check, i: nat, v :: ElementError(Widened(cfg, room), check, i, v) == ElementError(cfg, check, i, v)
  {
    hide CheckValueType, Resolve, FieldType;
  }

  lemma PlanWidens(cfg: Config, room: nat, f: Frame, s: Stmt, v: Value)
    ensures PlanOf(Widened(cfg, room), f, s, v) == PlanOf(cfg, f, s, v)
  {
    hide CheckType;
    ChecksWiden(cfg, room, f);
  }

  lemma HostResultWidens(cfg: Config, room: nat, f: Frame, st: State, call: HostCall)
    ensures HostResult(Widened(cfg, room), f, st, call) == HostResult(cfg, f, st, call)
    ensures HostResult(cfg, f, st, call).st.host.buffer == st.host.buffer
  {
  }

  lemma CombineWidens(cfg: Config, room: nat, f: Frame, st: State, e: Expr, values: seq<Value>)
    requires IsStrict(e) && |values| == |Operands(e)|
    ensures Combine(Widened(cfg, room), f, st, e, values) == Combine(cfg, f, st, e, values)
    ensures Combine(cfg, f, st, e, values).st.host.buffer == st.host.buffer
  {
    hide HostResult, Operands, Get, BinaryResult, UnaryResult, ElementResult;
    forall call
      ensures HostResult(Widened(cfg, room), f, st, call) == HostResult(cfg, f, st, call)
      ensures HostResult(cfg, f, st, call).st.host.buffer == st.host.buffer
    {
      HostResultWidens(cfg, room, f, st, call);
    }
  }

  lemma BuiltinWidens(cfg: Config, room: nat, f: Frame, st: State, builtin: Builtin, args: seq<Value>)
    ensures BuiltinResult(Widened(cfg, room), f, st, builtin, args) == BuiltinResult(cfg, f, st, builtin, args)
    ensures BuiltinResult(cfg, f, st, builtin, args).st.host.buffer == st.host.buffer
  {
  }

  lemma {:induction false} JoinedWidens(cfg: Config, room: nat, args: seq<Value>)
    ensures Joined(Widened(cfg, room), args) == Joined(cfg, args)
  {
    if |args| > 1 {
      JoinedWidens(cfg, room, args[1..]);
    }
  }

  lemma PrintWidens(cfg: Config, room: nat, h: HostState, text: string)
    requires Snug(cfg.limits.outputBytes, h) && cfg.limits.outputBytes <= room
    ensures var a, b := Print(Widened(cfg, room), h, text), Print(cfg, h, text);
            && (b.1.None? ==> a == b && Snug(cfg.limits.outputBytes, b.0))
            && (b.1.Some? ==> b.1.value == OutputLimit)
            && (b.1.Some? ==> a.1 == Some(OutputLimit) || Over(cfg.limits.outputBytes, a.0))
  {
    hide Utf8Length;
  }

  lemma WriteWidens(cfg: Config, room: nat, f: Frame, st: State, place: Place, v: Value)
    ensures Write(Widened(cfg, room), f, st, place, v) == Write(cfg, f, st, place, v)
    ensures Write(cfg, f, st, place, v).st.host == st.host
  {
    hide CheckType, Set;
    ChecksWiden(cfg, room, f);
  }

  lemma {:induction false} BindParametersWidens(
    cfg: Config, room: nat, f: Frame, st: State, parameters: seq<Parameter>, args: seq<Value>, i: nat, scope: map<string, nat>)
    ensures BindParameters(Widened(cfg, room), f, st, parameters, args, i, scope) == BindParameters(cfg, f, st, parameters, args, i, scope)
    ensures BindParameters(cfg, f, st, parameters, args, i, scope).st.host == st.host
    decreases |parameters| - i
  {
    hide CheckType;
    ChecksWiden(cfg, room, f);
    if i < |parameters| && i < |args| {
      var annotation := ResolveAnnotation(cfg.types, parameters[i].annotation);
      var next := Allocate(st, annotation, Some(args[i]), true);
      BindParametersWidens(cfg, room, f, next, parameters, args, i + 1, scope[parameters[i].name := |st.bindings|]);
    }
  }

  lemma {:induction false} ReserveWidens(
    cfg: Config, room: nat, st: State, stmts: seq<Stmt>, env: Environment, slots: seq<Option<nat>>)
    ensures Reserve(Widened(cfg, room), st, stmts, env, slots) == Reserve(cfg, st, stmts, env, slots)
    decreases |stmts| - |slots|
  {
    if |slots| < |stmts| {
      var stmt, more := stmts[|slots|].Unspanned(), slots + [Some(|st.bindings|)];
      if stmt.Let? {
        ReserveWidens(cfg, room, Allocate(st, ResolveAnnotation(cfg.types, stmt.annotation), None, true), stmts, env, more);
      } else if stmt.Function? {
        ReserveWidens(cfg, room, Allocate(st, None, None, false), stmts, Bind(env, stmt.name, |st.bindings|), more);
      } else {
        ReserveWidens(cfg, room, st, stmts, env, slots + [None]);
      }
    }
  }

  lemma {:induction false} InstallWidens(
    cfg: Config, room: nat, st: State, stmts: seq<Stmt>, slots: seq<Option<nat>>, env: Environment, i: nat)
    ensures Install(Widened(cfg, room), st, stmts, slots, env, i) == Install(cfg, st, stmts, slots, env, i)
    ensures Install(cfg, st, stmts, slots, env, i).host == st.host
    decreases |stmts| - i
  {
    if i < |stmts| && i < |slots| {
      var stmt := stmts[i].Unspanned();
      if stmt.Let? && slots[i].Some? {
        InstallWidens(cfg, room, st, stmts, slots, Bind(env, stmt.name, slots[i].value), i + 1);
      } else if stmt.Function? && slots[i].Some? && slots[i].value < |st.bindings| {
        assert Definition(Widened(cfg, room), stmts[i], env) == Definition(cfg, stmts[i], env);
        var pushed := st.(functions := st.functions + [Definition(cfg, stmts[i], env)]);
        InstallWidens(cfg, room, Store(pushed, slots[i].value, FunctionValue(|st.functions|)), stmts, slots, env, i + 1);
      } else {
        InstallWidens(cfg, room, st, stmts, slots, env, i + 1);
      }
    }
  }

  lemma LetResultWidens(cfg: Config, room: nat, f: Frame, st: State, slot: Option<nat>, value: Expr, v: Value)
    ensures LetResult(Widened(cfg, room), f, st, slot, value, v) == LetResult(cfg, f, st, slot, value, v)
    ensures LetResult(cfg, f, st, slot, value, v).st.host == st.host
  {
    hide CheckType;
    ChecksWiden(cfg, room, f);
  }

  lemma LeaveWidens(cfg: Config, room: nat, inside: Frame, st: State, callee: FunctionDef, flow: Flow)
    ensures Leave(Widened(cfg, room), inside, st, callee, flow) == Leave(cfg, inside, st, callee, flow)
  {
    hide CheckType;
    ChecksWiden(cfg, room, inside);
  }

  lemma SlotsWiden(cfg: Config, room: nat, st: State, stmts: seq<Stmt>, slots: seq<Option<nat>>, base: nat)
    requires SlotsFor(cfg, st, stmts, slots, base)
    ensures SlotsFor(Widened(cfg, room), st, stmts, slots, base)
  {
    forall i | 0 <= i < |slots|
      ensures SlotFor(Widened(cfg, room), st, stmts[i].Unspanned(), slots[i], base)
    {
      assert SlotFor(cfg, st, stmts[i].Unspanned(), slots[i], base);
    }
  }

  // ----- expressions -----

  lemma {:induction false} EvaluateWidens(cfg: Config, room: nat, f: Frame, st: State, e: Expr, env: Environment)
    requires Started(cfg, room, f, st)
    ensures Widens(cfg.limits.outputBytes, Evaluate(Widened(cfg, room), f, st, e, env), Evaluate(cfg, f, st, e, env))
    decreases st.steps, 0, e
  {
    hide Inner, Spilled, Over;
    if e.Located? {
      EvaluateWidens(cfg, room, f.(span := Some(e.span)), st, e.inner, env);
      return;
    }
    if st.steps == 0 || f.depth >= cfg.limits.expressionDepth { return; }
    InnerWidens(cfg, room, f.(depth := f.depth + 1), st.(steps := st.steps - 1), e, env);
  }

  lemma {:induction false} InnerWidens(cfg: Config, room: nat, f: Frame, st: State, e: Expr, env: Environment)
    requires Started(cfg, room, f, st) && !e.Located?
    ensures Widens(cfg.limits.outputBytes, Inner(Widened(cfg, room), f, st, e, env), Inner(cfg, f, st, e, env))
    decreases st.steps, 3
  {
    hide Assign, Strict, Logical;
    if e.Identifier? {
    } else if e.Assignment? {
      AssignWidens(cfg, room, f, st, e.target, e.value, env);
    } else if IsStrict(e) {
      StrictWidens(cfg, room, f, st, e, env);
    } else {
      LogicalWidens(cfg, room, f, st, e.left, e.binary, e.right, env);
    }
  }

  lemma {:induction false} StrictWidens(cfg: Config, room: nat, f: Frame, st: State, e: Expr, env: Environment)
    requires Started(cfg, room, f, st) && IsStrict(e)
    ensures Widens(cfg.limits.outputBytes, Strict(Widened(cfg, room), f, st, e, env), Strict(cfg, f, st, e, env))
    decreases st.steps, 2
  {
    hide Combine, Apply, EvaluateFrom, Refusal, CheckOf, Evolves, ElementError, CheckType;
    var w, es, check := Widened(cfg, room), Operands(e), CheckOf(cfg, e);
    ChecksWiden(cfg, room, f);
    if Refusal(cfg, e).Some? { return; }
    EvaluateFromWidens(cfg, room, f, st, es, [], check, env);
    EvaluateFromEvolves(w, f, st, es, [], check, env);
    var a, b := EvaluateFrom(w, f, st, es, [], check, env), EvaluateFrom(cfg, f, st, es, [], check, env);
    Grown(f, st, a.st);
    if a != b {
      if a.res.Ok? {
        AfterOperands(w, f, cfg.limits.outputBytes, a.st, e, a.res.value);
      }
      return;
    }
    if b.res.Err? { return; }
    if e.Call? {
      ApplyWidens(cfg, room, f, b.st, b.res.value[0], b.res.value[1..]);
    } else {
      CombineWidens(cfg, room, f, b.st, e, b.res.value);
    }
  }

  lemma Grown(f: Frame, a: State, b: State)
    requires Evolves(f.captured, a, b) && f.captured <= |a.bindings|
    ensures f.captured <= |b.bindings|
  {
  }

  /** What follows the operands never empties a buffer. */
  lemma AfterOperands(cfg: Config, f: Frame, limit: nat, st: State, e: Expr, values: seq<Value>)
    requires IsStrict(e) && |values| == |Operands(e)| && f.captured <= |st.bindings| && Over(limit, st.host)
    ensures Over(limit, (if e.Call? then Apply(cfg, f, st, values[0], values[1..]) else Combine(cfg, f, st, e, values)).st.host)
  {
    hide Combine, Apply, Evolves, Over;
    if e.Call? {
      ApplyEvolves(cfg, f, st, values[0], values[1..]);
      StaysOver(limit, f.captured, st, Apply(cfg, f, st, values[0], values[1..]).st);
    } else {
      CombineEvolves(cfg, f, st, e, values);
      StaysOver(limit, f.captured, st, Combine(cfg, f, st, e, values).st);
    }
  }

  lemma {:induction false} EvaluateFromWidens(
    cfg: Config, room: nat, f: Frame, st: State, es: seq<Expr>, values: seq<Value>, check: Check, env: Environment)
    requires Started(cfg, room, f, st)
    ensures Widens(cfg.limits.outputBytes, EvaluateFrom(Widened(cfg, room), f, st, es, values, check, env),
                   EvaluateFrom(cfg, f, st, es, values, check, env))
    decreases st.steps, 1
  {
    hide Evaluate, ElementError, Evolves, CheckOf, Refusal, CheckType;
    var w, limit := Widened(cfg, room), cfg.limits.outputBytes;
    if |values| >= |es| { return; }
    ChecksWiden(cfg, room, f);
    EvaluateWidens(cfg, room, f, st, es[|values|], env);
    EvaluateEvolves(w, f, st, es[|values|], env);
    var a, b := Evaluate(w, f, st, es[|values|], env), Evaluate(cfg, f, st, es[|values|], env);
    Grown(f, st, a.st);
    if a.res.Err? || ElementError(cfg, check, |values|, a.res.value).Some? { return; }
    var more := values + [a.res.value];
    if a != b {
      EvaluateFromEvolves(w, f, a.st, es, more, check, env);
      StaysOver(limit, f.captured, a.st, EvaluateFrom(w, f, a.st, es, more, check, env).st);
    } else {
      EvaluateFromWidens(cfg, room, f, b.st, es, more, check, env);
    }
  }

  lemma {:induction false} LogicalWidens(
    cfg: Config, room: nat, f: Frame, st: State, left: Expr, op: BinaryOp, right: Expr, env: Environment)
    requires Started(cfg, room, f, st)
    ensures Widens(cfg.limits.outputBytes, Logical(Widened(cfg, room), f, st, left, op, right, env),
                   Logical(cfg, f, st, left, op, right, env))
    decreases st.steps, 2
  {
    hide Evaluate, Logical, Evolves;
    var w, limit := Widened(cfg, room), cfg.limits.outputBytes;
    LogicalSteps(w, f, st, left, op, right, env);
    LogicalSteps(cfg, f, st, left, op, right, env);
    EvaluateWidens(cfg, room, f, st, left, env);
    EvaluateEvolves(w, f, st, left, env);
    var a, b := Evaluate(w, f, st, left, env), Evaluate(cfg, f, st, left, env);
    Grown(f, st, a.st);
    if a.res.Err? || !a.res.value.BooleanValue? { return; }
    if a != b {
      EvaluateEvolves(w, f, a.st, right, env);
      StaysOver(limit, f.captured, a.st, Evaluate(w, f, a.st, right, env).st);
    } else {
      EvaluateWidens(cfg, room, f, b.st, right, env);
    }
  }

  lemma {:induction false} ValueThenWriteWidens(
    cfg: Config, room: nat, f: Frame, st: State, place: Place, value: Expr, env: Environment)
    requires Started(cfg, room, f, st)
    ensures Widens(cfg.limits.outputBytes, ValueThenWrite(Widened(cfg, room), f, st, place, value, env),
                   ValueThenWrite(cfg, f, st, place, value, env))
    decreases st.steps, 1
  {
    hide Evaluate, Write;
    EvaluateWidens(cfg, room, f, st, value, env);
    var a := Evaluate(Widened(cfg, room), f, st, value, env);
    if a.res.Ok? {
      WriteWidens(cfg, room, f, a.st, place, a.res.value);
    }
  }

  lemma {:induction false} AssignWidens(cfg: Config, room: nat, f: Frame, st: State, target: Expr, value: Expr, env: Environment)
    requires Started(cfg, room, f, st)
    ensures Widens(cfg.limits.outputBytes, Assign(Widened(cfg, room), f, st, target, value, env), Assign(cfg, f, st, target, value, env))
    decreases st.steps, 2
  {
    hide Assign, Target, Evaluate, Write, Evolves, Permission, ValueThenWrite;
    var w, limit := Widened(cfg, room), cfg.limits.outputBytes;
    AssignSteps(w, f, st, target, value, env);
    AssignSteps(cfg, f, st, target, value, env);
    TargetWidens(cfg, room, f, st, target, env);
    TargetEvolves(w, f, st, target, env);
    var a, b := Target(w, f, st, target, env), Target(cfg, f, st, target, env);
    Grown(f, st, a.st);
    if a.res.Err? || Permission(f, a.st, a.res.value.id).Some? { return; }
    if a != b {
      StillOver(w, f, limit, a.st, a.res.value, value, env);
    } else {
      ValueThenWriteWidens(cfg, room, f, b.st, b.res.value, value, env);
    }
  }

  lemma StillOver(cfg: Config, f: Frame, limit: nat, st: State, place: Place, value: Expr, env: Environment)
    requires f.captured <= |st.bindings| && Over(limit, st.host)
    ensures Over(limit, ValueThenWrite(cfg, f, st, place, value, env).st.host)
  {
    hide Evaluate, Write, Evolves, Over;
    EvaluateEvolves(cfg, f, st, value, env);
    var r := Evaluate(cfg, f, st, value, env);
    StaysOver(limit, f.captured, st, r.st);
    if r.res.Ok? {
      WriteWidens(cfg, 0, f, r.st, place, r.res.value);
    }
  }

  lemma {:induction false} TargetWidens(cfg: Config, room: nat, f: Frame, st: State, e: Expr, env: Environment)
    requires Started(cfg, room, f, st)
    ensures Widens(cfg.limits.outputBytes, Target(Widened(cfg, room), f, st, e, env), Target(cfg, f, st, e, env))
    decreases st.steps, 1, e
  {
    if e.Located? {
      TargetWidens(cfg, room, f.(span := Some(e.span)), st, e.inner, env);
      return;
    }
    if st.steps == 0 || (!e.Property? && !e.Index?) { return; }
    hide Target, Evaluate, Evolves;
    var w, limit, ticked := Widened(cfg, room), cfg.limits.outputBytes, st.(steps := st.steps - 1);
    TargetSteps(w, f, st, e, env);
    TargetSteps(cfg, f, st, e, env);
    TargetWidens(cfg, room, f, ticked, e.owner, env);
    TargetEvolves(w, f, ticked, e.owner, env);
    var a, b := Target(w, f, ticked, e.owner, env), Target(cfg, f, ticked, e.owner, env);
    Grown(f, ticked, a.st);
    if a.res.Err? || e.Property? { return; }
    if a != b {
      EvaluateEvolves(w, f, a.st, e.index, env);
      StaysOver(limit, f.captured, a.st, Evaluate(w, f, a.st, e.index, env).st);
    } else {
      EvaluateWidens(cfg, room, f, b.st, e.index, env);
    }
  }

  // ----- calls -----

  lemma {:induction false} ApplyWidens(cfg: Config, room: nat, f: Frame, st: State, callee: Value, args: seq<Value>)
    requires Started(cfg, room, f, st)
    ensures Widens(cfg.limits.outputBytes, Apply(Widened(cfg, room), f, st, callee, args), Apply(cfg, f, st, callee, args))
    decreases st.steps, 8
  {
    hide BuiltinResult, Print, CallFunction, Joined;
    if callee.BuiltinValue? {
      BuiltinWidens(cfg, room, f, st, callee.builtin, args);
    } else if callee.PrintValue? {
      JoinedWidens(cfg, room, args);
      PrintWidens(cfg, room, st.host, Joined(cfg, args));
    } else if callee.FunctionValue? && callee.id < |st.functions| {
      CallWidens(cfg, room, f, st, st.functions[callee.id], args);
    }
  }

  lemma {:induction false} CallWidens(cfg: Config, room: nat, f: Frame, st: State, callee: FunctionDef, args: seq<Value>)
    requires Started(cfg, room, f, st)
    ensures Widens(cfg.limits.outputBytes, CallFunction(Widened(cfg, room), f, st, callee, args), CallFunction(cfg, f, st, callee, args))
    decreases st.steps, 7
  {
    hide BindParameters, Leave, Body, Evolves;
    BindParametersWidens(cfg, room, f, st, callee.parameters, args, 0, map[]);
    BindParametersEvolves(cfg, f, st, callee.parameters, args, 0, map[]);
    var bound := BindParameters(cfg, f, st, callee.parameters, args, 0, map[]);
    Grown(f, st, bound.st);
    if bound.res.Err? { return; }
    var env, inside := callee.closure + [bound.res.value], Enter(f, callee);
    BodyWidens(cfg, room, inside, bound.st, callee.body, env);
    var a := Body(Widened(cfg, room), inside, bound.st, callee.body, env);
    if a.res.Ok? {
      LeaveWidens(cfg, room, inside, a.st, callee, a.res.value);
    }
  }

  // ----- statements -----

  lemma {:induction false} StatementsWidens(cfg: Config, room: nat, f: Frame, st: State, stmts: seq<Stmt>, env: Environment)
    requires Started(cfg, room, f, st)
    ensures Widens(cfg.limits.outputBytes, Statements(Widened(cfg, room), f, st, stmts, env), Statements(cfg, f, st, stmts, env))
    decreases st.steps, 4
  {
    if env == [] { return; }
    ReserveWidens(cfg, room, st, stmts, env, []);
    ReserveEvolves(cfg, f.captured, st, stmts, env, [], f.captured);
    var r := Reserve(cfg, st, stmts, env, []);
    InstallWidens(cfg, room, r.st, stmts, r.slots, r.env, 0);
    InstallEvolves(cfg, f.captured, r.st, stmts, r.slots, r.env, 0);
    var installed := Install(cfg, r.st, stmts, r.slots, r.env, 0);
    SlotsForEvolves(cfg, f.captured, r.st, installed, stmts, r.slots, f.captured);
    hide Reserve, Install, ExecuteFrom, SlotsFor, Pending, DistinctSlots, KeepsSlot, HostGrows;
    ExecuteFromWidens(cfg, room, f, installed, stmts, r.slots, r.env, 0);
  }

  lemma {:induction false} RunLetWidens(cfg: Config, room: nat, f: Frame, st: State, slot: Option<nat>, value: Expr, env: Environment)
    requires Started(cfg, room, f, st)
    ensures Widens(cfg.limits.outputBytes, RunLet(Widened(cfg, room), f, st, slot, value, env), RunLet(cfg, f, st, slot, value, env))
    decreases st.steps, 1
  {
    hide Evaluate, LetResult;
    EvaluateWidens(cfg, room, f, st, value, env);
    var a := Evaluate(Widened(cfg, room), f, st, value, env);
    if a.res.Ok? {
      LetResultWidens(cfg, room, f, a.st, slot, value, a.res.value);
    }
  }

  lemma {:induction false} ExecuteFromWidens(
    cfg: Config, room: nat, f: Frame, st: State, stmts: seq<Stmt>, slots: seq<Option<nat>>, env: Environment, i: nat)
    requires Started(cfg, room, f, st) && SlotsFor(cfg, st, stmts, slots, f.captured)
    ensures Widens(cfg.limits.outputBytes, ExecuteFrom(Widened(cfg, room), f, st, stmts, slots, env, i),
                   ExecuteFrom(cfg, f, st, stmts, slots, env, i))
    decreases st.steps, 3
  {
    if i >= |stmts| || i >= |slots| || st.steps == 0 { return; }
    hide ExecuteFrom, SlotsFor, Widens, Started;
    if stmts[i].Unspanned().Let? {
      LetWidens(cfg, room, f, st, stmts, slots, env, i);
    } else {
      OtherWidens(cfg, room, f, st, stmts, slots, env, i);
    }
  }

  lemma {:induction false} LetWidens(
    cfg: Config, room: nat, f: Frame, st: State, stmts: seq<Stmt>, slots: seq<Option<nat>>, env: Environment, i: nat)
    requires Started(cfg, room, f, st) && SlotsFor(cfg, st, stmts, slots, f.captured)
    requires i < |stmts| && i < |slots| && st.steps > 0 && stmts[i].Unspanned().Let?
    ensures Widens(cfg.limits.outputBytes, ExecuteFrom(Widened(cfg, room), f, st, stmts, slots, env, i),
                   ExecuteFrom(cfg, f, st, stmts, slots, env, i))
    decreases st.steps, 2
  {
    var w, stmt := Widened(cfg, room), stmts[i].Unspanned();
    var here, ticked := f.(span := stmts[i].Where().Or(f.span)), st.(steps := st.steps - 1);
    assert SlotFor(cfg, st, stmt, slots[i], f.captured);
    hide ExecuteFrom, RunLet, SlotsFor, Evolves;
    SlotsWiden(cfg, room, st, stmts, slots, f.captured);
    ExecuteFromSteps(w, f, st, stmts, slots, env, i);
    ExecuteFromSteps(cfg, f, st, stmts, slots, env, i);
    Ticks(f.captured, st, st.steps - 1);
    RunLetWidens(cfg, room, here, ticked, slots[i], stmt.value, env);
    RunLetEvolves(w, here, ticked, slots[i], stmt.value, env);
    var a, b := RunLet(w, here, ticked, slots[i], stmt.value, env), RunLet(cfg, here, ticked, slots[i], stmt.value, env);
    Then(f.captured, st, ticked, a.st);
    if a.res.Ok? {
      RestWidens(cfg, room, f, st, a.st, b.st, stmts, slots, Bind(env, stmt.name, slots[i].GetOr(0)), i + 1, a == b);
    }
  }

  lemma {:induction false} OtherWidens(
    cfg: Config, room: nat, f: Frame, st: State, stmts: seq<Stmt>, slots: seq<Option<nat>>, env: Environment, i: nat)
    requires Started(cfg, room, f, st) && SlotsFor(cfg, st, stmts, slots, f.captured)
    requires i < |stmts| && i < |slots| && st.steps > 0 && !stmts[i].Unspanned().Let?
    ensures Widens(cfg.limits.outputBytes, ExecuteFrom(Widened(cfg, room), f, st, stmts, slots, env, i),
                   ExecuteFrom(cfg, f, st, stmts, slots, env, i))
    decreases st.steps, 2
  {
    var w, stmt := Widened(cfg, room), stmts[i].Unspanned();
    var here, ticked := f.(span := stmts[i].Where().Or(f.span)), st.(steps := st.steps - 1);
    hide ExecuteFrom, Execute, SlotsFor, Evolves;
    SlotsWiden(cfg, room, st, stmts, slots, f.captured);
    ExecuteFromSteps(w, f, st, stmts, slots, env, i);
    ExecuteFromSteps(cfg, f, st, stmts, slots, env, i);
    Ticks(f.captured, st, st.steps - 1);
    ExecuteWidens(cfg, room, here, ticked, stmt, env);
    ExecuteEvolves(w, here, ticked, stmt, env);
    var a, b := Execute(w, here, ticked, stmt, env), Execute(cfg, here, ticked, stmt, env);
    Then(f.captured, st, ticked, a.st);
    if a.res.Ok? && a.res.value.Normal? {
      RestWidens(cfg, room, f, st, a.st, b.st, stmts, slots, env, i + 1, a == b);
    }
  }

  /** The statements after the first: both runs go on alike, or the wide one goes on alone. */
  lemma {:induction false} RestWidens(
    cfg: Config, room: nat, f: Frame, st: State, a: State, b: State, stmts: seq<Stmt>, slots: seq<Option<nat>>,
    env: Environment, i: nat, alike: bool)
    requires Started(cfg, room, f, st) && Evolves(f.captured, st, a) && a.steps < st.steps
    requires SlotsFor(cfg, st, stmts, slots, f.captured) && SlotsFor(Widened(cfg, room), st, stmts, slots, f.captured)
    requires if alike then a == b && Snug(cfg.limits.outputBytes, b.host) else Over(cfg.limits.outputBytes, a.host)
    ensures var rest := ExecuteFrom(Widened(cfg, room), f, a, stmts, slots, env, i);
            if alike then Widens(cfg.limits.outputBytes, rest, ExecuteFrom(cfg, f, b, stmts, slots, env, i))
            else Over(cfg.limits.outputBytes, rest.st.host)
    decreases a.steps, 4
  {
    hide ExecuteFrom, SlotsFor, Evolves;
    var w := Widened(cfg, room);
    Grown(f, st, a);
    if alike {
      SlotsForEvolves(cfg, f.captured, st, a, stmts, slots, f.captured);
      ExecuteFromWidens(cfg, room, f, a, stmts, slots, env, i);
    } else {
      SlotsForEvolves(w, f.captured, st, a, stmts, slots, f.captured);
      ExecuteFromEvolves(w, f, a, stmts, slots, env, i);
      StaysOver(cfg.limits.outputBytes, f.captured, a, ExecuteFrom(w, f, a, stmts, slots, env, i).st);
    }
  }

  lemma {:induction false} BodyWidens(cfg: Config, room: nat, f: Frame, st: State, body: Stmt, env: Environment)
    requires Started(cfg, room, f, st)
    ensures Widens(cfg.limits.outputBytes, Body(Widened(cfg, room), f, st, body, env), Body(cfg, f, st, body, env))
    decreases st.steps, 5, body
  {
    hide Statements;
    if body.LocatedStmt? {
      BodyWidens(cfg, room, f.(span := Some(body.span)), st, body.inner, env);
    } else {
      StatementsWidens(cfg, room, f, st, Contents(body), env);
    }
  }

  lemma {:induction false} ExecuteWidens(cfg: Config, room: nat, f: Frame, st: State, s: Stmt, env: Environment)
    requires Started(cfg, room, f, st)
    ensures Widens(cfg.limits.outputBytes, Execute(Widened(cfg, room), f, st, s, env), Execute(cfg, f, st, s, env))
    decreases st.steps, 8, s
  {
    hide PlanOf, Evaluate, Resume, Body, Settle, Evolves;
    var w, limit := Widened(cfg, room), cfg.limits.outputBytes;
    if s.LocatedStmt? {
      ExecuteWidens(cfg, room, f.(span := Some(s.span)), st, s.inner, env);
    } else if s.Block? {
      BodyWidens(cfg, room, f, st, s, env + [map[]]);
    } else if HeadOf(s).None? {
      PlanWidens(cfg, room, f, s, NullValue);
    } else {
      var head := HeadOf(s).value;
      EvaluateWidens(cfg, room, f, st, head, env);
      EvaluateEvolves(w, f, st, head, env);
      var a, b := Evaluate(w, f, st, head, env), Evaluate(cfg, f, st, head, env);
      Grown(f, st, a.st);
      if a.res.Err? { return; }
      PlanWidens(cfg, room, f, s, a.res.value);
      var plan := PlanOf(cfg, f, s, a.res.value);
      if a != b {
        ResumeEvolves(w, f, a.st, s, plan, env);
        StaysOver(limit, f.captured, a.st, Resume(w, f, a.st, s, plan, env).st);
      } else {
        ResumeWidens(cfg, room, f, b.st, s, plan, env);
      }
    }
  }

  lemma {:induction false} ResumeWidens(cfg: Config, room: nat, f: Frame, st: State, s: Stmt, plan: Plan, env: Environment)
    requires Started(cfg, room, f, st)
    ensures Widens(cfg.limits.outputBytes, Resume(Widened(cfg, room), f, st, s, plan, env), Resume(cfg, f, st, s, plan, env))
    decreases st.steps, 10
  {
    hide Body, Execute, EachFrom, Batches, Evolves;
    var w, limit := Widened(cfg, room), cfg.limits.outputBytes;
    match plan
    case Run(body) => BodyWidens(cfg, room, f, st, body, env + [map[]]);
    case Repeat(body) =>
      BodyWidens(cfg, room, f, st, body, env + [map[]]);
      BodyEvolves(w, f, st, body, env + [map[]]);
      var a, b := Body(w, f, st, body, env + [map[]]), Body(cfg, f, st, body, env + [map[]]);
      Grown(f, st, a.st);
      if a.res.Err? || a.res.value.ReturnFlow? || a.res.value.BreakFlow? { return; }
      if a != b {
        ExecuteEvolves(w, f, a.st, s, env);
        StaysOver(limit, f.captured, a.st, Execute(w, f, a.st, s, env).st);
      } else {
        ExecuteWidens(cfg, room, f, b.st, s, env);
      }
    case Iterate(variable, values, body) => EachWidens(cfg, room, f, st, variable, values, 0, body, env);
    case Spread(variable, values, body) => BatchesWidens(cfg, room, f, st, Snap(st), variable, values, 0, body, env);
    case _ =>
  }

  lemma {:induction false} EachWidens(
    cfg: Config, room: nat, f: Frame, st: State, variable: string, values: seq<Value>, i: nat, body: Stmt, env: Environment)
    requires Started(cfg, room, f, st)
    ensures Widens(cfg.limits.outputBytes, EachFrom(Widened(cfg, room), f, st, variable, values, i, body, env),
                   EachFrom(cfg, f, st, variable, values, i, body, env))
    decreases st.steps, 7
  {
    if i >= |values| || st.steps == 0 { return; }
    hide Body, EachFrom, Evolves;
    var w, limit := Widened(cfg, room), cfg.limits.outputBytes;
    EachSteps(w, f, st, variable, values, i, body, env);
    EachSteps(cfg, f, st, variable, values, i, body, env);
    var entered := Allocate(st.(steps := st.steps - 1), None, Some(values[i]), true);
    var scope := env + [map[variable := |st.bindings|]];
    BodyWidens(cfg, room, f, entered, body, scope);
    BodyEvolves(w, f, entered, body, scope);
    var a, b := Body(w, f, entered, body, scope), Body(cfg, f, entered, body, scope);
    Grown(f, entered, a.st);
    if a.res.Err? || a.res.value.ReturnFlow? || a.res.value.BreakFlow? { return; }
    if a != b {
      EachEvolves(w, f, a.st, variable, values, i + 1, body, env);
      StaysOver(limit, f.captured, a.st, EachFrom(w, f, a.st, variable, values, i + 1, body, env).st);
    } else {
      EachWidens(cfg, room, f, b.st, variable, values, i + 1, body, env);
    }
  }

  // ----- nested workers -----

  lemma {:induction false} ForkWidens(cfg: Config, room: nat, f: Frame, st: State, count: nat, hosts: seq<HostState>)
    ensures ForkFrom(Widened(cfg, room), f, st, count, hosts) == ForkFrom(cfg, f, st, count, hosts)
    ensures ForkFrom(cfg, f, st, count, hosts).st.host.buffer == st.host.buffer
    decreases count - |hosts|
  {
    if |hosts| < count && st.steps > 0 {
      var (asked, reply) := Ask(cfg, st.host, Fork);
      ForkWidens(cfg, room, f, st.(steps := st.steps - 1, host := asked), count, hosts + [HostState(asked.history + [Forked], None)]);
    }
  }

  lemma {:induction false} WorkerWidens(
    cfg: Config, room: nat, f: Frame, snapshot: Snapshot, steps: nat, host: HostState, value: Value, variable: string,
    body: Stmt, env: Environment)
    requires cfg.limits.outputBytes <= room
    ensures Widens(cfg.limits.outputBytes, Worker(Widened(cfg, room), f, snapshot, steps, host, value, variable, body, env),
                   Worker(cfg, f, snapshot, steps, host, value, variable, body, env))
    decreases steps, 6
  {
    BodyWidens(cfg, room, WorkerFrame(f, snapshot), WorkerStart(snapshot, steps, host, value), body,
               env + [map[variable := |snapshot.bindings|]]);
  }

  /** A worker pays for exactly the lines it buffers. */
  lemma WorkerPays(
    cfg: Config, f: Frame, snapshot: Snapshot, steps: nat, host: HostState, value: Value, variable: string,
    body: Stmt, env: Environment)
    ensures var h := Worker(cfg, f, snapshot, steps, host, value, variable, body, env).st.host;
            h.buffer.Some? && h.buffer.value.bytes == Cost(h.buffer.value.lines)
  {
    BodyEvolves(cfg, WorkerFrame(f, snapshot), WorkerStart(snapshot, steps, host, value), body,
                env + [map[variable := |snapshot.bindings|]]);
  }

  /** A batch of one. */
  lemma OneWorker(
    cfg: Config, f: Frame, st: State, snapshot: Snapshot, variable: string, value: Value, first: nat, host: HostState,
    body: Stmt, env: Environment)
    ensures var o := Worker(cfg, f, snapshot, st.steps, host, value, variable, body, env);
            WorkersFrom(cfg, f, st, snapshot, variable, [value], first, [host], [], body, env) ==
            Finished(st.(steps := o.st.steps), [WorkerOutcome(f, o, first)])
  {
    hide Worker, WorkerOutcome;
    var o := Worker(cfg, f, snapshot, st.steps, host, value, variable, body, env);
    var outcome, after, none: seq<Outcome> := WorkerOutcome(f, o, first), st.(steps := o.st.steps), [];
    assert none + [outcome] == [outcome];
    assert WorkersFrom(cfg, f, after, snapshot, variable, [value], first, [host], [outcome], body, env) == Finished(after, [outcome]);
  }

  lemma {:induction false} PrintedWhole(cfg: Config, f: Frame, h: HostState, lines: seq<string>, i: nat)
    requires h.buffer.Some? && i <= |lines| && PrintFrom(cfg, f, h, lines, i).1.None?
    ensures PrintFrom(cfg, f, h, lines, i).0 ==
            h.(buffer := Some(Buffer(h.buffer.value.lines + lines[i..], h.buffer.value.bytes + Cost(lines[i..]))))
    decreases |lines| - i
  {
    hide Utf8Length;
    if i == |lines| {
      assert lines[i..] == [] && h.buffer.value.lines + [] == h.buffer.value.lines;
    } else {
      PrintedWhole(cfg, f, Print(cfg, h, lines[i]).0, lines, i + 1);
      assert lines[i..][1..] == lines[i + 1..] && lines[i..] == [lines[i]] + lines[i + 1..];
      assert h.buffer.value.lines + [lines[i]] + lines[i + 1..] == h.buffer.value.lines + lines[i..];
    }
  }

  /** Replaying one outcome into a buffer: whole if it fits, otherwise the output limit. */
  lemma ReplayedOne(cfg: Config, f: Frame, h: HostState, outcome: Outcome)
    requires Snug(cfg.limits.outputBytes, h)
    ensures var (next, error) := Replay(cfg, f, h, [outcome], 0, None);
            var bytes := h.buffer.value.bytes + Cost(outcome.lines);
            if bytes <= cfg.limits.outputBytes then
              next == h.(buffer := Some(Buffer(h.buffer.value.lines + outcome.lines, bytes))) && error == outcome.error
            else error.Some? && error.value.message == OutputLimit
  {
    hide PrintFrom;
    var (next, failure) := PrintFrom(cfg, f, h, outcome.lines, 0);
    assert outcome.lines[0..] == outcome.lines;
    ReplayFitsIff(cfg, f, h, outcome.lines, 0);
    assert Replay(cfg, f, next, [outcome], 1, None.Or(failure).Or(outcome.error)) == (next, failure.Or(outcome.error));
    if failure.None? {
      PrintedWhole(cfg, f, h, outcome.lines, 0);
    }
  }

  /**
   * The exact condition, for a `parallel` in a worker: the nested worker's error
   * is the one reported if and only if its lines fit what is left of the buffer.
   */
  lemma NestedBatchShows(
    cfg: Config, f: Frame, st: State, snapshot: Snapshot, variable: string, value: Value, first: nat, body: Stmt, env: Environment)
    requires Snug(cfg.limits.outputBytes, st.host) && ForkFrom(cfg, f, st, 1, []).res.Ok?
    ensures var forked := ForkFrom(cfg, f, st, 1, []);
            var o := Worker(cfg, f, snapshot, forked.st.steps, forked.res.value[0], value, variable, body, env);
            var outcome := WorkerOutcome(f, o, first);
            var b := Batch(cfg, f, st, snapshot, variable, [value], first, body, env);
            outcome.error.Some? ==>
              && b.res.Err?
              && (Roomy(cfg, st.host, Cost(outcome.lines)) ==> b.res.error == outcome.error.value)
              && (!Roomy(cfg, st.host, Cost(outcome.lines)) ==> b.res.error.message == OutputLimit)
              && (Bare(b.res.error.message) == StepLimit <==>
                    Bare(outcome.error.value.message) == StepLimit && Roomy(cfg, st.host, Cost(outcome.lines)))
  {
    hide ForkFrom, Worker, WorkerOutcome, Replay, Cost, WorkersFrom;
    ForkWidens(cfg, 0, f, st, 1, []);
    var forked := ForkFrom(cfg, f, st, 1, []);
    var host := forked.res.value[0];
    assert forked.res.value == [host];
    OneWorker(cfg, f, forked.st, snapshot, variable, value, first, host, body, env);
    var o := Worker(cfg, f, snapshot, forked.st.steps, host, value, variable, body, env);
    ReplayedOne(cfg, f, forked.st.host, WorkerOutcome(f, o, first));
  }

  /** Replaying the outcomes of two workers, one with wider buffers, into the buffer they share. */
  lemma ReplayWidens(cfg: Config, room: nat, f: Frame, h: HostState, x: Out<Flow>, y: Out<Flow>, first: nat)
    requires Snug(cfg.limits.outputBytes, h) && cfg.limits.outputBytes <= room && Widens(cfg.limits.outputBytes, x, y)
    requires x.st.host.buffer.Some? && x.st.host.buffer.value.bytes == Cost(x.st.host.buffer.value.lines)
    ensures var limit := cfg.limits.outputBytes;
            var wide := Replay(Widened(cfg, room), f, h, [WorkerOutcome(f, x, first)], 0, None);
            var narrow := Replay(cfg, f, h, [WorkerOutcome(f, y, first)], 0, None);
            || (x == y && wide == narrow && Snug(limit, narrow.0))
            || (&& narrow.1.Some? && Bare(narrow.1.value.message) == OutputLimit
                && ((wide.1.Some? && Bare(wide.1.value.message) == OutputLimit) || Over(limit, wide.0)))
  {
    hide Replay, Cost;
    ReplayedOne(Widened(cfg, room), f, h, WorkerOutcome(f, x, first));
    ReplayedOne(cfg, f, h, WorkerOutcome(f, y, first));
  }

  lemma {:induction false} BatchWidens(
    cfg: Config, room: nat, f: Frame, st: State, snapshot: Snapshot, variable: string, value: Value, first: nat,
    body: Stmt, env: Environment)
    requires Started(cfg, room, f, st)
    ensures Widens(cfg.limits.outputBytes, Batch(Widened(cfg, room), f, st, snapshot, variable, [value], first, body, env),
                   Batch(cfg, f, st, snapshot, variable, [value], first, body, env))
    decreases st.steps, 8
  {
    hide ForkFrom, Worker, WorkerOutcome, Replay, Cost, WorkersFrom;
    var w := Widened(cfg, room);
    ForkWidens(cfg, room, f, st, 1, []);
    var forked := ForkFrom(cfg, f, st, 1, []);
    if forked.res.Err? { return; }
    var host, h, steps := forked.res.value[0], forked.st.host, forked.st.steps;
    assert forked.res.value == [host];
    OneWorker(w, f, forked.st, snapshot, variable, value, first, host, body, env);
    OneWorker(cfg, f, forked.st, snapshot, variable, value, first, host, body, env);
    WorkerWidens(cfg, room, f, snapshot, steps, host, value, variable, body, env);
    WorkerPays(w, f, snapshot, steps, host, value, variable, body, env);
    var a := Worker(w, f, snapshot, steps, host, value, variable, body, env);
    var b := Worker(cfg, f, snapshot, steps, host, value, variable, body, env);
    ReplayWidens(cfg, room, f, h, a, b, first);
  }

  lemma {:induction false} BatchesWidens(
    cfg: Config, room: nat, f: Frame, st: State, snapshot: Snapshot, variable: string, values: seq<Value>, start: nat,
    body: Stmt, env: Environment)
    requires Started(cfg, room, f, st)
    ensures Widens(cfg.limits.outputBytes, Batches(Widened(cfg, room), f, st, snapshot, variable, values, start, 1, body, env),
                   Batches(cfg, f, st, snapshot, variable, values, start, 1, body, env))
    decreases st.steps, 9
  {
    hide Batch, Evolves;
    if start >= |values| { return; }
    var w, limit := Widened(cfg, room), cfg.limits.outputBytes;
    assert values[start..start + 1] == [values[start]];
    BatchWidens(cfg, room, f, st, snapshot, variable, values[start], start, body, env);
    BatchEvolves(w, f, st, snapshot, variable, [values[start]], start, body, env);
    var a := Batch(w, f, st, snapshot, variable, [values[start]], start, body, env);
    var b := Batch(cfg, f, st, snapshot, variable, [values[start]], start, body, env);
    Grown(f, st, a.st);
    if a.res.Err? { return; }
    if a != b {
      BatchesEvolves(w, f, a.st, snapshot, variable, values, start + 1, 1, body, env);
      StaysOver(limit, f.captured, a.st, Batches(w, f, a.st, snapshot, variable, values, start + 1, 1, body, env).st);
    } else {
      BatchesWidens(cfg, room, f, b.st, snapshot, variable, values, start + 1, body, env);
    }
  }

  // ----- jobs -----

  /** The job with buffers of `room` bytes, its own and those of the workers it forks. */
  function Roomier(job: Job, room: nat): Job {
    job.(cfg := Widened(job.cfg, room))
  }

  /** Whether an outcome is the output limit, below its labels. */
  predicate Overflown(o: Outcome) {
    o.error.Some? && Bare(o.error.value.message) == OutputLimit
  }

  /** With wider buffers a job does the same exactly if it then ends within the limit; otherwise it overflows. */
  lemma RoomDecides(job: Job, room: nat, n: nat)
    requires job.cfg.limits.outputBytes <= room
    ensures var wide := Report(Roomier(job, room), n);
            if !Overflown(wide) && Cost(wide.lines) <= job.cfg.limits.outputBytes then Report(job, n) == wide
            else Overflown(Report(job, n))
  {
    hide Worker, Cost;
    var wide := Roomier(job, room);
    WorkerWidens(job.cfg, room, job.frame, job.snapshot, n, job.host, job.value, job.variable, job.body, job.env);
    WorkerPays(wide.cfg, job.frame, job.snapshot, n, job.host, job.value, job.variable, job.body, job.env);
  }
}
