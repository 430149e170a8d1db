/** An accepted program whose worker is refused a step and reports the output limit. */
module StarvedProgram {
  import opened Wrappers
  import opened Ast
  import opened Types
  import opened Values
  import opened Operations
  import opened Analysis
  import opened Evaluation
  import opened Equations
  import opened Programs
  import opened Worlds
  import opened Schedule
  import opened Parallel
  import opened Witnesses

  function PrintCall(text: string): Expr {
    Call(Identifier("print"), [StringLit(text)])
  }

  const INNER: Stmt := Block([ExprStmt(PrintCall("b")), ExprStmt(IntegerLit(0))])

  const OUTER: seq<Stmt> := [ExprStmt(PrintCall("a")), Parallel("y", ArrayLit([IntegerLit(0)]), INNER)]

  const NESTED: Stmt := Parallel("x", ArrayLit([IntegerLit(0)]), Block(OUTER))

  /** `parallel x in [0] { print("a"); parallel y in [0] { print("b"); 0; } }`: the buffers hold one line each. */
  const STARVED: seq<Stmt> := [NESTED]

  lemma LiteralText(cfg: Config, f: Frame, st: State, text: string, env: Environment)
    requires st.steps > 0 && f.depth < cfg.limits.expressionDepth
    ensures Evaluate(cfg, f, st, StringLit(text), env) == Out(st.(steps := st.steps - 1), Ok(StringValue(text)))
  {
    var g, ticked := f.(depth := f.depth + 1), st.(steps := st.steps - 1);
    assert Operands(StringLit(text)) == [];
    assert EvaluateFrom(cfg, g, ticked, [], [], Unchecked, env) == Out(ticked, Ok([]));
    assert Strict(cfg, g, ticked, StringLit(text), env) == Out(ticked, Ok(StringValue(text)));
  }

  /** The name `print` denotes the printer. */
  predicate Printing(st: State, env: Environment) {
    && LookUp(env, "print") == Some(0)
    && |st.bindings| > 0 && st.bindings[0].value == Some(PrintValue)
  }

  lemma PrintOperands(f: Frame, st: State, text: string, env: Environment)
    requires st.steps >= 2 && f.depth < 8 && Printing(st, env)
    ensures EvaluateFrom(SETUP, f, st, [Identifier("print"), StringLit(text)], [], Unchecked, env) ==
            Out(st.(steps := st.steps - 2), Ok([PrintValue, StringValue(text)]))
  {
    var one, two := st.(steps := st.steps - 1), st.(steps := st.steps - 2);
    var es, values := [Identifier("print"), StringLit(text)], [PrintValue, StringValue(text)];
    assert Evaluate(SETUP, f, st, Identifier("print"), env) == Out(one, Ok(PrintValue));
    LiteralText(SETUP, f, one, text, env);
    hide Evaluate;
    assert [PrintValue] + [StringValue(text)] == values && [] + [PrintValue] == [PrintValue];
    assert EvaluateFrom(SETUP, f, two, es, values, Unchecked, env) == Out(two, Ok(values));
    assert EvaluateFrom(SETUP, f, one, es, [PrintValue], Unchecked, env) == Out(two, Ok(values));
  }

  /** `print("...")` takes three steps. */
  lemma PrintOnce(f: Frame, st: State, text: string, env: Environment)
    requires st.steps >= 3 && f.depth + 1 < 8 && Printing(st, env)
    requires Print(SETUP, st.host, text).1.None?
    ensures Evaluate(SETUP, f, st, PrintCall(text), env) ==
            Out(st.(steps := st.steps - 3, host := Print(SETUP, st.host, text).0), Ok(NullValue))
  {
    hide Print, Evaluate, EvaluateFrom, Apply;
    var g, three := f.(depth := f.depth + 1), st.(steps := st.steps - 3);
    CallSteps(SETUP, f, st, Identifier("print"), [StringLit(text)], env);
    assert [Identifier("print")] + [StringLit(text)] == [Identifier("print"), StringLit(text)];
    PrintOperands(g, st.(steps := st.steps - 1), text, env);
    assert [PrintValue, StringValue(text)][1..] == [StringValue(text)];
    ApplyPrint(g, three, text);
  }

  lemma ApplyPrint(f: Frame, st: State, text: string)
    requires Print(SETUP, st.host, text).1.None?
    ensures Apply(SETUP, f, st, PrintValue, [StringValue(text)]) == Out(st.(host := Print(SETUP, st.host, text).0), Ok(NullValue))
  {
    hide Print;
    assert Joined(SETUP, [StringValue(text)]) == text;
  }

  /** A body of two statements that declare nothing. */
  lemma TwoStatements(cfg: Config, f: Frame, st: State, a: Stmt, b: Stmt, env: Environment)
    requires st.steps > 0 && env != []
    requires forall s | s in [a, b] :: !s.LocatedStmt? && !s.Let? && !s.Function?
    ensures var o := Execute(cfg, f, st.(steps := st.steps - 1), a, env);
            Body(cfg, f, st, Block([a, b]), env) ==
            if o.res.Ok? && o.res.value.Normal? then ExecuteFrom(cfg, f, o.st, [a, b], [None, None], env, 1) else o
  {
    var stmts := [a, b];
    var none: seq<Option<nat>>, no: Option<nat> := [], None;
    assert a in stmts && b in stmts;
    assert none + [no] == [no] && [no] + [no] == [no, no];
    assert Reserve(cfg, st, stmts, env, [None, None]) == Reserved(st, env, [None, None]);
    assert Reserve(cfg, st, stmts, env, [None]) == Reserved(st, env, [None, None]);
    assert Reserve(cfg, st, stmts, env, none) == Reserved(st, env, [None, None]);
    assert Install(cfg, st, stmts, [None, None], env, 1) == st;
    assert Install(cfg, st, stmts, [None, None], env, 0) == st;
    assert f.(span := None.Or(f.span)) == f;
    hide Execute, ExecuteFrom, Reserve, Install;
    ExecuteFromSteps(cfg, f, st, stmts, [None, None], env, 0);
  }

  /** A statement `print("...")` in a worker with room for the line takes four steps. */
  lemma PrintStatement(f: Frame, st: State, text: string, env: Environment)
    requires st.steps >= 3 && f.depth + 1 < 8 && Printing(st, env) && Print(SETUP, st.host, text).1.None?
    ensures Execute(SETUP, f, st, ExprStmt(PrintCall(text)), env) ==
            Out(st.(steps := st.steps - 3, host := Print(SETUP, st.host, text).0), Ok(Normal))
  {
    hide Evaluate, Print, Execute;
    PrintOnce(f, st, text, env);
    ExecuteSteps(SETUP, f, st, ExprStmt(PrintCall(text)), env);
  }

  lemma StillVisible(env: Environment, name: string, id: nat)
    requires LookUp(env, "print") == Some(0) && name != "print"
    ensures LookUp(env + [map[name := id]], "print") == Some(0)
  {
    assert (env + [map[name := id]])[..|env|] == env;
  }

  /** Into an empty buffer of two bytes, one letter fits. */
  lemma OneLetterFits(h: HostState, text: string)
    requires h.buffer == Some(Buffer([], 0)) && (text == "a" || text == "b")
    ensures Print(SETUP, h, text) == (h.(buffer := Some(Buffer([text], 2))), None)
  {
    assert text[1..] == [] && Utf8Length(text) == 1;
    var zero: seq<string> := [];
    assert zero + [text] == [text];
  }

  /** The inner worker prints its line, then runs out of steps. */
  lemma InnerStarves(f: Frame, snapshot: Snapshot, n: nat, host: HostState, names: Environment)
    requires 4 <= n <= 5 && |snapshot.bindings| > 0 && snapshot.bindings[0].value == Some(PrintValue)
    requires LookUp(names, "print") == Some(0)
    ensures var o := Worker(SETUP, f, snapshot, n, host, IntegerValue(0), "y", INNER, names);
            && o.res.Err? && o.res.error.message == StepLimit && o.st.steps == 0
            && o.st.host.buffer == Some(Buffer(["b"], 2))
  {
    hide Evaluate, Print, Execute, ExecuteFrom, Body, LookUp;
    var env := names + [map["y" := |snapshot.bindings|]];
    var st, g := WorkerStart(snapshot, n, host, IntegerValue(0)), WorkerFrame(f, snapshot);
    StillVisible(names, "y", |snapshot.bindings|);
    OneLetterFits(st.host, "b");
    PrintStatement(g, st.(steps := n - 1), "b", env);
    TwoStatements(SETUP, g, st, ExprStmt(PrintCall("b")), ExprStmt(IntegerLit(0)), env);
    LastStarves(g, st.(steps := n - 4, host := host.(buffer := Some(Buffer(["b"], 2)))), INNER.statements, env);
  }

  /** No step for the second statement, or none for its expression. */
  lemma LastStarves(f: Frame, st: State, stmts: seq<Stmt>, env: Environment)
    requires st.steps <= 1 && |stmts| == 2 && stmts[1] == ExprStmt(IntegerLit(0))
    ensures var o := ExecuteFrom(SETUP, f, st, stmts, [None, None], env, 1);
            o.res.Err? && o.res.error.message == StepLimit && o.st == st.(steps := 0)
  {
    if st.steps == 1 {
      hide ExecuteFrom, Execute;
      ExecuteFromSteps(SETUP, f, st, stmts, [None, None], env, 1);
      ExecuteSteps(SETUP, f.(span := stmts[1].Where().Or(f.span)), st.(steps := 0), stmts[1], env);
    }
  }

  /** The buffer of the outer worker, which its own line has filled. */
  const FULL: Option<Buffer> := Some(Buffer(["a"], 2))

  lemma InnerStarvationIsHidden(f: Frame, st: State, names: Environment)
    requires 5 <= st.steps <= 6 && st.host.buffer == FULL && f.inWorker && Printing(st, names)
    ensures var o := Batches(SETUP, f, st, Snap(st), "y", [IntegerValue(0)], 0, Width(SETUP, f), INNER, names);
            o.res.Err? && o.res.error.message == OutputLimit && o.st.steps == 0
  {
    hide Worker, Batches, Replay, Utf8Length, LookUp;
    var asked := st.host.(history := st.host.history + [Fork]);
    var host := HostState(asked.history + [Forked], None);
    InnerStarves(f, Snap(st), st.steps - 1, host, names);
    var o := Worker(SETUP, f, Snap(st), st.steps - 1, host, IntegerValue(0), "y", INNER, names);
    StarvationHidden(SETUP, f, asked, WorkerOutcome(f, o, 0));
    OneFork(SETUP, f, st, "y", INNER, names);
  }

  lemma OuterFails(f: Frame, st: State, names: Environment)
    requires 8 <= st.steps <= 9 && st.host.buffer == FULL && f.inWorker && f.depth == 0 && Printing(st, names)
    ensures var o := ExecuteFrom(SETUP, f, st, OUTER, [None, None], names, 1);
            o.res.Err? && o.res.error.message == OutputLimit && o.st.steps == 0
  {
    hide Evaluate, Execute, ExecuteFrom, Batches, LookUp;
    assert f.(span := None.Or(f.span)) == f;
    OneElement(SETUP, f, st.(steps := st.steps - 1), names);
    InnerStarvationIsHidden(f, st.(steps := st.steps - 3), names);
    ExecuteSteps(SETUP, f, st.(steps := st.steps - 1), OUTER[1], names);
    ExecuteFromSteps(SETUP, f, st, OUTER, [None, None], names, 1);
  }

  /** What the statement hands to its only worker. */
  function NestedJob(host: HostState): Job {
    Job(SETUP, TOP, Snap(StartState(SETUP)), host, IntegerValue(0), "x", Block(OUTER), BuiltinEnvironment(), 0)
  }

  lemma OuterStarves(n: nat, host: HostState)
    requires 12 <= n <= 13
    ensures var o := Alone(NestedJob(host), n);
            o.res.Err? && o.res.error.message == OutputLimit && o.st.steps == 0
  {
    hide Evaluate, Print, Execute, ExecuteFrom, Body, LookUp, BuiltinEnvironment;
    var snapshot, names := Snap(StartState(SETUP)), BuiltinEnvironment() + [map["x" := 9]];
    var st, g := WorkerStart(snapshot, n, host, IntegerValue(0)), WorkerFrame(TOP, snapshot);
    PrintIsBuiltin();
    StillVisible(BuiltinEnvironment(), "x", 9);
    OneLetterFits(st.host, "a");
    PrintStatement(g, st.(steps := n - 1), "a", names);
    TwoStatements(SETUP, g, st, OUTER[0], OUTER[1], names);
    OuterFails(g, st.(steps := n - 4, host := host.(buffer := FULL)), names);
  }

  lemma PrintIsBuiltin()
    ensures LookUp(BuiltinEnvironment(), "print") == Some(0)
    ensures |BuiltinBindings()| == 9 && BuiltinBindings()[0].value == Some(PrintValue)
  {
    var env := BuiltinEnvironment();
    assert LookUp(env[..1], "print") == Some(0);
  }

  /** With twelve steps the job asks for a thirteenth, is refused, and reports the output limit. */
  lemma RefusedJobReportsTheOutputLimit(host: HostState)
    ensures var job := NestedJob(host);
            var m := Interleave([job], 12, Asking(0, 12) + [0]);
            && m.remaining == 0 && m.refused == [true] && m.granted == [12]
            && Reports([job], m)[0].error.Some?
            && Reports([job], m)[0].error.value.message == Iteration(1, OutputLimit)
  {
    hide Alone;
    var job := NestedJob(host);
    OuterStarves(12, host);
    OuterStarves(13, host);
    forall x: nat | x < 12
      ensures Wants(job, x)
    {
      UsedSteps(job, 12, x);
    }
    AskingGrants([job], 12, [], 0, 12);
    var schedule := Asking(0, 12) + [0];
    assert [] + Asking(0, 12) == Asking(0, 12);
    assert schedule[..12] == Asking(0, 12) && schedule[12] == 0;
    assert Interleave([job], 12, Asking(0, 12)).granted == [12];
  }

  // ----- the analyzer accepts it -----

  lemma PrintIsClean(c: Context, text: string)
    requires LookUpSymbol(c.scopes, "print") == Some(BuiltinSymbol)
    ensures StatementErrors(c, ExprStmt(PrintCall(text))) == []
  {
    var e := PrintCall(text);
    assert Operands(e) == [Identifier("print"), StringLit(text)];
    assert ExpressionErrors(c, StringLit(text)) == [] by {
      assert OperandErrors(c, StringLit(text), 0, 0) == [];
    }
    assert OperandErrors(c, e, 0, 1) == OperandErrors(c, e, 0, 0) + ExpressionErrors(c, Identifier("print")) == [];
    assert OperandErrors(c, e, 1, 2) == OperandErrors(c, e, 1, 1) + ExpressionErrors(c, StringLit(text)) == [];
    assert ArityErrors(c, e) == [];
    assert ArgumentErrors(c, e, 1) == ArgumentErrors(c, e, 0) == [];
  }

  /** Two statements that declare nothing. */
  lemma TwoAreClean(c: Context, a: Stmt, b: Stmt)
    requires forall s | s in [a, b] :: (s.ExprStmt? || s.Parallel?) && TypeNames(s) == {} && StatementErrors(c, s) == []
    ensures BodyErrors(c, Block([a, b])) == []
  {
    hide StatementErrors;
    var stmts := [a, b];
    var body := Block(stmts);
    assert a in stmts && b in stmts;
    assert c.declared + {} == c.declared;
    assert AfterStatement(c, a) == c;
    assert Hoist(c, stmts, 1) == Hoist(c, stmts, 0) == c && Hoist(c, stmts, 2) == c;
    assert HoistErrors(c, stmts, 1) == HoistErrors(c, stmts, 0) + [] == [];
    assert HoistErrors(c, stmts, 2) == HoistErrors(c, stmts, 1) + [] == [];
    assert ContextAt(c, stmts, 0) == c && ContextAt(c, stmts, 1) == c;
    assert SequenceErrors(c, body, 0) == [];
    assert SequenceErrors(c, body, 1) == SequenceErrors(c, body, 0) + StatementErrors(c, a) == [];
    assert SequenceErrors(c, body, 2) == SequenceErrors(c, body, 1) + StatementErrors(c, b) == [];
  }

  lemma OverOneIsClean(c: Context, variable: string, body: Stmt)
    requires BodyErrors(IterationContext(c, Parallel(variable, ArrayLit([IntegerLit(0)]), body)), body) == []
    ensures StatementErrors(c, Parallel(variable, ArrayLit([IntegerLit(0)]), body)) == []
  {
    hide BodyErrors, IterationContext;
    var e := ArrayLit([IntegerLit(0)]);
    assert Operands(e) == [IntegerLit(0)];
    assert OperandErrors(c, e, 0, 1) == OperandErrors(c, e, 0, 0) + ExpressionErrors(c, IntegerLit(0)) == [];
  }

  lemma PrintStaysVisible(c: Context, s: Stmt)
    requires s.Parallel? && s.variable != "print" && LookUpSymbol(c.scopes, "print") == Some(BuiltinSymbol)
    ensures LookUpSymbol(IterationContext(c, s).scopes, "print") == Some(BuiltinSymbol)
  {
    var inside := IterationContext(c, s).scopes;
    assert inside == c.scopes + [map[s.variable := LoopSymbol]];
    assert inside[..|c.scopes|] == c.scopes;
  }

  lemma NamesNoType(stmts: seq<Stmt>)
    requires |stmts| == 2 && TypeNames(stmts[0]) == {} && TypeNames(stmts[1]) == {}
    ensures TypeNames(Block(stmts)) == {}
  {
    var body := Block(stmts);
    assert TypeNames(body) == BlockTypeNames(body, 2);
    hide TypeNames;
    assert BlockTypeNames(body, 1) == BlockTypeNames(body, 0) + TypeNames(stmts[0]);
    assert BlockTypeNames(body, 2) == BlockTypeNames(body, 1) + TypeNames(stmts[1]);
  }

  lemma InnerIsClean(c: Context)
    requires LookUpSymbol(c.scopes, "print") == Some(BuiltinSymbol)
    ensures StatementErrors(c, OUTER[1]) == [] && TypeNames(OUTER[1]) == {}
  {
    hide ExpressionErrors, IterationContext, BodyErrors, StatementErrors;
    var inside := IterationContext(c, OUTER[1]);
    PrintStaysVisible(c, OUTER[1]);
    PrintIsClean(inside, "b");
    ZeroIsClean(inside);
    assert INNER.statements == [ExprStmt(PrintCall("b")), ExprStmt(IntegerLit(0))];
    TwoAreClean(inside, ExprStmt(PrintCall("b")), ExprStmt(IntegerLit(0)));
    OverOneIsClean(c, "y", INNER);
    NamesNoType(INNER.statements);
  }

  lemma ZeroIsClean(c: Context)
    ensures StatementErrors(c, ExprStmt(IntegerLit(0))) == []
  {
  }

  lemma StarvedIsAccepted()
    ensures Analyze(STARVED) == [] && Definitions(STARVED) == []
  {
    hide ExpressionErrors, IterationContext, BodyErrors, StatementErrors, TypeNames;
    assert STARVED[..0] == [];
    assert Definitions(STARVED) == Definitions(STARVED[..0]) == [];
    assert LookUpSymbol(TOP_LEVEL.scopes, "print") == Some(BuiltinSymbol) by {
      assert LookUpDepth(TOP_LEVEL.scopes[..1], "print") == Some((0, BuiltinSymbol));
    }
    var inside := IterationContext(TOP_LEVEL, NESTED);
    PrintStaysVisible(TOP_LEVEL, NESTED);
    PrintIsClean(inside, "a");
    InnerIsClean(inside);
    NoTypeInPrint();
    assert OUTER == [OUTER[0], OUTER[1]];
    TwoAreClean(inside, OUTER[0], OUTER[1]);
    OverOneIsClean(TOP_LEVEL, "x", Block(OUTER));
    OneStatement(TOP_LEVEL, NESTED);
  }

  lemma NoTypeInPrint()
    ensures TypeNames(OUTER[0]) == {}
  {
  }

  // ----- its run -----

  lemma StarvedStarts()
    ensures Statements(SETUP, TOP, StartState(SETUP), STARVED, BuiltinEnvironment()) ==
            ExecuteFrom(SETUP, TOP, StartState(SETUP), STARVED, [None], BuiltinEnvironment(), 0)
  {
    hide ExecuteFrom;
    var st, env := StartState(SETUP), BuiltinEnvironment();
    var none: seq<Option<nat>>, no: Option<nat> := [], None;
    assert none + [no] == [no];
    assert Reserve(SETUP, st, STARVED, env, [None]) == Reserved(st, env, [None]);
    assert Reserve(SETUP, st, STARVED, env, none) == Reserved(st, env, [None]);
    assert Install(SETUP, st, STARVED, [None], env, 1) == st;
    assert Install(SETUP, st, STARVED, [None], env, 0) == st;
  }

  /** The host the first fork of a program gives its worker. */
  const FIRST: HostState := HostState([Fork, Forked], None)

  lemma StatementStarves()
    ensures var st := StartState(SETUP).(steps := 13);
            var o := Batches(SETUP, TOP, st, Snap(st), "x", [IntegerValue(0)], 0, Width(SETUP, TOP), Block(OUTER), BuiltinEnvironment());
            var e := Schedule.Report(NestedJob(FIRST), 12).error;
            && e.Some? && e.value.message == Iteration(1, OutputLimit)
            && o.res == Err(e.value) && o.st.steps == 0
  {
    hide Worker, Batches, Replay, BuiltinEnvironment, BuiltinBindings;
    var st := StartState(SETUP).(steps := 13);
    var empty: seq<HostCall> := [];
    assert empty + [Fork] == [Fork] && [Fork] + [Forked] == [Fork, Forked];
    OuterStarves(12, FIRST);
    var o := Alone(NestedJob(FIRST), 12);
    ReplayOne(SETUP, TOP, HostState([Fork], None), WorkerOutcome(TOP, o, 0));
    OneFork(SETUP, TOP, st, "x", Block(OUTER), BuiltinEnvironment());
  }

  lemma StarvedEnds()
    ensures var o := ExecuteFrom(SETUP, TOP, StartState(SETUP), STARVED, [None], BuiltinEnvironment(), 0);
            var e := Schedule.Report(NestedJob(FIRST), 12).error;
            e.Some? && o.res == Err(e.value) && o.st.steps == 0
  {
    hide Evaluate, ExecuteFrom, Batches, Schedule.Report, BuiltinEnvironment, BuiltinBindings;
    var st, env := StartState(SETUP), BuiltinEnvironment();
    assert TOP.(span := None.Or(TOP.span)) == TOP;
    StatementStarves();
    OneElement(SETUP, TOP, st.(steps := 15), env);
    ExecuteSteps(SETUP, TOP, st.(steps := 15), NESTED, env);
    ExecuteFromSteps(SETUP, TOP, st, STARVED, [None], env, 0);
  }

  /** An accepted program that runs out of steps, and whose error is the output limit its refused worker reports. */
  lemma AcceptedProgramHidesTheStepLimit()
    ensures HostOk(SETUP) && ExecuteProgram(STARVED, 0, LIMITS, PLAIN) == Ran(RunProgram(SETUP, STARVED))
    ensures var job, o := NestedJob(FIRST), RunProgram(SETUP, STARVED);
            var m := Interleave([job], 12, Asking(0, 12) + [0]);
            && m.refused == [true] && Reports([job], m)[0].error.Some?
            && o.res == Err(Reports([job], m)[0].error.value) && o.st.steps == 0
            && o.res.error.message == Iteration(1, OutputLimit)
  {
    hide ExecuteFrom, Statements, Analyze, MainFunction, HostOk, Definitions, Schedule.Report;
    StarvedIsAccepted();
    PlainIsOk();
    StarvedStarts();
    StarvedEnds();
    RefusedJobReportsTheOutputLimit(FIRST);
    assert BadMain(STARVED, 1).None?;
  }
}
