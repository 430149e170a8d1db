/** Whole programs with and without locations. */
module Locations {
  import opened Ast
  import opened Types
  import opened Operations
  import opened Analysis
  import opened Evaluation
  import opened Programs
  import opened Erasure
  import opened Placement
  import opened Simulation

  function EraseProgram(statements: seq<Stmt>): (bare: seq<Stmt>)
    ensures ErasedList(statements, bare)
  {
    seq(|statements|, i requires 0 <= i < |statements| => EraseStmt(statements[i]))
  }

  lemma {:induction false} DefinitionsErased(statements: seq<Stmt>, bare: seq<Stmt>)
    requires ErasedList(statements, bare)
    ensures Definitions(bare) == Definitions(statements)
  {
    if statements != [] {
      var last := |statements| - 1;
      DefinitionsErased(statements[..last], bare[..last]);
      EraseUnspannedStmt(statements[last]);
      DeclarationErased(statements[last].Unspanned());
    }
  }

  lemma DeclarationErased(s: Stmt)
    requires !s.LocatedStmt?
    ensures EraseStmt(s).TypeDecl? == s.TypeDecl? && (s.TypeDecl? ==> EraseStmt(s) == s)
    ensures EraseStmt(s).Function? == s.Function?
    ensures s.Function? ==> EraseStmt(s).name == s.name && EraseStmt(s).parameters == s.parameters
  {
    hide Erase;
  }

  lemma AnalyzeErased(statements: seq<Stmt>, bare: seq<Stmt>)
    requires ErasedList(statements, bare)
    ensures SameErrors(Analyze(statements), Analyze(bare))
  {
    hide BodyErrors, Definitions;
    DefinitionsErased(statements, bare);
    var c := TopContext(Definitions(statements));
    BodyErrorsSame(c, c, Block(statements));
    BlockErased(statements, bare);
  }

  lemma BlockErased(statements: seq<Stmt>, bare: seq<Stmt>)
    requires ErasedList(statements, bare)
    ensures EraseStmt(Block(statements)) == Block(bare)
  {
    assert EraseStmt(Block(statements)).statements == bare;
  }

  lemma {:induction false} BadMainErased(statements: seq<Stmt>, bare: seq<Stmt>, from: nat)
    requires ErasedList(statements, bare)
    ensures BadMain(bare, from) == BadMain(statements, from)
    decreases |statements| - from
  {
    hide EraseStmt;
    if from < |statements| {
      EraseUnspannedStmt(statements[from]);
      DeclarationErased(statements[from].Unspanned());
      BadMainErased(statements, bare, from + 1);
    }
  }

  lemma MainErased(cfg: Config, o: Origin, statements: seq<Stmt>, bare: seq<Stmt>, a: State, b: State)
    requires ErasedList(statements, bare) && SameState(cfg, o, a, b) && Alike(cfg, o, StartState(cfg).host, StartState(cfg).host)
    ensures MainFunction(cfg, bare, b) == MainFunction(cfg, statements, a)
  {
    hide EraseStmt, Reserve, Alike;
    ReserveSame(cfg, o, StartState(cfg), StartState(cfg), statements, bare, BuiltinEnvironment(), []);
    forall i | 0 <= i < |statements|
      ensures DeclaresMain(bare[i]) == DeclaresMain(statements[i])
    {
      EraseUnspannedStmt(statements[i]);
      DeclarationErased(statements[i].Unspanned());
    }
    assert (exists i | 0 <= i < |statements| :: DeclaresMain(statements[i])) == (exists i | 0 <= i < |bare| :: DeclaresMain(bare[i]));
  }

  /** Runs from the start with the same host. */
  const START: Origin := Origin([], [])

  lemma StartAlike(cfg: Config)
    ensures SameState(cfg, START, StartState(cfg), StartState(cfg))
    ensures Alike(cfg, START, StartState(cfg).host, StartState(cfg).host)
  {
  }

  lemma RunErased(cfg: Config, statements: seq<Stmt>, bare: seq<Stmt>)
    requires ErasedList(statements, bare)
    ensures SameOut(cfg, START, RunProgram(cfg, statements), RunProgram(cfg, bare))
  {
    hide EraseStmt, Statements, Apply, SameState, BadMain, MainFunction, Alike;
    StartAlike(cfg);
    BadMainErased(statements, bare, 0);
    if BadMain(statements, 0).Some? { return; }
    StatementsSame(cfg, START, TOP, TOP, StartState(cfg), StartState(cfg), statements, bare, BuiltinEnvironment());
    var x := Statements(cfg, TOP, StartState(cfg), statements, BuiltinEnvironment());
    var y := Statements(cfg, TOP, StartState(cfg), bare, BuiltinEnvironment());
    if x.res.Err? { return; }
    MainErased(cfg, START, statements, bare, x.st, y.st);
    var main := MainFunction(cfg, statements, x.st);
    if main.Some? {
      ApplySame(cfg, START, TOP, TOP, x.st, y.st, main.value, [], BuiltinEnvironment());
    }
  }

  /**
   * Same rejection, or the same value or error, arena, remaining steps, host
   * history and output; functions differ only in the locations of their bodies.
   */
  predicate SameExecution(a: Execution, b: Execution) {
    match a
    case Rejected(errors) => b.Rejected? && SameErrors(errors, b.errors)
    case Misconfigured(_) => b == a
    case Ran(out) =>
      && b.Ran?
      && b.out.st.bindings == out.st.bindings && b.out.st.steps == out.st.steps && b.out.st.host == out.st.host
      && ErasedFunctions(out.st.functions, b.out.st.functions)
      && SameResult(out.res, b.out.res)
  }

  /** Erasing every location preserves what analyzing and running a program means. */
  lemma ErasurePreservesMeaning(statements: seq<Stmt>, identity: nat, limits: Limits, lib: Library)
    ensures SameExecution(ExecuteProgram(statements, identity, limits, lib),
                          ExecuteProgram(EraseProgram(statements), identity, limits, lib))
  {
    hide Analyze, RunProgram, EraseStmt, Definitions, ErasedFunctions;
    var bare := EraseProgram(statements);
    AnalyzeErased(statements, bare);
    DefinitionsErased(statements, bare);
    var cfg := Config(Definitions(statements), identity, limits, lib);
    RunErased(cfg, statements, bare);
    SameHistories(cfg, RunProgram(cfg, statements).st.host, RunProgram(cfg, bare).st.host);
  }

  lemma SameHistories(cfg: Config, h: HostState, k: HostState)
    requires Alike(cfg, START, h, k)
    ensures h == k
  {
    assert h.history == h.history[0..] == k.history[0..] == k.history;
  }
}
