/** Running a whole program with the analyzer and the interpreter (src/interpreter/mod.rs). */
module Execution {
  import opened Wrappers
  import opened Ast
  import opened Types
  import opened Values
  import opened Operations
  import opened Analysis
  import opened Evaluation
  import opened Programs
  import opened SemanticPass
  import opened Interpretation

  /** The first top-level `main` that takes parameters, before anything runs. */
  method FindBadMain(statements: seq<Stmt>) returns (bad: Option<nat>)
    ensures bad == BadMain(statements, 0)
  {
    for i := 0 to |statements|
      invariant BadMain(statements, 0) == BadMain(statements, i)
    {
      var s := statements[i].Unspanned();
      if s.Function? && s.name == "main" && s.parameters != [] {
        return Some(i);
      }
    }
    return None;
  }

  /** Nothing runs unless the analyzer accepts the program and the worker limit is in range. */
  method Execute(statements: seq<Stmt>, identity: nat, limits: Limits, lib: Library) returns (e: Execution)
    ensures e == ExecuteProgram(statements, identity, limits, lib)
  {
    hide Analyze, Definitions, BadMain, Statements, Apply, MainFunction, BuiltinEnvironment;
    var errors := AnalyzeProgram(statements);
    if errors != [] {
      return Rejected(errors);
    }
    if !(1 <= limits.workers <= 64) {
      return Misconfigured(WorkerLimit);
    }
    var types := NewRegistry(statements);
    var cfg := Config(types, identity, limits, lib);
    var interpreter := new Interpreter(cfg, StartState(cfg), TOP);
    var bad := FindBadMain(statements);
    if bad.Some? {
      interpreter.currentSpan := statements[bad.value].Where();
      var error := interpreter.Failure(EntryPointParameters);
      return Ran(Out(StartState(cfg), Err(error)));
    }
    var flow := interpreter.RunStatements(statements, BuiltinEnvironment());
    var after := State(interpreter.bindings, interpreter.functions, interpreter.remainingSteps, interpreter.host);
    if flow.Err? {
      return Ran(Out(after, Err(flow.error)));
    }
    var main := MainFunction(cfg, statements, after);
    if main.None? {
      return Ran(Out(after, Ok(NullValue)));
    }
    var result := interpreter.Invoke(main.value, []);
    after := State(interpreter.bindings, interpreter.functions, interpreter.remainingSteps, interpreter.host);
    return Ran(Out(after, result));
  }
}
