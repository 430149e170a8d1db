/** How a program starts and ends. */
module EntryPoint {
  import opened Wrappers
  import opened Ast
  import opened Types
  import opened Values
  import opened Evaluation
  import opened Evolution
  import opened Programs
  import opened Laws
  import opened Calling
  import Defects
  import Exactness

  /** Statement `k` is the last of the list that declares a function of this name. */
  predicate LastFunction(stmts: seq<Stmt>, name: string, k: nat) {
    k < |stmts| && Declares(stmts[k], name) && forall j | k < j < |stmts| :: !Declares(stmts[j], name)
  }

  predicate Declares(s: Stmt, name: string) {
    s.Unspanned().Function? && s.Unspanned().name == name
  }

  /** The innermost scope maps the name to the slot. */
  predicate Exposes(env: Environment, name: string, slot: nat) {
    env != [] && name in env[|env| - 1] && env[|env| - 1][name] == slot
  }

  lemma {:induction false} ReserveKeeps(
    cfg: Config, st: State, stmts: seq<Stmt>, env: Environment, slots: seq<Option<nat>>, name: string, slot: nat)
    requires Exposes(env, name, slot) && forall j | |slots| <= j < |stmts| :: !Declares(stmts[j], name)
    ensures var r := Reserve(cfg, st, stmts, env, slots); Exposes(r.env, name, slot) && slots <= r.slots
    decreases |stmts| - |slots|
  {
    if |slots| < |stmts| {
      var stmt, more := stmts[|slots|].Unspanned(), slots + [Some(|st.bindings|)];
      if stmt.Let? {
        ReserveKeeps(cfg, Allocate(st, ResolveAnnotation(cfg.types, stmt.annotation), None, true), stmts, env, more, name, slot);
      } else if stmt.Function? {
        ReserveKeeps(cfg, Allocate(st, None, None, false), stmts, Bind(env, stmt.name, |st.bindings|), more, name, slot);
      } else {
        ReserveKeeps(cfg, st, stmts, env, slots + [None], name, slot);
      }
    }
  }

  /** The name of a hoisted function denotes the slot of the last function of that name. */
  lemma {:induction false} ReserveExposes(
    cfg: Config, st: State, stmts: seq<Stmt>, env: Environment, slots: seq<Option<nat>>, name: string, k: nat)
    requires env != [] && |slots| <= k && LastFunction(stmts, name, k)
    ensures var r := Reserve(cfg, st, stmts, env, slots);
            |r.slots| == |stmts| && r.slots[k].Some? && Exposes(r.env, name, r.slots[k].value)
    decreases |stmts| - |slots|
  {
    var stmt, more := stmts[|slots|].Unspanned(), slots + [Some(|st.bindings|)];
    if |slots| == k {
      ReserveKeeps(cfg, Allocate(st, None, None, false), stmts, Bind(env, stmt.name, |st.bindings|), more, name, |st.bindings|);
    } else if stmt.Let? {
      ReserveExposes(cfg, Allocate(st, ResolveAnnotation(cfg.types, stmt.annotation), None, true), stmts, env, more, name, k);
    } else if stmt.Function? {
      ReserveExposes(cfg, Allocate(st, None, None, false), stmts, Bind(env, stmt.name, |st.bindings|), more, name, k);
    } else {
      ReserveExposes(cfg, st, stmts, env, slots + [None], name, k);
    }
  }

  /** The slot holds the handle of this declaration, closed over some environment. */
  predicate Installed(cfg: Config, st: State, s: Stmt, slot: nat, id: nat)
    requires s.Unspanned().Function?
  {
    && slot < |st.bindings| && st.bindings[slot].value == Some(FunctionValue(id)) && !st.bindings[slot].mutable
    && id < |st.functions| && st.functions[id] == Definition(cfg, s, st.functions[id].closure)
  }

  lemma InstalledStays(cfg: Config, captured: nat, a: State, b: State, s: Stmt, slot: nat, id: nat)
    requires s.Unspanned().Function? && Installed(cfg, a, s, slot, id) && Evolves(captured, a, b)
    ensures Installed(cfg, b, s, slot, id)
  {
    assert KeepsSlot(a.bindings[slot], b.bindings[slot]);
    assert a.functions[id] == b.functions[id];
  }

  lemma {:induction false} InstallPlaces(
    cfg: Config, captured: nat, st: State, stmts: seq<Stmt>, slots: seq<Option<nat>>, env: Environment, i: nat, k: nat)
    returns (id: nat)
    requires SlotsFor(cfg, st, stmts, slots, captured) && DistinctSlots(slots) && Pending(st, stmts, slots, i)
    requires i <= k < |stmts| == |slots| && stmts[k].Unspanned().Function? && slots[k].Some?
    ensures Installed(cfg, Install(cfg, st, stmts, slots, env, i), stmts[k], slots[k].value, id)
    decreases |stmts| - i
  {
    var stmt := stmts[i].Unspanned();
    if stmt.Let? {
      id := InstallPlaces(cfg, captured, st, stmts, slots, Bind(env, stmt.name, slots[i].value), i + 1, k);
    } else if stmt.Function? {
      var pushed := st.(functions := st.functions + [Definition(cfg, stmts[i], env)]);
      var stored := Store(pushed, slots[i].value, FunctionValue(|st.functions|));
      if i == k {
        id := |st.functions|;
        assert SlotFor(cfg, st, stmt, slots[i], captured);
        assert Installed(cfg, stored, stmts[k], slots[k].value, id);
        InstallEvolves(cfg, captured, stored, stmts, slots, env, i + 1);
        InstalledStays(cfg, captured, stored, Install(cfg, stored, stmts, slots, env, i + 1), stmts[k], slots[k].value, id);
      } else {
        id := InstallPlaces(cfg, captured, stored, stmts, slots, env, i + 1, k);
      }
    } else {
      id := InstallPlaces(cfg, captured, st, stmts, slots, env, i + 1, k);
    }
  }

  /** After the statements of a list have run, the name of its last function of that name still denotes that function. */
  lemma FunctionStays(cfg: Config, f: Frame, st: State, stmts: seq<Stmt>, env: Environment, name: string, k: nat) returns (slot: nat, id: nat)
    requires env != [] && f.captured <= |st.bindings| && LastFunction(stmts, name, k)
    ensures Exposes(Reserve(cfg, st, stmts, env, []).env, name, slot)
    ensures Installed(cfg, Statements(cfg, f, st, stmts, env).st, stmts[k], slot, id)
  {
    hide Evolves, Installed, SlotsFor, Pending, DistinctSlots, ExecuteFrom, Exposes;
    NoSlots(cfg, st, stmts);
    ReserveExposes(cfg, st, stmts, env, [], name, k);
    ReserveEvolves(cfg, f.captured, st, stmts, env, [], f.captured);
    var r := Reserve(cfg, st, stmts, env, []);
    slot := r.slots[k].value;
    id := InstallPlaces(cfg, f.captured, r.st, stmts, r.slots, r.env, 0, k);
    InstallEvolves(cfg, f.captured, r.st, stmts, r.slots, r.env, 0);
    var installed := Install(cfg, r.st, stmts, r.slots, r.env, 0);
    SlotsForEvolves(cfg, f.captured, r.st, installed, stmts, r.slots, f.captured);
    StillBelow(f.captured, st, r.st);
    StillBelow(f.captured, r.st, installed);
    ExecuteFromEvolves(cfg, f, installed, stmts, r.slots, r.env, 0);
    InstalledStays(cfg, f.captured, installed, ExecuteFrom(cfg, f, installed, stmts, r.slots, r.env, 0).st, stmts[k], slot, id);
  }

  lemma NoSlots(cfg: Config, st: State, stmts: seq<Stmt>)
    ensures forall base :: SlotsFor(cfg, st, stmts, [], base)
    ensures Pending(st, stmts, [], 0) && DistinctSlots([]) && AllBelow([], |st.bindings|)
  {
  }

  lemma StillBelow(captured: nat, a: State, b: State)
    requires Evolves(captured, a, b)
    ensures |a.bindings| <= |b.bindings|
  {
  }

  /**
   * When the statements have ended, the last declared top-level `main` is called
   * without arguments on what they left, and its result is the program's. A
   * program without `main` ends in null.
   */
  lemma MainIsApplied(cfg: Config, statements: seq<Stmt>, k: nat) returns (id: nat)
    requires BadMain(statements, 0).None? && LastFunction(statements, "main", k)
    requires Statements(cfg, TOP, StartState(cfg), statements, BuiltinEnvironment()).res.Ok?
    ensures var after := Statements(cfg, TOP, StartState(cfg), statements, BuiltinEnvironment()).st;
            && id < |after.functions| && after.functions[id].name == "main" && after.functions[id].parameters == []
            && after.functions[id].body == statements[k].Unspanned().body
            && RunProgram(cfg, statements) == CalledWithNothing(cfg, after, id)
  {
    hide Statements, StartState, Body, Reserve, BuiltinEnvironment;
    EnvironmentStarts();
    var slot;
    slot, id := FunctionStays(cfg, TOP, StartState(cfg), statements, BuiltinEnvironment(), "main", k);
    var after := Statements(cfg, TOP, StartState(cfg), statements, BuiltinEnvironment()).st;
    MainHasNoParameters(statements, 0, k);
    assert DeclaresMain(statements[k]);
    assert MainFunction(cfg, statements, after) == Some(FunctionValue(id));
    hide Installed, Exposes, MainFunction, Apply, CallFunction;
    AppliesToNothing(cfg, after, id);
  }

  lemma EnvironmentStarts()
    ensures BuiltinEnvironment() != []
  {
  }

  lemma {:induction false} MainHasNoParameters(statements: seq<Stmt>, from: nat, k: nat)
    requires BadMain(statements, from).None? && from <= k && LastFunction(statements, "main", k)
    ensures statements[k].Unspanned().parameters == []
    decreases k - from
  {
    if from < k {
      MainHasNoParameters(statements, from + 1, k);
    }
  }

  /** The call of a function without parameters from the top level. */
  function CalledWithNothing(cfg: Config, st: State, id: nat): Out<Value>
    requires id < |st.functions|
  {
    var fn := st.functions[id];
    if cfg.limits.callDepth == 0 then Fault(TOP, st, CallDepth)
    else
      var inside := Inside(TOP, fn);
      Returned(cfg, inside, fn, Body(cfg, inside, st, fn.body, fn.closure + [map[]]))
  }

  lemma AppliesToNothing(cfg: Config, st: State, id: nat)
    requires id < |st.functions| && st.functions[id].parameters == []
    ensures Apply(cfg, TOP, st, FunctionValue(id), []) == CalledWithNothing(cfg, st, id)
  {
    hide Body, Leave;
    var fn := st.functions[id];
    if cfg.limits.callDepth > 0 {
      FunctionApplies(cfg, TOP, st, id, []);
      assert BindParameters(cfg, TOP, st, fn.parameters, [], 0, map[]) == Out(st, Ok(map[]));
      assert Enter(TOP, fn) == Inside(TOP, fn);
      var b := Body(cfg, Inside(TOP, fn), st, fn.body, fn.closure + [map[]]);
      if b.res.Ok? {
        LeaveMeans(cfg, Inside(TOP, fn), fn, b);
      }
      hide Apply, BindParameters, Returned;
    }
  }

  lemma WithoutMain(cfg: Config, statements: seq<Stmt>)
    requires BadMain(statements, 0).None? && forall i | 0 <= i < |statements| :: !Declares(statements[i], "main")
    ensures var o := Statements(cfg, TOP, StartState(cfg), statements, BuiltinEnvironment());
            RunProgram(cfg, statements) == Out(o.st, if o.res.Ok? then Ok(NullValue) else Err(o.res.error))
  {
    hide Statements, Reserve;
    assert forall i | 0 <= i < |statements| :: DeclaresMain(statements[i]) ==> Declares(statements[i], "main");
  }

  /** The slot of a built-in name at the start, and what it holds. */
  lemma StartSlots()
    ensures |BuiltinBindings()| == 9 && BuiltinBindings()[0].value == Some(PrintValue)
    ensures forall i | 1 <= i <= 8 :: BuiltinBindings()[i].value == Some(BuiltinValue(BUILTINS[i - 1]))
    ensures BUILTINS == [BytesOf, EncodeUtf8, DecodeUtf8, ByteLen, Close, SetTimeout, Accept, LocalAddress]
    ensures |BuiltinEnvironment()| == 2 && BuiltinEnvironment()[1] == map[]
    ensures BuiltinEnvironment()[0] ==
            map["print" := 0, "bytes" := 1, "encode_utf8" := 2, "decode_utf8" := 3, "byte_len" := 4,
                "close" := 5, "set_timeout" := 6, "accept" := 7, "local_address" := 8]
  {
  }

  lemma StartReads(cfg: Config, f: Frame, name: string, slot: nat)
    requires Ready(cfg, f, StartState(cfg)) && slot < 9
    requires name in BuiltinEnvironment()[0] && BuiltinEnvironment()[0][name] == slot
    ensures Evaluate(cfg, f, StartState(cfg), Identifier(name), BuiltinEnvironment()).res ==
            Ok(if slot == 0 then PrintValue else BuiltinValue(BUILTINS[slot - 1]))
  {
    StartSlots();
    hide Evaluate, BuiltinEnvironment, BuiltinBindings;
    assert Denotes(BuiltinEnvironment(), name, 0);
    NameReads(cfg, f, StartState(cfg), name, BuiltinEnvironment(), 0);
  }

  /** At the start every built-in is known by its documented name. */
  lemma StartNames(cfg: Config, f: Frame, name: string, meaning: Value)
    requires Ready(cfg, f, StartState(cfg))
    requires (name, meaning) in {
               ("print", PrintValue), ("bytes", BuiltinValue(BytesOf)), ("encode_utf8", BuiltinValue(EncodeUtf8)),
               ("decode_utf8", BuiltinValue(DecodeUtf8)), ("byte_len", BuiltinValue(ByteLen)), ("close", BuiltinValue(Close)),
               ("set_timeout", BuiltinValue(SetTimeout)), ("accept", BuiltinValue(Accept)),
               ("local_address", BuiltinValue(LocalAddress))}
    ensures Evaluate(cfg, f, StartState(cfg), Identifier(name), BuiltinEnvironment()).res == Ok(meaning)
  {
    StartSlots();
    hide Evaluate, BuiltinEnvironment, BuiltinBindings, StartState, Ready;
    StartReads(cfg, f, name, BuiltinEnvironment()[0][name]);
  }

  /** What runs is exactly a program without defects, under a worker limit from 1 to 64; a defect stops it first. */
  lemma RunsIff(statements: seq<Stmt>, identity: nat, limits: Limits, lib: Operations.Library)
    ensures var sound := forall x :: !Defects.ProgramDefect(statements, x);
            var e := ExecuteProgram(statements, identity, limits, lib);
            && (e.Ran? <==> sound && 1 <= limits.workers <= 64)
            && (e.Rejected? <==> !sound)
            && (e.Misconfigured? ==> e.message == WorkerLimit)
  {
    hide Analysis.Analyze, Defects.ProgramDefect, RunProgram;
    Exactness.AcceptedIffSound(statements);
  }

  /** A program starts with the whole budget and a host that was asked nothing; with no statements it leaves both so. */
  lemma EmptyProgram(cfg: Config)
    ensures var o := RunProgram(cfg, []);
            o.res == Ok(NullValue) && o.st.steps == cfg.limits.steps && o.st.functions == [] && o.st.host == HostState([], None)
  {
    WithoutMain(cfg, []);
    EnvironmentStarts();
    hide BuiltinEnvironment, BuiltinBindings, RunProgram;
    assert Statements(cfg, TOP, StartState(cfg), [], BuiltinEnvironment()) == Out(StartState(cfg), Ok(Normal));
  }
}
