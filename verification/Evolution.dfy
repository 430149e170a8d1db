/**
 * What no run ever undoes: arenas only grow, slots keep annotation and
 * mutability, and nothing below a worker's capture boundary is written.
 */
module Evolution {
  import opened Wrappers
  import opened Ast
  import opened Types
  import opened Values
  import opened Operations
  import opened Evaluation

  ghost predicate KeepsSlot(a: Binding, b: Binding) {
    && a.annotation == b.annotation
    && a.mutable == b.mutable
    && (a.value.Some? ==> b.value.Some?)
    && (a.value.Some? && !a.mutable ==> b.value == a.value)
  }

  /** What lines cost in a worker's buffer. */
  function Cost(lines: seq<string>): nat {
    if lines == [] then 0 else Utf8Length(lines[0]) + 1 + Cost(lines[1..])
  }

  lemma {:induction false} CostAdds(a: seq<string>, b: seq<string>)
    ensures Cost(a + b) == Cost(a) + Cost(b)
  {
    if a == [] {
      assert a + b == b;
    } else {
      CostAdds(a[1..], b);
      assert (a + b)[1..] == a[1..] + b;
    }
  }

  /** Lines are added to a buffer and paid for; none is taken back. */
  ghost predicate BufferGrows(a: Buffer, b: Buffer) {
    && a.lines <= b.lines
    && a.bytes <= b.bytes
    && b.bytes - Cost(b.lines) == a.bytes - Cost(a.lines)
  }

  ghost predicate HostGrows(a: HostState, b: HostState) {
    && a.history <= b.history
    && (a.buffer.Some? <==> b.buffer.Some?)
    && (a.buffer.Some? ==> BufferGrows(a.buffer.value, b.buffer.value))
  }

  ghost predicate Evolves(captured: nat, a: State, b: State) {
    && b.steps <= a.steps
    && |a.bindings| <= |b.bindings|
    && a.functions <= b.functions
    && HostGrows(a.host, b.host)
    && (forall i | 0 <= i < |a.bindings| :: KeepsSlot(a.bindings[i], b.bindings[i]))
    && (forall i | 0 <= i < captured && i < |a.bindings| :: b.bindings[i] == a.bindings[i])
  }

  lemma Then(captured: nat, a: State, b: State, c: State)
    requires Evolves(captured, a, b) && Evolves(captured, b, c)
    ensures Evolves(captured, a, c)
  {
  }

  lemma Ticks(captured: nat, st: State, steps: nat)
    requires steps <= st.steps
    ensures Evolves(captured, st, st.(steps := steps))
  {
  }

  lemma Hosted(captured: nat, st: State, host: HostState)
    requires HostGrows(st.host, host)
    ensures Evolves(captured, st, st.(host := host))
  {
  }

  lemma Replayed(captured: nat, st: State, steps: nat, host: HostState)
    requires steps <= st.steps && HostGrows(st.host, host)
    ensures Evolves(captured, st, st.(steps := steps, host := host))
  {
  }

  lemma Allocated(captured: nat, st: State, annotation: Option<ResolvedType>, value: Option<Value>, mutable: bool)
    ensures Evolves(captured, st, Allocate(st, annotation, value, mutable))
  {
  }

  lemma Stored(captured: nat, st: State, id: nat, v: Value)
    requires captured <= id < |st.bindings| && (st.bindings[id].mutable || st.bindings[id].value.None?)
    ensures Evolves(captured, st, Store(st, id, v))
  {
  }

  // ----- pieces that are not recursive through evaluation -----

  lemma CombineEvolves(cfg: Config, f: Frame, st: State, e: Expr, values: seq<Value>)
    requires IsStrict(e) && |values| == |Operands(e)|
    ensures Evolves(f.captured, st, Combine(cfg, f, st, e, values).st)
  {
  }

  lemma BuiltinEvolves(cfg: Config, f: Frame, st: State, b: Builtin, args: seq<Value>)
    ensures Evolves(f.captured, st, BuiltinResult(cfg, f, st, b, args).st)
  {
  }

  lemma PrintGrows(cfg: Config, h: HostState, text: string)
    ensures HostGrows(h, Print(cfg, h, text).0)
  {
    if h.buffer.Some? {
      CostAdds(h.buffer.value.lines, [text]);
      assert [text][1..] == [];
    }
  }

  lemma WriteEvolves(cfg: Config, f: Frame, st: State, place: Place, v: Value)
    requires f.captured <= place.id && (place.id < |st.bindings| ==> st.bindings[place.id].mutable)
    ensures Evolves(f.captured, st, Write(cfg, f, st, place, v).st)
  {
    if place.id < |st.bindings| {
      var written := Write(cfg, f, st, place, v).st;
      if written != st {
        var stored := if written.bindings[place.id].value.Some? then written.bindings[place.id].value.value else v;
        Stored(f.captured, st, place.id, stored);
      }
    }
  }

  lemma WriteAfter(cfg: Config, f: Frame, a: State, b: State, place: Place, v: Value)
    requires Evolves(f.captured, a, b) && Permission(f, a, place.id).None?
    ensures Evolves(f.captured, a, Write(cfg, f, b, place, v).st)
  {
    assert KeepsSlot(a.bindings[place.id], b.bindings[place.id]);
    WriteEvolves(cfg, f, b, place, v);
    Then(f.captured, a, b, Write(cfg, f, b, place, v).st);
  }

  lemma {:induction false} BindParametersEvolves(
    cfg: Config, f: Frame, st: State, parameters: seq<Parameter>, args: seq<Value>, i: nat, scope: map<string, nat>)
    ensures Evolves(f.captured, st, BindParameters(cfg, f, st, parameters, args, i, scope).st)
    decreases |parameters| - i
  {
    if i < |parameters| && i < |args| {
      var annotation := ResolveAnnotation(cfg.types, parameters[i].annotation);
      var next := Allocate(st, annotation, Some(args[i]), true);
      BindParametersEvolves(cfg, f, next, parameters, args, i + 1, scope[parameters[i].name := |st.bindings|]);
    }
  }

  /** Slots reserved for a statement list lie above `base` and belong to their statements. */
  ghost predicate SlotsFor(cfg: Config, st: State, stmts: seq<Stmt>, slots: seq<Option<nat>>, base: nat) {
    && |slots| <= |stmts|
    && forall i | 0 <= i < |slots| :: SlotFor(cfg, st, stmts[i].Unspanned(), slots[i], base)
  }

  ghost predicate SlotFor(cfg: Config, st: State, stmt: Stmt, slot: Option<nat>, base: nat) {
    && (slot.Some? <==> stmt.Let? || stmt.Function?)
    && (slot.Some? ==>
          && base <= slot.value < |st.bindings|
          && st.bindings[slot.value].mutable == stmt.Let?
          && st.bindings[slot.value].annotation == (if stmt.Let? then ResolveAnnotation(cfg.types, stmt.annotation) else None))
  }

  lemma SlotsForEvolves(cfg: Config, captured: nat, a: State, b: State, stmts: seq<Stmt>, slots: seq<Option<nat>>, base: nat)
    requires SlotsFor(cfg, a, stmts, slots, base) && Evolves(captured, a, b)
    ensures SlotsFor(cfg, b, stmts, slots, base)
  {
  }

  /** A reserved function slot has no value until its function is installed. */
  ghost predicate Pending(st: State, stmts: seq<Stmt>, slots: seq<Option<nat>>, from: nat) {
    forall i | from <= i < |slots| && i < |stmts| && slots[i].Some? && stmts[i].Unspanned().Function? ::
      slots[i].value < |st.bindings| && st.bindings[slots[i].value].value.None?
  }

  ghost predicate DistinctSlots(slots: seq<Option<nat>>) {
    forall i, j | 0 <= i < j < |slots| && slots[i].Some? && slots[j].Some? :: slots[i].value < slots[j].value
  }

  ghost predicate AllBelow(slots: seq<Option<nat>>, bound: nat) {
    forall i | 0 <= i < |slots| && slots[i].Some? :: slots[i].value < bound
  }

  lemma ReserveOne(
    cfg: Config, captured: nat, st: State, next: State, stmts: seq<Stmt>, slots: seq<Option<nat>>, base: nat)
    requires SlotsFor(cfg, st, stmts, slots, base) && base <= |st.bindings| && |slots| < |stmts|
    requires Pending(st, stmts, slots, 0) && DistinctSlots(slots) && AllBelow(slots, |st.bindings|)
    requires var stmt := stmts[|slots|].Unspanned();
             if stmt.Let? then next == Allocate(st, ResolveAnnotation(cfg.types, stmt.annotation), None, true)
             else stmt.Function? && next == Allocate(st, None, None, false)
    ensures var more := slots + [Some(|st.bindings|)];
            && Evolves(captured, st, next)
            && SlotsFor(cfg, next, stmts, more, base) && Pending(next, stmts, more, 0)
            && DistinctSlots(more) && AllBelow(more, |next.bindings|)
  {
  }

  lemma {:induction false} ReserveEvolves(
    cfg: Config, captured: nat, st: State, stmts: seq<Stmt>, env: Environment, slots: seq<Option<nat>>, base: nat)
    requires SlotsFor(cfg, st, stmts, slots, base) && base <= |st.bindings|
    requires Pending(st, stmts, slots, 0) && DistinctSlots(slots) && AllBelow(slots, |st.bindings|)
    ensures var r := Reserve(cfg, st, stmts, env, slots);
            && Evolves(captured, st, r.st)
            && SlotsFor(cfg, r.st, stmts, r.slots, base) && Pending(r.st, stmts, r.slots, 0) && DistinctSlots(r.slots)
            && |r.env| == |env| && r.st.functions == st.functions && r.st.host == st.host
    decreases |stmts| - |slots|
  {
    if |slots| < |stmts| {
      var stmt := stmts[|slots|].Unspanned();
      var here := Some(|st.bindings|);
      if stmt.Let? {
        var next := Allocate(st, ResolveAnnotation(cfg.types, stmt.annotation), None, true);
        ReserveOne(cfg, captured, st, next, stmts, slots, base);
        ReserveEvolves(cfg, captured, next, stmts, env, slots + [here], base);
        Then(captured, st, next, Reserve(cfg, next, stmts, env, slots + [here]).st);
      } else if stmt.Function? {
        var next := Allocate(st, None, None, false);
        ReserveOne(cfg, captured, st, next, stmts, slots, base);
        ReserveEvolves(cfg, captured, next, stmts, Bind(env, stmt.name, |st.bindings|), slots + [here], base);
        Then(captured, st, next, Reserve(cfg, next, stmts, Bind(env, stmt.name, |st.bindings|), slots + [here]).st);
      } else {
        ReserveEvolves(cfg, captured, st, stmts, env, slots + [None], base);
      }
    }
  }

  lemma {:induction false} InstallEvolves(
    cfg: Config, captured: nat, st: State, stmts: seq<Stmt>, slots: seq<Option<nat>>, env: Environment, i: nat)
    requires SlotsFor(cfg, st, stmts, slots, captured) && DistinctSlots(slots) && Pending(st, stmts, slots, i)
    ensures Evolves(captured, st, Install(cfg, st, stmts, slots, env, i))
    decreases |stmts| - i
  {
    if i < |stmts| && i < |slots| {
      var stmt := stmts[i].Unspanned();
      if stmt.Let? {
        InstallEvolves(cfg, captured, st, stmts, slots, Bind(env, stmt.name, slots[i].value), i + 1);
      } else if stmt.Function? {
        var pushed := st.(functions := st.functions + [Definition(cfg, stmts[i], env)]);
        var stored := Store(pushed, slots[i].value, FunctionValue(|st.functions|));
        Stored(captured, pushed, slots[i].value, FunctionValue(|st.functions|));
        InstallEvolves(cfg, captured, stored, stmts, slots, env, i + 1);
        Then(captured, pushed, stored, Install(cfg, stored, stmts, slots, env, i + 1));
      } else {
        InstallEvolves(cfg, captured, st, stmts, slots, env, i + 1);
      }
    }
  }

  lemma {:induction false} ForkEvolves(cfg: Config, f: Frame, st: State, count: nat, hosts: seq<HostState>)
    ensures Evolves(f.captured, st, ForkFrom(cfg, f, st, count, hosts).st)
    ensures ForkFrom(cfg, f, st, count, hosts).st.bindings == st.bindings
    ensures ForkFrom(cfg, f, st, count, hosts).st.functions == st.functions
    decreases count - |hosts|
  {
    if |hosts| < count && st.steps > 0 {
      var (asked, reply) := Ask(cfg, st.host, Fork);
      var next := st.(steps := st.steps - 1, host := asked);
      if reply.Answer? {
        ForkEvolves(cfg, f, next, count, hosts + [HostState(asked.history + [Forked], None)]);
      }
    }
  }

  lemma {:induction false} PrintFromGrows(cfg: Config, f: Frame, h: HostState, lines: seq<string>, i: nat)
    ensures HostGrows(h, PrintFrom(cfg, f, h, lines, i).0)
    decreases |lines| - i
  {
    if i < |lines| {
      var (next, failure) := Print(cfg, h, lines[i]);
      PrintGrows(cfg, h, lines[i]);
      if failure.None? {
        PrintFromGrows(cfg, f, next, lines, i + 1);
      }
    }
  }

  lemma {:induction false} ReplayGrows(cfg: Config, f: Frame, h: HostState, outcomes: seq<Outcome>, i: nat, first: Option<RuntimeError>)
    ensures HostGrows(h, Replay(cfg, f, h, outcomes, i, first).0)
    decreases |outcomes| - i
  {
    if i < |outcomes| {
      var (next, failure) := PrintFrom(cfg, f, h, outcomes[i].lines, 0);
      PrintFromGrows(cfg, f, h, outcomes[i].lines, 0);
      ReplayGrows(cfg, f, next, outcomes, i + 1, first.Or(failure).Or(outcomes[i].error));
    }
  }

  // ----- the evaluator -----

  lemma {:induction false} EvaluateEvolves(cfg: Config, f: Frame, st: State, e: Expr, env: Environment)
    requires f.captured <= |st.bindings|
    ensures Evolves(f.captured, st, Evaluate(cfg, f, st, e, env).st)
    decreases st.steps, 0, e
  {
    if e.Located? {
      EvaluateEvolves(cfg, f.(span := Some(e.span)), st, e.inner, env);
    } else if st.steps > 0 && f.depth < cfg.limits.expressionDepth {
      var ticked := st.(steps := st.steps - 1);
      InnerEvolves(cfg, f.(depth := f.depth + 1), ticked, e, env);
      Then(f.captured, st, ticked, Inner(cfg, f.(depth := f.depth + 1), ticked, e, env).st);
    }
  }

  lemma {:induction false} InnerEvolves(cfg: Config, f: Frame, st: State, e: Expr, env: Environment)
    requires f.captured <= |st.bindings| && !e.Located?
    ensures Evolves(f.captured, st, Inner(cfg, f, st, e, env).st)
    decreases st.steps, 3
  {
    if e.Identifier? {
    } else if e.Assignment? {
      AssignEvolves(cfg, f, st, e.target, e.value, env);
    } else if IsStrict(e) {
      StrictEvolves(cfg, f, st, e, env);
    } else {
      LogicalEvolves(cfg, f, st, e.left, e.binary, e.right, env);
    }
  }

  lemma {:induction false} StrictEvolves(cfg: Config, f: Frame, st: State, e: Expr, env: Environment)
    requires f.captured <= |st.bindings| && IsStrict(e)
    ensures Evolves(f.captured, st, Strict(cfg, f, st, e, env).st)
    decreases st.steps, 2
  {
    if Refusal(cfg, e).None? {
      EvaluateFromEvolves(cfg, f, st, Operands(e), [], CheckOf(cfg, e), env);
      var o := EvaluateFrom(cfg, f, st, Operands(e), [], CheckOf(cfg, e), env);
      if o.res.Ok? {
        var values := o.res.value;
        if e.Call? {
          ApplyEvolves(cfg, f, o.st, values[0], values[1..]);
          Then(f.captured, st, o.st, Apply(cfg, f, o.st, values[0], values[1..]).st);
        } else {
          CombineEvolves(cfg, f, o.st, e, values);
          Then(f.captured, st, o.st, Combine(cfg, f, o.st, e, values).st);
        }
      }
    }
  }

  lemma {:induction false} EvaluateFromEvolves(
    cfg: Config, f: Frame, st: State, es: seq<Expr>, values: seq<Value>, check: Check, env: Environment)
    requires f.captured <= |st.bindings|
    ensures Evolves(f.captured, st, EvaluateFrom(cfg, f, st, es, values, check, env).st)
    decreases st.steps, 1
  {
    if |values| < |es| {
      EvaluateEvolves(cfg, f, st, es[|values|], env);
      var o := Evaluate(cfg, f, st, es[|values|], env);
      if o.res.Ok? && ElementError(cfg, check, |values|, o.res.value).None? {
        EvaluateFromEvolves(cfg, f, o.st, es, values + [o.res.value], check, env);
        Then(f.captured, st, o.st, EvaluateFrom(cfg, f, o.st, es, values + [o.res.value], check, env).st);
      }
    }
  }

  lemma {:induction false} LogicalEvolves(cfg: Config, f: Frame, st: State, left: Expr, op: BinaryOp, right: Expr, env: Environment)
    requires f.captured <= |st.bindings|
    ensures Evolves(f.captured, st, Logical(cfg, f, st, left, op, right, env).st)
    decreases st.steps, 2
  {
    EvaluateEvolves(cfg, f, st, left, env);
    var l := Evaluate(cfg, f, st, left, env);
    if l.res.Ok? {
      EvaluateEvolves(cfg, f, l.st, right, env);
      Then(f.captured, st, l.st, Evaluate(cfg, f, l.st, right, env).st);
    }
  }

  lemma {:induction false} AssignEvolves(cfg: Config, f: Frame, st: State, target: Expr, value: Expr, env: Environment)
    requires f.captured <= |st.bindings|
    ensures Evolves(f.captured, st, Assign(cfg, f, st, target, value, env).st)
    decreases st.steps, 2
  {
    hide BufferGrows, Target, Evaluate, Write, Permission, KeepsSlot;
    TargetEvolves(cfg, f, st, target, env);
    var t := Target(cfg, f, st, target, env);
    if t.res.Err? { return; }
    var place := t.res.value;
    if Permission(f, t.st, place.id).Some? { return; }
    EvaluateEvolves(cfg, f, t.st, value, env);
    var r := Evaluate(cfg, f, t.st, value, env);
    Then(f.captured, st, t.st, r.st);
    if r.res.Err? { return; }
    WriteAfter(cfg, f, t.st, r.st, place, r.res.value);
    Then(f.captured, st, t.st, Write(cfg, f, r.st, place, r.res.value).st);
  }

  lemma {:induction false} TargetEvolves(cfg: Config, f: Frame, st: State, e: Expr, env: Environment)
    requires f.captured <= |st.bindings|
    ensures Evolves(f.captured, st, Target(cfg, f, st, e, env).st)
    decreases st.steps, 1, e
  {
    hide BufferGrows, HostGrows, Evaluate;
    Ticks(f.captured, st, st.steps);
    if e.Located? {
      TargetEvolves(cfg, f.(span := Some(e.span)), st, e.inner, env);
    } else if st.steps > 0 && (e.Property? || e.Index?) {
      var ticked := st.(steps := st.steps - 1);
      Ticks(f.captured, st, st.steps - 1);
      TargetEvolves(cfg, f, ticked, e.owner, env);
      var o := Target(cfg, f, ticked, e.owner, env);
      Then(f.captured, st, ticked, o.st);
      if e.Index? && o.res.Ok? {
        EvaluateEvolves(cfg, f, o.st, e.index, env);
        Then(f.captured, st, o.st, Evaluate(cfg, f, o.st, e.index, env).st);
      }
    }
  }

  lemma {:induction false} ApplyEvolves(cfg: Config, f: Frame, st: State, callee: Value, args: seq<Value>)
    requires f.captured <= |st.bindings|
    ensures Evolves(f.captured, st, Apply(cfg, f, st, callee, args).st)
    decreases st.steps, 8
  {
    hide BufferGrows, BuiltinResult, Print, CallFunction;
    Ticks(f.captured, st, st.steps);
    if callee.BuiltinValue? {
      BuiltinEvolves(cfg, f, st, callee.builtin, args);
    } else if callee.PrintValue? {
      PrintGrows(cfg, st.host, Joined(cfg, args));
      Hosted(f.captured, st, Print(cfg, st.host, Joined(cfg, args)).0);
    } else if callee.FunctionValue? && callee.id < |st.functions| {
      CallEvolves(cfg, f, st, st.functions[callee.id], args);
    }
  }

  lemma {:induction false} CallEvolves(cfg: Config, f: Frame, st: State, callee: FunctionDef, args: seq<Value>)
    requires f.captured <= |st.bindings|
    ensures Evolves(f.captured, st, CallFunction(cfg, f, st, callee, args).st)
    decreases st.steps, 7
  {
    BindParametersEvolves(cfg, f, st, callee.parameters, args, 0, map[]);
    var bound := BindParameters(cfg, f, st, callee.parameters, args, 0, map[]);
    if bound.res.Ok? {
      var env := callee.closure + [bound.res.value];
      BodyEvolves(cfg, Enter(f, callee), bound.st, callee.body, env);
      Then(f.captured, st, bound.st, Body(cfg, Enter(f, callee), bound.st, callee.body, env).st);
    }
  }

  lemma {:induction false} StatementsEvolves(cfg: Config, f: Frame, st: State, stmts: seq<Stmt>, env: Environment)
    requires f.captured <= |st.bindings|
    ensures Evolves(f.captured, st, Statements(cfg, f, st, stmts, env).st)
    decreases st.steps, 4
  {
    if env != [] {
      ReserveEvolves(cfg, f.captured, st, stmts, env, [], f.captured);
      var r := Reserve(cfg, st, stmts, env, []);
      InstallEvolves(cfg, f.captured, r.st, stmts, r.slots, r.env, 0);
      var installed := Install(cfg, r.st, stmts, r.slots, r.env, 0);
      Then(f.captured, st, r.st, installed);
      SlotsForEvolves(cfg, f.captured, r.st, installed, stmts, r.slots, f.captured);
      ExecuteFromEvolves(cfg, f, installed, stmts, r.slots, r.env, 0);
      Then(f.captured, st, installed, ExecuteFrom(cfg, f, installed, stmts, r.slots, r.env, 0).st);
    }
  }

  lemma {:induction false} RunLetEvolves(cfg: Config, f: Frame, st: State, slot: Option<nat>, value: Expr, env: Environment)
    requires f.captured <= |st.bindings|
    requires slot.Some? ==> f.captured <= slot.value < |st.bindings| && st.bindings[slot.value].mutable
    ensures Evolves(f.captured, st, RunLet(cfg, f, st, slot, value, env).st)
    decreases st.steps, 1
  {
    EvaluateEvolves(cfg, f, st, value, env);
    var o := Evaluate(cfg, f, st, value, env);
    if o.res.Err? || slot.None? { return; }
    assert KeepsSlot(st.bindings[slot.value], o.st.bindings[slot.value]);
    Stored(f.captured, o.st, slot.value, o.res.value);
    Then(f.captured, st, o.st, Store(o.st, slot.value, o.res.value));
  }

  lemma {:induction false} ExecuteFromEvolves(
    cfg: Config, f: Frame, st: State, stmts: seq<Stmt>, slots: seq<Option<nat>>, env: Environment, i: nat)
    requires f.captured <= |st.bindings| && SlotsFor(cfg, st, stmts, slots, f.captured)
    ensures Evolves(f.captured, st, ExecuteFrom(cfg, f, st, stmts, slots, env, i).st)
    decreases st.steps, 3
  {
    hide BufferGrows, RunLet, Execute, HostGrows;
    Ticks(f.captured, st, st.steps);
    if i >= |stmts| || i >= |slots| || st.steps == 0 { return; }
    var stmt := stmts[i].Unspanned();
    var here := f.(span := stmts[i].Where().Or(f.span));
    var ticked := st.(steps := st.steps - 1);
    Ticks(f.captured, st, st.steps - 1);
    assert SlotFor(cfg, st, stmt, slots[i], f.captured);
    if stmt.Let? {
      RunLetEvolves(cfg, here, ticked, slots[i], stmt.value, env);
      var l := RunLet(cfg, here, ticked, slots[i], stmt.value, env);
      Then(f.captured, st, ticked, l.st);
      if l.res.Err? { return; }
      SlotsForEvolves(cfg, f.captured, st, l.st, stmts, slots, f.captured);
      var bound := Bind(env, stmt.name, slots[i].GetOr(0));
      ExecuteFromEvolves(cfg, f, l.st, stmts, slots, bound, i + 1);
      Then(f.captured, st, l.st, ExecuteFrom(cfg, f, l.st, stmts, slots, bound, i + 1).st);
    } else {
      ExecuteEvolves(cfg, here, ticked, stmt, env);
      var o := Execute(cfg, here, ticked, stmt, env);
      Then(f.captured, st, ticked, o.st);
      if o.res.Err? || !o.res.value.Normal? { return; }
      SlotsForEvolves(cfg, f.captured, st, o.st, stmts, slots, f.captured);
      ExecuteFromEvolves(cfg, f, o.st, stmts, slots, env, i + 1);
      Then(f.captured, st, o.st, ExecuteFrom(cfg, f, o.st, stmts, slots, env, i + 1).st);
    }
  }

  lemma {:induction false} BodyEvolves(cfg: Config, f: Frame, st: State, body: Stmt, env: Environment)
    requires f.captured <= |st.bindings|
    ensures Evolves(f.captured, st, Body(cfg, f, st, body, env).st)
    decreases st.steps, 5, body
  {
    if body.LocatedStmt? {
      BodyEvolves(cfg, f.(span := Some(body.span)), st, body.inner, env);
    } else {
      StatementsEvolves(cfg, f, st, if body.Block? then body.statements else [body], env);
    }
  }

  lemma {:induction false} ExecuteEvolves(cfg: Config, f: Frame, st: State, s: Stmt, env: Environment)
    requires f.captured <= |st.bindings|
    ensures Evolves(f.captured, st, Execute(cfg, f, st, s, env).st)
    decreases st.steps, 8, s
  {
    if s.LocatedStmt? {
      ExecuteEvolves(cfg, f.(span := Some(s.span)), st, s.inner, env);
    } else if s.Block? {
      BodyEvolves(cfg, f, st, s, env + [map[]]);
    } else if HeadOf(s).Some? {
      var head := HeadOf(s).value;
      EvaluateEvolves(cfg, f, st, head, env);
      var o := Evaluate(cfg, f, st, head, env);
      if o.res.Ok? {
        ResumeEvolves(cfg, f, o.st, s, PlanOf(cfg, f, s, o.res.value), env);
        Then(f.captured, st, o.st, Resume(cfg, f, o.st, s, PlanOf(cfg, f, s, o.res.value), env).st);
      }
    }
  }

  lemma {:induction false} ResumeEvolves(cfg: Config, f: Frame, st: State, s: Stmt, plan: Plan, env: Environment)
    requires f.captured <= |st.bindings|
    ensures Evolves(f.captured, st, Resume(cfg, f, st, s, plan, env).st)
    decreases st.steps, 10
  {
    match plan
    case Run(body) => BodyEvolves(cfg, f, st, body, env + [map[]]);
    case Repeat(body) =>
      BodyEvolves(cfg, f, st, body, env + [map[]]);
      var b := Body(cfg, f, st, body, env + [map[]]);
      if b.res.Ok? && (b.res.value.Normal? || b.res.value.ContinueFlow?) {
        ExecuteEvolves(cfg, f, b.st, s, env);
        Then(f.captured, st, b.st, Execute(cfg, f, b.st, s, env).st);
      }
    case Iterate(variable, values, body) => EachEvolves(cfg, f, st, variable, values, 0, body, env);
    case Spread(variable, values, body) =>
      BatchesEvolves(cfg, f, st, Snap(st), variable, values, 0, Width(cfg, f), body, env);
    case _ =>
  }

  lemma {:induction false} EachEvolves(cfg: Config, f: Frame, st: State, variable: string, values: seq<Value>, i: nat, body: Stmt, env: Environment)
    requires f.captured <= |st.bindings|
    ensures Evolves(f.captured, st, EachFrom(cfg, f, st, variable, values, i, body, env).st)
    decreases st.steps, 7
  {
    hide BufferGrows, HostGrows, Body;
    Ticks(f.captured, st, st.steps);
    if i < |values| && st.steps > 0 {
      var ticked := st.(steps := st.steps - 1);
      Ticks(f.captured, st, st.steps - 1);
      var entered := Allocate(ticked, None, Some(values[i]), true);
      Allocated(f.captured, ticked, None, Some(values[i]), true);
      Then(f.captured, st, ticked, entered);
      var scope := env + [map[variable := |st.bindings|]];
      BodyEvolves(cfg, f, entered, body, scope);
      var b := Body(cfg, f, entered, body, scope);
      Then(f.captured, st, entered, b.st);
      if b.res.Ok? && (b.res.value.Normal? || b.res.value.ContinueFlow?) {
        EachEvolves(cfg, f, b.st, variable, values, i + 1, body, env);
        Then(f.captured, st, b.st, EachFrom(cfg, f, b.st, variable, values, i + 1, body, env).st);
      }
    }
  }

  lemma BatchEvolves(
    cfg: Config, f: Frame, st: State, snapshot: Snapshot, variable: string, values: seq<Value>, first: nat,
    body: Stmt, env: Environment)
    ensures Evolves(f.captured, st, Batch(cfg, f, st, snapshot, variable, values, first, body, env).st)
    ensures Batch(cfg, f, st, snapshot, variable, values, first, body, env).st.bindings == st.bindings
    ensures Batch(cfg, f, st, snapshot, variable, values, first, body, env).st.functions == st.functions
  {
    ForkEvolves(cfg, f, st, |values|, []);
    var forked := ForkFrom(cfg, f, st, |values|, []);
    if forked.res.Err? { return; }
    var w := WorkersFrom(cfg, f, forked.st, snapshot, variable, values, first, forked.res.value, [], body, env);
    ReplayGrows(cfg, f, w.st.host, w.outcomes, 0, None);
    var (host, error) := Replay(cfg, f, w.st.host, w.outcomes, 0, None);
    Replayed(f.captured, forked.st, w.st.steps, host);
    Then(f.captured, st, forked.st, w.st.(host := host));
  }

  /** A parallel statement leaves the parent's arenas as they were. */
  lemma {:induction false} BatchesEvolves(
    cfg: Config, f: Frame, st: State, snapshot: Snapshot, variable: string, values: seq<Value>, start: nat, width: nat,
    body: Stmt, env: Environment)
    requires width >= 1
    ensures Evolves(f.captured, st, Batches(cfg, f, st, snapshot, variable, values, start, width, body, env).st)
    ensures Batches(cfg, f, st, snapshot, variable, values, start, width, body, env).st.bindings == st.bindings
    ensures Batches(cfg, f, st, snapshot, variable, values, start, width, body, env).st.functions == st.functions
    decreases st.steps
  {
    hide BufferGrows, Batch, KeepsSlot, HostGrows;
    Ticks(f.captured, st, st.steps);
    if start < |values| {
      var end := if start + width <= |values| then start + width else |values|;
      BatchEvolves(cfg, f, st, snapshot, variable, values[start..end], start, body, env);
      var b := Batch(cfg, f, st, snapshot, variable, values[start..end], start, body, env);
      if b.res.Err? { return; }
      BatchesEvolves(cfg, f, b.st, snapshot, variable, values, end, width, body, env);
      Then(f.captured, st, b.st, Batches(cfg, f, b.st, snapshot, variable, values, end, width, body, env).st);
    }
  }

  /** Isolation: whatever a worker runs, every slot of the snapshot ends as it began. */
  lemma WorkerIsolation(
    cfg: Config, f: Frame, snapshot: Snapshot, steps: nat, host: HostState, value: Value, variable: string,
    body: Stmt, env: Environment)
    ensures var final := Worker(cfg, f, snapshot, steps, host, value, variable, body, env).st;
            |snapshot.bindings| < |final.bindings| && final.bindings[..|snapshot.bindings|] == snapshot.bindings
  {
    var started := WorkerStart(snapshot, steps, host, value);
    BodyEvolves(cfg, WorkerFrame(f, snapshot), started, body, env + [map[variable := |snapshot.bindings|]]);
  }
}
