/** Nodes that look at each operand before the next one runs: record constructors and network expressions. */
module Constructing {
  import opened Wrappers
  import opened Ast
  import opened Types
  import opened Values
  import opened Evaluation
  import opened Equations
  import opened Laws
  import opened Assigning

  /** A strict node with checks, after the operands that have passed theirs. */
  lemma CheckedRun(
    cfg: Config, f: Frame, states: seq<State>, e: Expr, values: seq<Value>, env: Environment, st: State)
    requires Ready(cfg, f, st) && IsStrict(e) && !e.Call? && Refusal(cfg, e).None? && states != [] && states[0] == Ticked(st)
    requires Operated(cfg, Deeper(f), states, Operands(e), values, env) && AllPass(cfg, CheckOf(cfg, e), values)
    ensures var rest := EvaluateFrom(cfg, Deeper(f), states[|values|], Operands(e), values, CheckOf(cfg, e), env);
            Evaluate(cfg, f, st, e, env) ==
              if rest.res.Err? then Out(rest.st, Err(rest.res.error)) else Combine(cfg, Deeper(f), rest.st, e, rest.res.value)
  {
    hide Evaluate, EvaluateFrom, Operated, Refusal, CheckOf, Strict, Inner, AllPass, Combine;
    OperandsRun(cfg, Deeper(f), states, Operands(e), values, CheckOf(cfg, e), env, 0);
    assert values[..0] == [];
    EvaluateSteps(cfg, f, st, e, env);
    StrictInner(cfg, Deeper(f), Ticked(st), e, env);
    StrictSteps(cfg, Deeper(f), Ticked(st), e, env);
  }

  /** The next operand fails, or its value is refused: that is the failure of the node, and no later operand runs. */
  lemma CheckedOperandFails(
    cfg: Config, f: Frame, states: seq<State>, e: Expr, values: seq<Value>, env: Environment, st: State, next: Out<Value>)
    requires Ready(cfg, f, st) && (e.Construct? || e.Effect?) && Refusal(cfg, e).None? && states != [] && states[0] == Ticked(st)
    requires Operated(cfg, Deeper(f), states, Operands(e), values, env) && AllPass(cfg, CheckOf(cfg, e), values)
    requires |values| < |Operands(e)| && next == Evaluate(cfg, Deeper(f), states[|values|], Operands(e)[|values|], env)
    ensures next.res.Err? ==> Evaluate(cfg, f, st, e, env) == next
    ensures next.res.Ok? && ElementError(cfg, CheckOf(cfg, e), |values|, next.res.value).Some? ==>
              var o := Evaluate(cfg, f, st, e, env);
              && o.st == next.st && o.res.Err?
              && o.res.error.message == ElementError(cfg, CheckOf(cfg, e), |values|, next.res.value).value
  {
    CheckedRun(cfg, f, states, e, values, env, st);
    hide Evaluate, Operated, Refusal, CheckOf, AllPass, Combine, ElementError;
  }

  // ----- records -----

  /** The contract a constructor's field is held to: that of its declaration, if it has one. */
  function FieldContract(cfg: Config, id: nat, key: string): Option<ResolvedType>
    requires id < |cfg.types|
  {
    FieldType(cfg.types, cfg.types[id].fields, key)
  }

  /** The first values of a constructor's fields keep their contracts. */
  predicate FieldsAdmitted(cfg: Config, id: nat, fields: seq<Field>, values: seq<Value>)
    requires id < |cfg.types| && |values| <= |fields|
  {
    forall i | 0 <= i < |values| :: Admits(cfg, FieldContract(cfg, id, fields[i].key), values[i])
  }

  lemma FieldChecks(cfg: Config, e: Expr, id: nat, v: Value, i: nat)
    requires e.Construct? && Resolve(cfg.types, e.name) == Some(Named(id)) && id < |cfg.types| && i < |e.fields|
    ensures CheckOf(cfg, e) == FieldContracts(id, Keys(e.fields)) && Refusal(cfg, e).None?
    ensures ElementError(cfg, CheckOf(cfg, e), i, v).None? <==> Admits(cfg, FieldContract(cfg, id, e.fields[i].key), v)
  {
    AdmitsIff(cfg, FieldContract(cfg, id, e.fields[i].key), v);
  }

  lemma FieldsPass(cfg: Config, e: Expr, id: nat, values: seq<Value>)
    requires e.Construct? && Resolve(cfg.types, e.name) == Some(Named(id)) && id < |cfg.types| && |values| <= |e.fields|
    requires FieldsAdmitted(cfg, id, e.fields, values)
    ensures CheckOf(cfg, e) == FieldContracts(id, Keys(e.fields)) && Refusal(cfg, e).None?
    ensures AllPass(cfg, CheckOf(cfg, e), values)
  {
    assert CheckOf(cfg, e) == FieldContracts(id, Keys(e.fields)) && Refusal(cfg, e).None?;
    hide Admits, FieldContract, CheckOf, Refusal, ElementError;
    forall i | 0 <= i < |values|
      ensures ElementError(cfg, CheckOf(cfg, e), i, values[i]).None?
    {
      FieldChecks(cfg, e, id, values[i], i);
    }
  }

  lemma NothingLeft(cfg: Config, f: Frame, st: State, es: seq<Expr>, values: seq<Value>, check: Check, env: Environment)
    requires |values| == |es|
    ensures EvaluateFrom(cfg, f, st, es, values, check, env) == Out(st, Ok(values))
  {
    hide Evaluate;
  }

  lemma RecordCombines(cfg: Config, f: Frame, st: State, e: Expr, id: nat, values: seq<Value>)
    requires e.Construct? && Resolve(cfg.types, e.name) == Some(Named(id)) && |values| == |e.fields|
    ensures Combine(cfg, f, st, e, values) == Out(st, Ok(Record(cfg.identity, id, e.name, ToMap(Keys(e.fields), values))))
  {
    hide ToMap;
  }

  /** A constructor of a declared type builds a record of this execution that holds the field values. */
  lemma ConstructBuilds(
    cfg: Config, f: Frame, states: seq<State>, name: string, fields: seq<Field>, id: nat, values: seq<Value>, env: Environment, st: State)
    requires Ready(cfg, f, st) && states != [] && states[0] == Ticked(st) && |values| == |fields|
    requires Resolve(cfg.types, name) == Some(Named(id)) && id < |cfg.types| && FieldsAdmitted(cfg, id, fields, values)
    requires Operated(cfg, Deeper(f), states, FieldValues(fields), values, env)
    ensures var o := Evaluate(cfg, f, st, Construct(name, fields), env);
            && o.st == states[|fields|] && o.res.Ok? && o.res.value.Record?
            && o.res.value.identity == cfg.identity && o.res.value.typeId == id && o.res.value.typeName == name
            && HoldsLast(fields, values, o.res.value.fields)
  {
    hide *;
    var e := Construct(name, fields);
    OperandsAreValues(e);
    StatesCount(cfg, Deeper(f), states, FieldValues(fields), values, env);
    FieldsPass(cfg, e, id, values);
    MapHolds(fields, values);
    RecordCombines(cfg, Deeper(f), states[|fields|], e, id, values);
    NothingLeft(cfg, Deeper(f), states[|fields|], Operands(e), values, CheckOf(cfg, e), env);
    CheckedRun(cfg, f, states, e, values, env, st);
  }

  lemma OperandsAreValues(e: Expr)
    requires e.Construct?
    ensures Operands(e) == FieldValues(e.fields) && |Operands(e)| == |e.fields| && IsStrict(e)
  {
  }

  lemma StatesCount(cfg: Config, f: Frame, states: seq<State>, es: seq<Expr>, values: seq<Value>, env: Environment)
    requires Operated(cfg, f, states, es, values, env)
    ensures |states| == |values| + 1
  {
    hide Evaluate;
  }

  /** The first field whose value breaks its contract ends the construction, right after that value. */
  lemma ConstructRefuses(
    cfg: Config, f: Frame, states: seq<State>, name: string, fields: seq<Field>, id: nat, values: seq<Value>, env: Environment,
    st: State, next: Out<Value>)
    requires Ready(cfg, f, st) && states != [] && states[0] == Ticked(st) && |values| < |fields|
    requires Resolve(cfg.types, name) == Some(Named(id)) && id < |cfg.types| && FieldsAdmitted(cfg, id, fields, values)
    requires Operated(cfg, Deeper(f), states, FieldValues(fields), values, env)
    requires next == Evaluate(cfg, Deeper(f), states[|values|], fields[|values|].value, env)
    ensures next.res.Err? ==> Evaluate(cfg, f, st, Construct(name, fields), env) == next
    ensures next.res.Ok? && !Admits(cfg, FieldContract(cfg, id, fields[|values|].key), next.res.value) ==>
              var o := Evaluate(cfg, f, st, Construct(name, fields), env); o.st == next.st && o.res.Err?
  {
    var e := Construct(name, fields);
    FieldsPass(cfg, e, id, values);
    assert Operands(e) == FieldValues(fields);
    hide Evaluate, Operated, AllPass, FieldsAdmitted, CheckOf, Refusal, Admits, ElementError;
    if next.res.Ok? {
      FieldChecks(cfg, e, id, next.res.value, |values|);
    }
    CheckedOperandFails(cfg, f, states, e, values, env, st, next);
  }

  /** A constructor of no declared record type fails before any field runs. */
  lemma UnknownTypeRefuses(cfg: Config, f: Frame, st: State, name: string, fields: seq<Field>, env: Environment)
    requires Ready(cfg, f, st) && (Resolve(cfg.types, name).None? || !Resolve(cfg.types, name).value.Named?)
    ensures Evaluate(cfg, f, st, Construct(name, fields), env) ==
            Out(Ticked(st), Err(RuntimeError(UnknownNamedType(name), f.stack, f.span)))
  {
    var e := Construct(name, fields);
    assert Refusal(cfg, e) == Some(UnknownNamedType(name));
    assert Strict(cfg, Deeper(f), Ticked(st), e, env) == Fail(Deeper(f), Ticked(st), UnknownNamedType(name));
    hide Evaluate, Strict, Inner, Refusal;
    EvaluateSteps(cfg, f, st, e, env);
    StrictInner(cfg, Deeper(f), Ticked(st), e, env);
  }

  // ----- network operands -----

  /** The url of a request must be a string before its configuration runs, and the destination of a send before it is sent. */
  lemma NetworkOperandRefuses(
    cfg: Config, f: Frame, states: seq<State>, op: EffectOp, operands: seq<Expr>, values: seq<Value>, env: Environment, st: State,
    next: Out<Value>)
    requires Ready(cfg, f, st) && states != [] && states[0] == Ticked(st) && |values| < |operands|
    requires Operated(cfg, Deeper(f), states, operands, values, env)
    requires next == Evaluate(cfg, Deeper(f), states[|values|], operands[|values|], env)
    requires (op.Request? && |values| > 0 ==> values[0].StringValue?) && (op.Send? && |values| > 2 ==> values[2].StringValue?)
    ensures next.res.Err? ==> Evaluate(cfg, f, st, Effect(op, operands), env) == next
    ensures next.res.Ok? && !next.res.value.StringValue? && ((op.Request? && |values| == 0) || (op.Send? && |values| == 2)) ==>
              var o := Evaluate(cfg, f, st, Effect(op, operands), env);
              && o.st == next.st && o.res.Err?
              && o.res.error.message == ExpectedString(if op.Request? then "url" else "destination")
  {
    var e := Effect(op, operands);
    assert Operands(e) == operands && CheckOf(cfg, e) == OperandsOf(op) && Refusal(cfg, e).None?;
    assert AllPass(cfg, CheckOf(cfg, e), values);
    hide Evaluate, Operated, AllPass, CheckOf, Refusal;
    CheckedOperandFails(cfg, f, states, e, values, env, st, next);
  }
}
