/** What each expression evaluates to. */
module Laws {
  import opened Wrappers
  import opened Ast
  import opened Values
  import opened Operations
  import opened Evaluation
  import opened Equations

  // ----- steps, depth and locations -----

  /** A step and a level of depth are left. */
  predicate Ready(cfg: Config, f: Frame, st: State) {
    st.steps > 0 && f.depth < cfg.limits.expressionDepth
  }

  function Deeper(f: Frame): Frame {
    f.(depth := f.depth + 1)
  }

  function Ticked(st: State): State
    requires st.steps > 0
  {
    st.(steps := st.steps - 1)
  }

  /** A failure here and now. */
  function Fault<T>(f: Frame, st: State, message: Message): Out<T> {
    Out(st, Err(RuntimeError(message, f.stack, f.span)))
  }

  /** Locations cost nothing and are where errors are reported; out of steps comes before out of depth. */
  lemma LimitsFirst(cfg: Config, f: Frame, st: State, e: Expr, env: Environment)
    ensures forall span :: Evaluate(cfg, f, st, Located(span, e), env) == Evaluate(cfg, f.(span := Some(span)), st, e, env)
    ensures !e.Located? && st.steps == 0 ==>
              Evaluate(cfg, f, st, e, env) == Out(st, Err(RuntimeError(StepLimit, f.stack, f.span)))
    ensures !e.Located? && st.steps > 0 && f.depth >= cfg.limits.expressionDepth ==>
              Evaluate(cfg, f, st, e, env) == Out(Ticked(st), Err(RuntimeError(ExpressionDepth, f.stack, f.span)))
  {
    hide Inner;
  }

  // ----- names -----

  /** The name is bound at this level and at none further in. */
  predicate Denotes(env: Environment, name: string, level: nat) {
    level < |env| && name in env[level] && forall l | level < l < |env| :: name !in env[l]
  }

  predicate Unbound(env: Environment, name: string) {
    forall l | 0 <= l < |env| :: name !in env[l]
  }

  /** The level at which a name is found. */
  lemma {:induction false} FoundLevel(env: Environment, name: string) returns (level: nat)
    requires LookUp(env, name).Some?
    ensures Denotes(env, name, level) && LookUp(env, name) == Some(env[level][name])
  {
    level := |env| - 1;
    if name !in env[level] {
      level := FoundLevel(env[..|env| - 1], name);
    }
  }

  lemma {:induction false} LookUpDenoted(env: Environment, name: string, level: nat)
    requires Denotes(env, name, level)
    ensures LookUp(env, name) == Some(env[level][name])
  {
    if level < |env| - 1 {
      LookUpDenoted(env[..|env| - 1], name, level);
    }
  }

  lemma UnboundIff(env: Environment, name: string)
    ensures LookUp(env, name).None? <==> Unbound(env, name)
  {
    if LookUp(env, name).Some? {
      var level := FoundLevel(env, name);
      assert name in env[level];
    } else if !Unbound(env, name) {
      var level := InnermostBinding(env, name, |env|);
      LookUpDenoted(env, name, level);
    }
  }

  lemma {:induction false} InnermostBinding(env: Environment, name: string, n: nat) returns (level: nat)
    requires n <= |env| && (exists l :: 0 <= l < n && name in env[l]) && forall l | n <= l < |env| :: name !in env[l]
    ensures Denotes(env, name, level)
  {
    level := n - 1;
    if name !in env[level] {
      level := InnermostBinding(env, name, n - 1);
    }
  }

  /** A name reads the slot its innermost binding denotes. */
  lemma NameReads(cfg: Config, f: Frame, st: State, name: string, env: Environment, level: nat)
    requires Ready(cfg, f, st) && Denotes(env, name, level) && env[level][name] < |st.bindings|
    ensures var slot := st.bindings[env[level][name]].value;
            Evaluate(cfg, f, st, Identifier(name), env) ==
            Out(Ticked(st), if slot.Some? then Ok(slot.value) else Err(RuntimeError(Uninitialized, f.stack, f.span)))
  {
    LookUpDenoted(env, name, level);
  }

  lemma UnboundNameFails(cfg: Config, f: Frame, st: State, name: string, env: Environment)
    requires Ready(cfg, f, st) && Unbound(env, name)
    ensures Evaluate(cfg, f, st, Identifier(name), env) ==
            Out(Ticked(st), Err(RuntimeError(UndefinedName(name), f.stack, f.span)))
  {
    UnboundIff(env, name);
  }

  // ----- operands, from left to right -----

  /** `values[i]` is the value of `es[i]`, each operand started where the one before it ended. */
  ghost predicate Operated(cfg: Config, f: Frame, states: seq<State>, es: seq<Expr>, values: seq<Value>, env: Environment) {
    && |states| == |values| + 1 && |values| <= |es|
    && forall i | 0 <= i < |values| :: Evaluate(cfg, f, states[i], es[i], env) == Out(states[i + 1], Ok(values[i]))
  }

  /** None of the values is refused by what is checked of it before the next operand runs. */
  predicate AllPass(cfg: Config, check: Check, values: seq<Value>) {
    forall i | 0 <= i < |values| :: ElementError(cfg, check, i, values[i]).None?
  }

  lemma {:induction false} OperandsRun(
    cfg: Config, f: Frame, states: seq<State>, es: seq<Expr>, values: seq<Value>, check: Check, env: Environment, i: nat)
    requires Operated(cfg, f, states, es, values, env) && AllPass(cfg, check, values) && i <= |values|
    ensures EvaluateFrom(cfg, f, states[i], es, values[..i], check, env) ==
            EvaluateFrom(cfg, f, states[|values|], es, values, check, env)
    decreases |values| - i
  {
    hide Evaluate, ElementError;
    if i == |values| {
      assert values[..i] == values;
    } else {
      assert Evaluate(cfg, f, states[i], es[i], env) == Out(states[i + 1], Ok(values[i]));
      assert values[..i] + [values[i]] == values[..i + 1];
      OperandsRun(cfg, f, states, es, values, check, env, i + 1);
    }
  }

  /** All operands have values. */
  lemma OperandsEnd(cfg: Config, f: Frame, states: seq<State>, es: seq<Expr>, values: seq<Value>, check: Check, env: Environment)
    requires Operated(cfg, f, states, es, values, env) && AllPass(cfg, check, values) && |values| == |es|
    ensures EvaluateFrom(cfg, f, states[0], es, [], check, env) == Out(states[|es|], Ok(values))
  {
    hide Evaluate;
    OperandsRun(cfg, f, states, es, values, check, env, 0);
    assert values[..0] == [];
  }

  /** The next operand fails. */
  lemma OperandsFail(
    cfg: Config, f: Frame, states: seq<State>, es: seq<Expr>, values: seq<Value>, check: Check, env: Environment, failed: Out<Value>)
    requires Operated(cfg, f, states, es, values, env) && AllPass(cfg, check, values) && |values| < |es|
    requires Evaluate(cfg, f, states[|values|], es[|values|], env) == failed && failed.res.Err?
    ensures EvaluateFrom(cfg, f, states[0], es, [], check, env) == Out(failed.st, Err(failed.res.error))
  {
    hide Evaluate;
    OperandsRun(cfg, f, states, es, values, check, env, 0);
    assert values[..0] == [];
  }

  /** Nodes whose operands are only combined, with nothing checked in between. */
  predicate IsPlain(e: Expr) {
    IsStrict(e) && !e.Construct? && !e.Effect?
  }

  lemma PlainNode(e: Expr, cfg: Config)
    requires IsPlain(e)
    ensures CheckOf(cfg, e) == Unchecked && Refusal(cfg, e).None?
  {
  }

  lemma PlainPass(cfg: Config, values: seq<Value>)
    ensures AllPass(cfg, Unchecked, values)
  {
  }

  lemma StrictRuns(cfg: Config, f: Frame, states: seq<State>, e: Expr, values: seq<Value>, env: Environment, st: State)
    requires Ready(cfg, f, st) && IsPlain(e) && states != [] && states[0] == Ticked(st)
    requires Operated(cfg, Deeper(f), states, Operands(e), values, env) && |values| == |Operands(e)|
    ensures e.Call? ==> Evaluate(cfg, f, st, e, env) == Apply(cfg, Deeper(f), states[|values|], values[0], values[1..])
    ensures !e.Call? ==> Evaluate(cfg, f, st, e, env) == Combine(cfg, Deeper(f), states[|values|], e, values)
  {
    PlainNode(e, cfg);
    PlainPass(cfg, values);
    hide Evaluate, Apply, Combine, EvaluateFrom, Operated, Refusal, CheckOf, Strict, Inner, AllPass;
    OperandsEnd(cfg, Deeper(f), states, Operands(e), values, Unchecked, env);
    EvaluateSteps(cfg, f, st, e, env);
    StrictInner(cfg, Deeper(f), Ticked(st), e, env);
    StrictSteps(cfg, Deeper(f), Ticked(st), e, env);
  }

  /** The first operand that fails is the failure of the node, and no later operand runs. */
  lemma OperandFails(
    cfg: Config, f: Frame, states: seq<State>, e: Expr, values: seq<Value>, env: Environment, st: State, failed: Out<Value>)
    requires Ready(cfg, f, st) && IsPlain(e) && states != [] && states[0] == Ticked(st)
    requires Operated(cfg, Deeper(f), states, Operands(e), values, env) && |values| < |Operands(e)|
    requires Evaluate(cfg, Deeper(f), states[|values|], Operands(e)[|values|], env) == failed && failed.res.Err?
    ensures Evaluate(cfg, f, st, e, env) == failed
  {
    PlainNode(e, cfg);
    PlainPass(cfg, values);
    hide Evaluate, Apply, Combine, EvaluateFrom, Operated, Refusal, CheckOf, Strict, Inner, AllPass;
    OperandsFail(cfg, Deeper(f), states, Operands(e), values, Unchecked, env, failed);
    EvaluateSteps(cfg, f, st, e, env);
    StrictInner(cfg, Deeper(f), Ticked(st), e, env);
    StrictSteps(cfg, Deeper(f), Ticked(st), e, env);
  }

  // ----- literals, arrays and objects -----

  lemma LiteralsMean(cfg: Config, f: Frame, st: State, env: Environment)
    requires Ready(cfg, f, st)
    ensures forall i :: Evaluate(cfg, f, st, IntegerLit(i), env) == Out(Ticked(st), Ok(IntegerValue(i)))
    ensures forall x :: Evaluate(cfg, f, st, FloatLit(x), env) == Out(Ticked(st), Ok(FloatValue(x)))
    ensures forall text :: Evaluate(cfg, f, st, StringLit(text), env) == Out(Ticked(st), Ok(StringValue(text)))
    ensures forall b :: Evaluate(cfg, f, st, BooleanLit(b), env) == Out(Ticked(st), Ok(BooleanValue(b)))
    ensures forall d :: Evaluate(cfg, f, st, DurationLit(d), env) == Out(Ticked(st), Ok(DurationValue(d)))
    ensures Evaluate(cfg, f, st, NullLit, env) == Out(Ticked(st), Ok(NullValue))
  {
    hide Evaluate, EvaluateFrom;
    forall e: Expr | IsPlain(e) && Operands(e) == [] && !e.Call?
      ensures Evaluate(cfg, f, st, e, env) == Combine(cfg, Deeper(f), Ticked(st), e, [])
    {
      StrictRuns(cfg, f, [Ticked(st)], e, [], env, st);
    }
  }

  lemma ArrayHolds(cfg: Config, f: Frame, states: seq<State>, es: seq<Expr>, values: seq<Value>, env: Environment, st: State)
    requires Ready(cfg, f, st) && states != [] && states[0] == Ticked(st)
    requires Operated(cfg, Deeper(f), states, es, values, env) && |values| == |es|
    ensures Evaluate(cfg, f, st, ArrayLit(es), env) == Out(states[|es|], Ok(ArrayValue(values)))
  {
    hide Evaluate, Operated;
    assert Operands(ArrayLit(es)) == es;
    StrictRuns(cfg, f, states, ArrayLit(es), values, env, st);
  }

  /** Each key holds the value of its last field. */
  ghost predicate HoldsLast(fields: seq<Field>, values: seq<Value>, held: map<string, Value>)
    requires |values| == |fields|
  {
    && (forall i | 0 <= i < |fields| :: fields[i].key in held)
    && forall key | key in held :: exists i :: LastIs(fields, values, key, held[key], i)
  }

  predicate LastIs(fields: seq<Field>, values: seq<Value>, key: string, value: Value, i: nat)
    requires |values| == |fields|
  {
    i < |fields| && fields[i].key == key && value == values[i] && forall j | i < j < |fields| :: fields[j].key != key
  }

  lemma ToMapSteps(fields: seq<Field>, values: seq<Value>)
    requires |values| == |fields|
    ensures fields == [] ==> ToMap(Keys(fields), values) == map[]
    ensures fields != [] ==>
              var last := |fields| - 1;
              ToMap(Keys(fields), values) == ToMap(Keys(fields[..last]), values[..last])[fields[last].key := values[last]]
  {
    if fields != [] {
      assert Keys(fields)[..|fields| - 1] == Keys(fields[..|fields| - 1]);
    }
  }

  lemma LastIsLater(fields: seq<Field>, values: seq<Value>, key: string, value: Value, i: nat)
    requires fields != [] && |values| == |fields| && fields[|fields| - 1].key != key
    requires LastIs(fields[..|fields| - 1], values[..|fields| - 1], key, value, i)
    ensures LastIs(fields, values, key, value, i)
  {
    assert forall j | 0 <= j < |fields| - 1 :: fields[..|fields| - 1][j] == fields[j];
  }

  /** The last field of a key, or the answer that there is none. */
  lemma {:induction false} LastField(fields: seq<Field>, values: seq<Value>, key: string) returns (i: nat)
    requires |values| == |fields|
    ensures if key in ToMap(Keys(fields), values) then LastIs(fields, values, key, ToMap(Keys(fields), values)[key], i)
            else forall j | 0 <= j < |fields| :: fields[j].key != key
  {
    hide ToMap;
    ToMapSteps(fields, values);
    i := 0;
    if fields == [] { return; }
    var last := |fields| - 1;
    var front, few := fields[..last], values[..last];
    i := LastField(front, few, key);
    if key == fields[last].key {
      i := last;
    } else if key in ToMap(Keys(fields), values) {
      hide LastIs;
      LastIsLater(fields, values, key, ToMap(Keys(fields), values)[key], i);
    } else {
      assert forall j | 0 <= j < last :: front[j] == fields[j];
    }
  }

  lemma MapHolds(fields: seq<Field>, values: seq<Value>)
    requires |values| == |fields|
    ensures HoldsLast(fields, values, ToMap(Keys(fields), values))
  {
    hide ToMap;
    var held := ToMap(Keys(fields), values);
    forall i | 0 <= i < |fields|
      ensures fields[i].key in held
    {
      var k := LastField(fields, values, fields[i].key);
    }
    forall key | key in held
      ensures exists i :: LastIs(fields, values, key, held[key], i)
    {
      var i := LastField(fields, values, key);
    }
  }

  lemma ObjectHolds(cfg: Config, f: Frame, states: seq<State>, fields: seq<Field>, values: seq<Value>, env: Environment, st: State)
    requires Ready(cfg, f, st) && states != [] && states[0] == Ticked(st)
    requires Operated(cfg, Deeper(f), states, FieldValues(fields), values, env) && |values| == |fields|
    ensures var o := Evaluate(cfg, f, st, ObjectLit(fields), env);
            o.st == states[|fields|] && o.res.Ok? && o.res.value.ObjectValue? && HoldsLast(fields, values, o.res.value.fields)
  {
    hide Evaluate, Operated, HoldsLast;
    StrictRuns(cfg, f, states, ObjectLit(fields), values, env, st);
    MapHolds(fields, values);
  }

  // ----- operators -----

  /** What an operator makes of values, or its refusal, reported where the node is. */
  function Reported(f: Frame, st: State, r: Result<Value, Message>): Out<Value> {
    Out(st, if r.Ok? then Ok(r.value) else Err(RuntimeError(r.error, f.stack, f.span)))
  }

  lemma UnaryApplies(cfg: Config, f: Frame, st: State, op: UnaryOp, operand: Expr, env: Environment)
    requires Ready(cfg, f, st)
    ensures var o := Evaluate(cfg, Deeper(f), Ticked(st), operand, env);
            Evaluate(cfg, f, st, Unary(op, operand), env) ==
              if o.res.Err? then o else Reported(f, o.st, UnaryResult(op, o.res.value))
  {
    hide Evaluate, UnaryResult;
    var e, o := Unary(op, operand), Evaluate(cfg, Deeper(f), Ticked(st), operand, env);
    if o.res.Err? {
      OperandFails(cfg, f, [Ticked(st)], e, [], env, st, o);
    } else {
      StrictRuns(cfg, f, [Ticked(st), o.st], e, [o.res.value], env, st);
    }
  }

  /** Left operand, right operand, operator; the short-circuit operators are not among these. */
  lemma BinaryApplies(cfg: Config, f: Frame, st: State, left: Expr, op: BinaryOp, right: Expr, env: Environment)
    requires Ready(cfg, f, st) && op != And && op != Or
    ensures var l := Evaluate(cfg, Deeper(f), Ticked(st), left, env);
            var r := Evaluate(cfg, Deeper(f), l.st, right, env);
            Evaluate(cfg, f, st, Binary(left, op, right), env) ==
              if l.res.Err? then l
              else if r.res.Err? then r
              else Reported(f, r.st, BinaryResult(cfg.lib, l.res.value, op, r.res.value))
  {
    hide Evaluate, BinaryResult;
    var e, l := Binary(left, op, right), Evaluate(cfg, Deeper(f), Ticked(st), left, env);
    var r := Evaluate(cfg, Deeper(f), l.st, right, env);
    if l.res.Err? {
      OperandFails(cfg, f, [Ticked(st)], e, [], env, st, l);
    } else if r.res.Err? {
      OperandFails(cfg, f, [Ticked(st), l.st], e, [l.res.value], env, st, r);
    } else {
      StrictRuns(cfg, f, [Ticked(st), l.st, r.st], e, [l.res.value, r.res.value], env, st);
    }
  }

  /** `&&` is decided by false and `||` by true; otherwise the right operand, which must be a boolean too, is the result. */
  lemma ShortCircuits(cfg: Config, f: Frame, st: State, left: Expr, op: BinaryOp, right: Expr, env: Environment)
    requires Ready(cfg, f, st) && (op == And || op == Or)
    ensures var l := Evaluate(cfg, Deeper(f), Ticked(st), left, env);
            var r := Evaluate(cfg, Deeper(f), l.st, right, env);
            Evaluate(cfg, f, st, Binary(left, op, right), env) ==
              if l.res.Err? then l
              else if l.res.value == BooleanValue(op == Or) then l
              else if l.res.value != BooleanValue(op == And)
              then Out(l.st, Err(RuntimeError(ExpectedBoolean(l.res.value.KindName()), f.stack, f.span)))
              else if r.res.Err? || r.res.value.BooleanValue? then r
              else Out(r.st, Err(RuntimeError(ExpectedBoolean(r.res.value.KindName()), f.stack, f.span)))
  {
    hide Evaluate, Logical;
    EvaluateSteps(cfg, f, st, Binary(left, op, right), env);
    LogicalSteps(cfg, Deeper(f), Ticked(st), left, op, right, env);
  }

  // ----- parts of values -----

  /** What a key finds in a value. */
  predicate Finds(owner: Value, key: string, r: Result<Value, Message>) {
    match owner
    case Record(_, _, name, fields) => r == if key in fields then Ok(fields[key]) else Err(NoField(name, key))
    case ObjectValue(fields) => r == if key in fields then Ok(fields[key]) else Err(NoKey(key))
    case _ => r == Err(InvalidAccess(owner.KindName()))
  }

  /** What an integer finds: elements and bytes count from zero. */
  predicate Counts(owner: Value, i: int, r: Result<Value, Message>) {
    match owner
    case ArrayValue(elements) =>
      r == if i < 0 then Err(NegativeIndex)
           else if i >= |elements| then Err(IndexOutOfBounds(i, |elements|)) else Ok(elements[i])
    case BytesValue(bytes) =>
      if i < 0 then r == Err(NegativeIndex)
      else if i >= |bytes| then r == Err(IndexOutOfBounds(i, |bytes|))
      else r.Ok? && r.value.IntegerValue? && r.value.integer == bytes[i]
    case _ => r == Err(InvalidAccess(owner.KindName()))
  }

  lemma PropertyFinds(cfg: Config, f: Frame, st: State, owner: Expr, name: string, env: Environment)
    requires Ready(cfg, f, st)
    ensures var o := Evaluate(cfg, Deeper(f), Ticked(st), owner, env);
            var p := Evaluate(cfg, f, st, Property(owner, name), env);
            if o.res.Err? then p == o
            else exists r :: Finds(o.res.value, name, r) && p == Reported(f, o.st, r)
  {
    hide Evaluate;
    var e, o := Property(owner, name), Evaluate(cfg, Deeper(f), Ticked(st), owner, env);
    if o.res.Err? {
      OperandFails(cfg, f, [Ticked(st)], e, [], env, st, o);
    } else {
      StrictRuns(cfg, f, [Ticked(st), o.st], e, [o.res.value], env, st);
      assert Finds(o.res.value, name, Get(o.res.value, Member(name)));
    }
  }

  /** Indexing by a string is property access, by an integer counting; nothing else is an index. */
  lemma IndexFinds(cfg: Config, f: Frame, st: State, owner: Expr, index: Expr, env: Environment)
    requires Ready(cfg, f, st)
    ensures var o := Evaluate(cfg, Deeper(f), Ticked(st), owner, env);
            var i := Evaluate(cfg, Deeper(f), o.st, index, env);
            var p := Evaluate(cfg, f, st, Index(owner, index), env);
            if o.res.Err? then p == o
            else if i.res.Err? then p == i
            else exists r :: Indexes(o.res.value, i.res.value, r) && p == Reported(f, i.st, r)
  {
    hide Evaluate;
    var e, o := Index(owner, index), Evaluate(cfg, Deeper(f), Ticked(st), owner, env);
    var i := Evaluate(cfg, Deeper(f), o.st, index, env);
    if o.res.Err? {
      OperandFails(cfg, f, [Ticked(st)], e, [], env, st, o);
    } else if i.res.Err? {
      OperandFails(cfg, f, [Ticked(st), o.st], e, [o.res.value], env, st, i);
    } else {
      StrictRuns(cfg, f, [Ticked(st), o.st, i.st], e, [o.res.value, i.res.value], env, st);
      assert Indexes(o.res.value, i.res.value, ElementResult(o.res.value, i.res.value));
    }
  }

  predicate Indexes(owner: Value, index: Value, r: Result<Value, Message>) {
    if owner.BytesValue? && !index.IntegerValue? then r == Err(InvalidOperand(index.KindName()))
    else
      match index
      case IntegerValue(i) => Counts(owner, i, r)
      case StringValue(key) => Finds(owner, key, r)
      case _ => r == Err(InvalidAccess(owner.KindName()))
  }
}
