/**
 * Why the static types are right, one node at a time (src/semantic/types.rs).
 * If the operands of a node have the types the analyzer knows for them, its
 * result has the type the analyzer knows for the node: record names come from
 * constructors and annotated fields, and arithmetic on two values of one kind
 * stays in that kind. A static name and a runtime check then never disagree,
 * and a constructor without errors builds a record that has exactly its
 * declared fields, each of its declared type.
 */
module Typing {
  import opened Ast
  import opened Types
  import opened Values
  import opened Operations
  import opened Analysis
  import opened Evaluation

  /** A declaration that the analyzer accepts. */
  ghost predicate DefinitionOk(types: seq<TypeDef>, d: TypeDef) {
    && !IsReserved(d.name)
    && (forall i | 0 <= i < |d.fields| :: Resolve(types, d.fields[i].annotation.name).Some?)
    && (forall i, j | 0 <= i < j < |d.fields| :: d.fields[i].name != d.fields[j].name)
  }

  ghost predicate RegistryOk(types: seq<TypeDef>) {
    DistinctNames(types) && forall i | 0 <= i < |types| :: DefinitionOk(types, types[i])
  }

  /** The static name of a value's type. */
  ghost predicate HasName(types: seq<TypeDef>, identity: nat, v: Value, n: string) {
    match v
    case Record(owner, id, _, _) => owner == identity && id < |types| && n == types[id].name
    case IntegerValue(_) => n == "int"
    case FloatValue(_) => n == "float"
    case StringValue(_) => n == "string"
    case BytesValue(_) => n == "bytes"
    case Connection(_) => n == "connection"
    case BooleanValue(_) => n == "bool"
    case NullValue => n == "null"
    case DurationValue(_) => n == "duration"
    case ArrayValue(_) => n == "array"
    case ObjectValue(_) => n == "object"
    case FunctionValue(_) => n == "function"
    case PrintValue => n == "function"
    case BuiltinValue(_) => n == "function"
  }

  /**
   * Static and runtime type tests agree: a value whose static name is known
   * passes a runtime check exactly when the names are equal. So a reported
   * mismatch is a check that would fail, and a known match never fails.
   */
  lemma NameDecidesCheck(types: seq<TypeDef>, identity: nat, v: Value, n: string, t: ResolvedType)
    requires RegistryOk(types) && InRange(types, t) && HasName(types, identity, v, n)
    ensures HasType(identity, t, v) <==> n == TypeName(types, t)
  {
    if t.Named? {
      assert DefinitionOk(types, types[t.id]);
    }
    if v.Record? {
      assert DefinitionOk(types, types[v.typeId]);
    }
  }

  lemma TypeHasName(types: seq<TypeDef>, identity: nat, v: Value, t: ResolvedType)
    requires InRange(types, t) && HasType(identity, t, v)
    ensures HasName(types, identity, v, TypeName(types, t))
  {
  }

  lemma ResolvedName(types: seq<TypeDef>, n: string)
    requires Resolve(types, n).Some?
    ensures TypeName(types, Resolve(types, n).value) == n
  {
  }

  /** What a reserved static name says about a value. */
  lemma NameDecidesKind(types: seq<TypeDef>, identity: nat, v: Value, n: string)
    requires RegistryOk(types) && HasName(types, identity, v, n)
    ensures n == "int" <==> v.IntegerValue?
    ensures n == "float" <==> v.FloatValue?
    ensures n == "string" <==> v.StringValue?
    ensures n == "bytes" <==> v.BytesValue?
    ensures n == "duration" <==> v.DurationValue?
  {
    NameDecidesCheck(types, identity, v, n, Primitive(Int));
    NameDecidesCheck(types, identity, v, n, Primitive(FloatType));
    NameDecidesCheck(types, identity, v, n, Primitive(StringType));
    NameDecidesCheck(types, identity, v, n, Primitive(Bytes));
    NameDecidesCheck(types, identity, v, n, Primitive(DurationType));
  }

  /** What evaluating `e` promises about its value. */
  ghost predicate Describes(types: seq<TypeDef>, identity: nat, scopes: Scopes, e: Expr, v: Value) {
    && WellTyped(types, identity, v)
    && (KnownType(types, scopes, e).Some? ==> HasName(types, identity, v, KnownType(types, scopes, e).value))
    && (e.Unspanned().StringLit? ==> v == StringValue(e.Unspanned().text))
  }

  ghost predicate DescribesAll(types: seq<TypeDef>, identity: nat, scopes: Scopes, es: seq<Expr>, values: seq<Value>) {
    |values| <= |es| && forall i | 0 <= i < |values| :: Describes(types, identity, scopes, es[i], values[i])
  }

  ghost predicate Checked(cfg: Config, check: Check, values: seq<Value>) {
    forall i | 0 <= i < |values| :: ElementError(cfg, check, i, values[i]).None?
  }

  /** Messages that may reach the user of an accepted program from anywhere. */
  predicate Harmless(m: Message) {
    && !m.UndefinedName? && !m.LoopControlExitsFunction? && !m.BreakExitsIteration? && !m.ReturnExitsIteration?
    && !m.UnknownNamedType? && !m.Panic? && !m.Uninitialized? && !m.ReadOnlyCapture? && !m.Iteration?
    && !m.MissingField?
  }

  // ----- errors of a node cover its operands -----

  lemma {:induction false} OperandClean(c: Context, e: Expr, lo: nat, hi: nat, k: nat)
    requires hi <= |Operands(e)| && OperandErrors(c, e, lo, hi) == [] && lo <= k < hi
    ensures ExpressionErrors(c, Operands(e)[k]) == []
    decreases hi
  {
    if k < hi - 1 {
      OperandClean(c, e, lo, hi - 1, k);
    }
  }

  lemma {:induction false} FieldClean(c: Context, e: Expr, n: nat, k: nat)
    requires e.Construct? && n <= |e.fields| && FieldErrors(c, e, n) == [] && k < n
    ensures ExpressionErrors(c, Operands(e)[k]) == [] && FieldCheckErrors(c, e, k) == []
    decreases n
  {
    if k < n - 1 {
      FieldClean(c, e, n - 1, k);
    }
  }

  /** A clean strict node has clean operands. */
  lemma OperandsClean(c: Context, e: Expr, k: nat)
    requires IsStrict(e) && ExpressionErrors(c, e) == [] && k < |Operands(e)|
    ensures ExpressionErrors(c, Operands(e)[k]) == []
  {
    if e.Construct? {
      FieldClean(c, e, |e.fields|, k);
    } else if e.Call? {
      if k == 0 {
        OperandClean(c, e, 0, 1, 0);
      } else {
        OperandClean(c, e, 1, |Operands(e)|, k);
      }
    } else if e.Binary? || e.Property? || e.Index? {
    } else {
      OperandClean(c, e, 0, |Operands(e)|, k);
    }
  }

  lemma {:induction false} MissingClean(c: Context, e: Expr, n: nat, k: nat)
    requires e.Construct? && n <= |RequiredFields(c, e.name)| && MissingErrors(c, e, n) == [] && k < n
    ensures RequiredFields(c, e.name)[k].name in Keys(e.fields)
    decreases n
  {
    if k < n - 1 {
      MissingClean(c, e, n - 1, k);
    }
  }

  // ----- construction -----

  /** A clean constructor mentions exactly the declared fields. */
  lemma ConstructKeys(cfg: Config, c: Context, e: Expr, key: string)
    requires c.types == cfg.types && e.Construct? && ExpressionErrors(c, e) == []
    ensures ConstructedId(cfg, e.name).Some?
    ensures key in Keys(e.fields) <==> FindField(cfg.types[ConstructedId(cfg, e.name).value].fields, key).Some?
  {
    var id := ConstructedId(cfg, e.name).value;
    var declared := cfg.types[id].fields;
    if key in Keys(e.fields) {
      var i :| 0 <= i < |e.fields| && Keys(e.fields)[i] == key;
      FieldClean(c, e, |e.fields|, i);
    }
    if FindField(declared, key).Some? {
      var k :| 0 <= k < |declared| && declared[k] == FindField(declared, key).value;
      MissingClean(c, e, |declared|, k);
    }
  }

  /** A field that passed its check has its declared type. */
  lemma CheckedField(cfg: Config, id: nat, keys: seq<string>, values: seq<Value>, i: nat)
    requires RegistryOk(cfg.types) && id < |cfg.types| && |keys| == |values| && i < |keys|
    requires Checked(cfg, FieldContracts(id, keys), values)
    requires FindField(cfg.types[id].fields, keys[i]).Some?
    ensures var t := FieldType(cfg.types, cfg.types[id].fields, keys[i]); t.Some? && HasType(cfg.identity, t.value, values[i])
  {
    var declared := cfg.types[id].fields;
    var k :| 0 <= k < |declared| && declared[k] == FindField(declared, keys[i]).value;
    assert DefinitionOk(cfg.types, cfg.types[id]);
    assert ElementError(cfg, FieldContracts(id, keys), i, values[i]).None?;
  }

  /** A clean constructor whose fields passed their runtime checks builds a record that keeps its contract. */
  lemma ConstructShape(cfg: Config, c: Context, e: Expr, values: seq<Value>)
    requires RegistryOk(cfg.types) && c.types == cfg.types
    requires e.Construct? && ExpressionErrors(c, e) == [] && |values| == |Operands(e)|
    requires Checked(cfg, CheckOf(cfg, e), values)
    ensures PureResult(cfg, e, values).Ok?
    ensures RecordShape(cfg.types, cfg.identity, PureResult(cfg, e, values).value)
  {
    ConstructKeys(cfg, c, e, "");
    var id := ConstructedId(cfg, e.name).value;
    var keys := Keys(e.fields);
    var fields := ToMap(keys, values);
    forall key
      ensures key in fields <==> FindField(cfg.types[id].fields, key).Some?
    {
      ConstructKeys(cfg, c, e, key);
    }
    forall key | key in fields
      ensures var t := FieldType(cfg.types, cfg.types[id].fields, key); t.Some? && HasType(cfg.identity, t.value, fields[key])
    {
      var i :| 0 <= i < |keys| && keys[i] == key && fields[key] == values[i];
      CheckedField(cfg, id, keys, values, i);
    }
  }

  // ----- results of strict nodes -----

  lemma ArithmeticNamed(types: seq<TypeDef>, identity: nat, lib: Library, a: Value, l: string, op: BinaryOp, b: Value, r: string)
    requires RegistryOk(types) && HasName(types, identity, a, l) && HasName(types, identity, b, r)
    requires !IsComparison(op) && !IsLogical(op)
    requires KnownArithmetic(op, l, r).Some? && BinaryResult(lib, a, op, b).Ok?
    ensures HasName(types, identity, BinaryResult(lib, a, op, b).value, KnownArithmetic(op, l, r).value)
  {
    NameDecidesKind(types, identity, a, l);
    NameDecidesKind(types, identity, b, r);
  }

  /** The value found in a field has the field's declared type. */
  lemma FieldNamed(types: seq<TypeDef>, identity: nat, scopes: Scopes, owner: Expr, name: string, v: Value)
    requires RegistryOk(types) && Describes(types, identity, scopes, owner, v)
    requires Get(v, Member(name)).Ok? && KnownField(types, scopes, owner, name).Some?
    ensures HasName(types, identity, Get(v, Member(name)).value, KnownField(types, scopes, owner, name).value)
  {
    var known := KnownType(types, scopes, owner).value;
    var t := Resolve(types, known).value;
    ResolvedName(types, known);
    NameDecidesCheck(types, identity, v, known, t);
    var field := FindField(types[t.id].fields, name).value;
    ResolvedName(types, field.annotation.name);
    TypeHasName(types, identity, Get(v, Member(name)).value, FieldType(types, types[t.id].fields, name).value);
  }

  /** `x["k"]` with a literal key is typed like `x.k`. */
  lemma IndexNamed(types: seq<TypeDef>, identity: nat, scopes: Scopes, e: Expr, v: Value, index: Value)
    requires RegistryOk(types) && e.Index?
    requires Describes(types, identity, scopes, e.owner, v) && Describes(types, identity, scopes, e.index, index)
    requires ElementResult(v, index).Ok? && KnownType(types, scopes, e).Some?
    ensures HasName(types, identity, ElementResult(v, index).value, KnownType(types, scopes, e).value)
  {
    var name := e.index.Unspanned().text;
    KnownFieldOwner(types, identity, scopes, e.owner, name, v);
    assert Get(v, At(index)) == Get(v, Member(name));
    FieldNamed(types, identity, scopes, e.owner, name, v);
  }

  lemma PureHarmless(cfg: Config, e: Expr, values: seq<Value>)
    requires IsStrict(e) && !e.Call? && !e.Effect? && |values| == |Operands(e)| && Refusal(cfg, e).None?
    ensures PureResult(cfg, e, values).Err? ==> Harmless(PureResult(cfg, e, values).error)
  {
  }

  /** A map zipped from keys and values holds only those values. */
  lemma MapWellTyped(types: seq<TypeDef>, identity: nat, keys: seq<string>, values: seq<Value>)
    requires |keys| == |values| && forall i | 0 <= i < |values| :: WellTyped(types, identity, values[i])
    ensures var fields := ToMap(keys, values); forall key | key in fields :: WellTyped(types, identity, fields[key])
  {
    var fields := ToMap(keys, values);
    forall key | key in fields
      ensures WellTyped(types, identity, fields[key])
    {
      var i :| 0 <= i < |keys| && keys[i] == key && fields[key] == values[i];
    }
  }

  lemma PureWellTyped(cfg: Config, c: Context, e: Expr, values: seq<Value>)
    requires RegistryOk(cfg.types) && c.types == cfg.types
    requires IsStrict(e) && ExpressionErrors(c, e) == [] && |values| == |Operands(e)|
    requires DescribesAll(cfg.types, cfg.identity, c.scopes, Operands(e), values) && Checked(cfg, CheckOf(cfg, e), values)
    requires PureResult(cfg, e, values).Ok?
    ensures WellTyped(cfg.types, cfg.identity, PureResult(cfg, e, values).value)
  {
    hide ExpressionErrors, KnownType, HasName, Checked, RecordShape, RegistryOk;
    assert forall i | 0 <= i < |values| :: WellTyped(cfg.types, cfg.identity, values[i]);
    if e.Construct? {
      ConstructShape(cfg, c, e, values);
      MapWellTyped(cfg.types, cfg.identity, Keys(e.fields), values);
    } else if e.ObjectLit? {
      MapWellTyped(cfg.types, cfg.identity, Keys(e.fields), values);
    } else if e.Property? {
      GetWellTyped(cfg.types, cfg.identity, values[0], Member(e.name));
    } else if e.Index? && !values[0].BytesValue? {
      GetWellTyped(cfg.types, cfg.identity, values[0], At(values[1]));
    }
  }

  /** The central step: a known static type is the type of the computed value. */
  lemma PureNamed(cfg: Config, c: Context, e: Expr, values: seq<Value>)
    requires RegistryOk(cfg.types) && c.types == cfg.types
    requires IsStrict(e) && !e.Call? && |values| == |Operands(e)|
    requires DescribesAll(cfg.types, cfg.identity, c.scopes, Operands(e), values)
    requires PureResult(cfg, e, values).Ok? && KnownType(c.types, c.scopes, e).Some?
    ensures HasName(cfg.types, cfg.identity, PureResult(cfg, e, values).value, KnownType(c.types, c.scopes, e).value)
  {
    var types, identity, scopes := cfg.types, cfg.identity, c.scopes;
    if e.Construct? {
      ResolvedName(types, e.name);
    } else if e.Unary? && e.unary.Negate? {
      NameDecidesKind(types, identity, values[0], KnownType(types, scopes, e.operand).value);
    } else if e.Binary? && !IsComparison(e.binary) {
      var l, r := KnownType(types, scopes, e.left).value, KnownType(types, scopes, e.right).value;
      ArithmeticNamed(types, identity, cfg.lib, values[0], l, e.binary, values[1], r);
    } else if e.Property? {
      FieldNamed(types, identity, scopes, e.owner, e.name, values[0]);
    } else if e.Index? {
      IndexNamed(types, identity, scopes, e, values[0], values[1]);
    }
  }

  /** Only records have a known field. */
  lemma KnownFieldOwner(types: seq<TypeDef>, identity: nat, scopes: Scopes, owner: Expr, name: string, v: Value)
    requires RegistryOk(types) && Describes(types, identity, scopes, owner, v)
    requires KnownField(types, scopes, owner, name).Some?
    ensures v.Record?
  {
    var known := KnownType(types, scopes, owner).value;
    var t := Resolve(types, known).value;
    ResolvedName(types, known);
    NameDecidesCheck(types, identity, v, known, t);
  }

  /** All that evaluation needs about a strict node other than a call or an effect. */
  lemma PureDescribed(cfg: Config, c: Context, e: Expr, values: seq<Value>)
    requires RegistryOk(cfg.types) && c.types == cfg.types
    requires IsStrict(e) && !e.Call? && !e.Effect? && ExpressionErrors(c, e) == [] && |values| == |Operands(e)|
    requires DescribesAll(cfg.types, cfg.identity, c.scopes, Operands(e), values) && Checked(cfg, CheckOf(cfg, e), values)
    requires PureResult(cfg, e, values).Ok?
    ensures Describes(cfg.types, cfg.identity, c.scopes, e, PureResult(cfg, e, values).value)
  {
    PureWellTyped(cfg, c, e, values);
    if KnownType(c.types, c.scopes, e).Some? {
      PureNamed(cfg, c, e, values);
    }
  }
}
