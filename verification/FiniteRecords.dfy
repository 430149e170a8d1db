/** What the cycle check is for: a type that leads to no cycle has a finite record value. */
module FiniteRecords {
  import opened Wrappers
  import opened Ast
  import opened Types
  import opened Values
  import opened Analysis
  import opened Typing
  import opened Programs

  /** Building a record of this type would need a record of a type that contains itself. */
  ghost predicate Doomed(types: seq<TypeDef>, a: nat) {
    exists c: nat :: Reaches(types, c, c) && (c == a || Reaches(types, a, c))
  }

  lemma {:induction false} DoomedRequires(types: seq<TypeDef>, a: nat) returns (b: nat)
    requires Doomed(types, a)
    ensures Requires(types, a, b) && Doomed(types, b)
  {
    var c: nat :| Reaches(types, c, c) && (c == a || Reaches(types, a, c));
    var path :| IsPath(types, path) && path[0] == a && path[|path| - 1] == c;
    b := path[1];
    assert Requires(types, path[0], path[1]);
    if |path| > 2 {
      var rest := path[1..];
      forall i | 0 <= i < |rest| - 1
        ensures Requires(types, rest[i], rest[i + 1])
      {
        assert Requires(types, path[i + 1], path[(i + 1) + 1]);
      }
      assert IsPath(types, rest);
    }
  }

  lemma RequiredIsDoomed(types: seq<TypeDef>, a: nat, b: nat)
    requires Requires(types, a, b) && Doomed(types, b)
    ensures Doomed(types, a)
  {
    var c: nat :| Reaches(types, c, c) && (c == b || Reaches(types, b, c));
    ReachesStep(types, a, b);
    if c != b {
      ReachesTransitive(types, a, b, c);
    }
  }

  /** The field that forces `a` to contain `b`. */
  lemma RequiringField(types: seq<TypeDef>, a: nat, b: nat) returns (key: string)
    requires RegistryOk(types) && Requires(types, a, b)
    ensures FieldType(types, types[a].fields, key) == Some(Named(b)) && FindField(types[a].fields, key).Some?
  {
    var fields := types[a].fields;
    var i :| 0 <= i < |fields| && Resolve(types, fields[i].annotation.name) == Some(Named(b));
    key := fields[i].name;
    assert DefinitionOk(types, types[a]);
    var k :| 0 <= k < |fields| && fields[k] == FindField(fields, key).value;
  }

  /** A record is a finite tree, so it cannot hold a record of every type down an endless path. */
  lemma {:induction false} NoDoomedRecord(types: seq<TypeDef>, identity: nat, a: nat, v: Value)
    requires RegistryOk(types) && Doomed(types, a) && HasType(identity, Named(a), v)
    ensures !WellTyped(types, identity, v)
    decreases v
  {
    if WellTyped(types, identity, v) {
      var b := DoomedRequires(types, a);
      var key := RequiringField(types, a, b);
      assert key in v.fields;
      NoDoomedRecord(types, identity, b, v.fields[key]);
    }
  }

  ghost function FieldNames(fields: seq<TypeField>): set<string> {
    set i | 0 <= i < |fields| :: fields[i].name
  }

  function PrimitiveDefault(p: PrimitiveType): Value {
    match p
    case Int => IntegerValue(0)
    case FloatType => FloatValue(Finite(0.0))
    case Bool => BooleanValue(false)
    case StringType => StringValue("")
    case DurationType => DurationValue(0)
    case Bytes => BytesValue([])
  }

  lemma NotDoomedBelow(types: seq<TypeDef>, a: nat, b: nat)
    requires !Doomed(types, a) && Requires(types, a, b) && b < |types|
    ensures !Doomed(types, b) && Rank(types, b) < Rank(types, a)
  {
    if Doomed(types, b) {
      RequiredIsDoomed(types, a, b);
    }
    if Reaches(types, b, b) {
      assert Doomed(types, b);
    }
    RankDecreases(types, a, b);
  }

  lemma FieldRequires(types: seq<TypeDef>, a: nat, key: string)
    requires RegistryOk(types) && a < |types| && FindField(types[a].fields, key).Some?
    ensures var t := FieldType(types, types[a].fields, key);
            t.Some? && (t.value.Named? ==> Requires(types, a, t.value.id))
  {
    var fields := types[a].fields;
    var k :| 0 <= k < |fields| && fields[k] == FindField(fields, key).value;
    assert DefinitionOk(types, types[a]);
  }

  /** A record built from the defaults of its fields, innermost types first. */
  ghost function DefaultRecord(types: seq<TypeDef>, identity: nat, a: nat): (v: Value)
    requires RegistryOk(types) && a < |types| && !Doomed(types, a)
    ensures HasType(identity, Named(a), v) && WellTyped(types, identity, v)
    decreases Rank(types, a)
  {
    var fields := types[a].fields;
    var contents := map key | key in FieldNames(fields) :: DefaultField(types, identity, a, key);
    Record(identity, a, types[a].name, contents)
  }

  ghost function DefaultField(types: seq<TypeDef>, identity: nat, a: nat, key: string): (v: Value)
    requires RegistryOk(types) && a < |types| && !Doomed(types, a) && key in FieldNames(types[a].fields)
    ensures FindField(types[a].fields, key).Some?
    ensures var t := FieldType(types, types[a].fields, key); t.Some? && HasType(identity, t.value, v)
    ensures WellTyped(types, identity, v)
    decreases Rank(types, a), 0
  {
    FieldRequires(types, a, key);
    var t := FieldType(types, types[a].fields, key).value;
    match t
    case Primitive(p) => PrimitiveDefault(p)
    case Named(b) =>
      NotDoomedBelow(types, a, b);
      DefaultRecord(types, identity, b)
  }

  /** Exactly the types that lead to no cycle have a finite record value. */
  lemma InhabitedIffNotDoomed(types: seq<TypeDef>, identity: nat, a: nat)
    requires RegistryOk(types) && a < |types|
    ensures (exists v :: HasType(identity, Named(a), v) && WellTyped(types, identity, v)) <==> !Doomed(types, a)
  {
    if Doomed(types, a) {
      forall v | HasType(identity, Named(a), v)
        ensures !WellTyped(types, identity, v)
      {
        NoDoomedRecord(types, identity, a, v);
      }
    } else {
      var v := DefaultRecord(types, identity, a);
      assert HasType(identity, Named(a), v) && WellTyped(types, identity, v);
    }
  }

  /** Acceptance makes every declared type usable. */
  lemma AcceptedTypesAreInhabited(statements: seq<Stmt>, identity: nat, a: nat)
    requires Analyze(statements) == [] && a < |Definitions(statements)|
    ensures exists v :: HasType(identity, Named(a), v) && WellTyped(Definitions(statements), identity, v)
  {
    hide Analyze, Definitions, RegistryOk, Reaches, WellTyped;
    var types := Definitions(statements);
    AcceptedTypes(statements);
    if Doomed(types, a) {
      var c: nat :| Reaches(types, c, c) && (c == a || Reaches(types, a, c));
      ReachesInRange(types, c);
    }
    InhabitedIffNotDoomed(types, identity, a);
  }

  lemma ReachesInRange(types: seq<TypeDef>, c: nat)
    requires Reaches(types, c, c)
    ensures c < |types|
  {
    var path :| IsPath(types, path) && path[0] == c && path[|path| - 1] == c;
    assert Requires(types, path[0], path[1]);
  }
}
