/** The per-program table of named record types and the search for required cycles (src/types.rs). */
module Types {
  import opened Wrappers
  import opened Ast

  datatype ResolvedType = Primitive(primitive: PrimitiveType) | Named(id: nat)

  datatype TypeDef = TypeDef(name: string, fields: seq<TypeField>)

  function FromName(name: string): Option<PrimitiveType> {
    if name == "int" then Some(Int)
    else if name == "float" then Some(FloatType)
    else if name == "bool" then Some(Bool)
    else if name == "string" then Some(StringType)
    else if name == "duration" then Some(DurationType)
    else if name == "bytes" then Some(Bytes)
    else None
  }

  function PrimitiveName(p: PrimitiveType): (name: string)
    ensures FromName(name) == Some(p)
  {
    match p
    case Int => "int"
    case FloatType => "float"
    case Bool => "bool"
    case StringType => "string"
    case DurationType => "duration"
    case Bytes => "bytes"
  }

  /** The first definition with this name, counting from `from`. */
  function Find(types: seq<TypeDef>, name: string, from: nat := 0): (found: Option<nat>)
    ensures found.Some? ==> from <= found.value < |types| && types[found.value].name == name
    ensures found.Some? ==> forall i | from <= i < found.value :: types[i].name != name
    ensures found.None? ==> forall i | from <= i < |types| :: types[i].name != name
    decreases |types| - from
  {
    if from >= |types| then None
    else if types[from].name == name then Some(from)
    else Find(types, name, from + 1)
  }

  /** Primitive names win over declared ones. */
  function Resolve(types: seq<TypeDef>, name: string): (resolved: Option<ResolvedType>)
    ensures resolved.Some? && resolved.value.Named? ==> resolved.value.id < |types|
  {
    var primitive := FromName(name);
    if primitive.Some? then Some(Primitive(primitive.value))
    else
      var found := Find(types, name);
      if found.Some? then Some(Named(found.value)) else None
  }

  function ResolveAnnotation(types: seq<TypeDef>, annotation: Option<TypeAnnotation>): (resolved: Option<ResolvedType>)
    ensures resolved.Some? ==> InRange(types, resolved.value)
  {
    if annotation.Some? then Resolve(types, annotation.value.name) else None
  }

  predicate InRange(types: seq<TypeDef>, t: ResolvedType) {
    t.Named? ==> t.id < |types|
  }

  function TypeName(types: seq<TypeDef>, t: ResolvedType): string
    requires InRange(types, t)
  {
    match t
    case Primitive(p) => PrimitiveName(p)
    case Named(id) => types[id].name
  }

  /** The first field with this key. */
  function FindField(fields: seq<TypeField>, key: string): (found: Option<TypeField>)
    ensures found.Some? ==> found.value in fields && found.value.name == key
    ensures found.None? ==> forall f | f in fields :: f.name != key
  {
    if fields == [] then None
    else if fields[0].name == key then Some(fields[0])
    else FindField(fields[1..], key)
  }

  /** The declared type of a field, if the field exists and its annotation resolves. */
  function FieldType(types: seq<TypeDef>, fields: seq<TypeField>, key: string): (t: Option<ResolvedType>)
    ensures t.Some? ==> InRange(types, t.value)
  {
    var field := FindField(fields, key);
    if field.Some? then Resolve(types, field.value.annotation.name) else None
  }

  /** Only the first top-level declaration of a name is entered. */
  function Definitions(statements: seq<Stmt>): seq<TypeDef> {
    if statements == [] then []
    else
      var front := Definitions(statements[..|statements| - 1]);
      var last := statements[|statements| - 1].Unspanned();
      if last.TypeDecl? && Find(front, last.name).None? then front + [TypeDef(last.name, last.fields)]
      else front
  }

  method NewRegistry(statements: seq<Stmt>) returns (definitions: seq<TypeDef>)
    ensures definitions == Definitions(statements)
  {
    definitions := [];
    for i := 0 to |statements|
      invariant definitions == Definitions(statements[..i])
    {
      var statement := statements[i].Unspanned();
      assert statements[..i + 1][..i] == statements[..i];
      if statement.TypeDecl? && Find(definitions, statement.name).None? {
        definitions := definitions + [TypeDef(statement.name, statement.fields)];
      }
    }
    assert statements[..|statements|] == statements;
  }

  /** Names are never repeated, so every definition is the one its name resolves to. */
  ghost predicate DistinctNames(types: seq<TypeDef>) {
    forall i, j | 0 <= i < j < |types| :: types[i].name != types[j].name
  }

  lemma {:induction false} DefinitionsDistinct(statements: seq<Stmt>)
    ensures DistinctNames(Definitions(statements))
  {
    if statements != [] {
      DefinitionsDistinct(statements[..|statements| - 1]);
    }
  }

  // ----- required cycles -----

  /** A record of type `a` must contain a record of type `b`. */
  ghost predicate Requires(types: seq<TypeDef>, a: nat, b: nat) {
    a < |types| && exists i | 0 <= i < |types[a].fields| ::
      Resolve(types, types[a].fields[i].annotation.name) == Some(Named(b))
  }

  ghost predicate IsPath(types: seq<TypeDef>, path: seq<nat>) {
    |path| >= 2 && forall i | 0 <= i < |path| - 1 :: Requires(types, path[i], path[i + 1])
  }

  /** `b` is reached from `a` over a nonempty path of named fields. */
  ghost predicate Reaches(types: seq<TypeDef>, a: nat, b: nat) {
    exists path :: IsPath(types, path) && path[0] == a && path[|path| - 1] == b
  }

  lemma ReachesStep(types: seq<TypeDef>, a: nat, b: nat)
    requires Requires(types, a, b)
    ensures Reaches(types, a, b)
  {
    assert IsPath(types, [a, b]);
  }

  lemma ReachesTransitive(types: seq<TypeDef>, a: nat, b: nat, c: nat)
    requires Reaches(types, a, b) && Reaches(types, b, c)
    ensures Reaches(types, a, c)
  {
    var p :| IsPath(types, p) && p[0] == a && p[|p| - 1] == b;
    var q :| IsPath(types, q) && q[0] == b && q[|q| - 1] == c;
    var r := p + q[1..];
    forall i | 0 <= i < |r| - 1
      ensures Requires(types, r[i], r[i + 1])
    {
      if i >= |p| - 1 {
        assert r[i] == q[i - (|p| - 1)] && r[i + 1] == q[i - (|p| - 1) + 1];
      }
    }
    assert IsPath(types, r);
  }

  /** A set closed under required fields keeps every path that starts in it. */
  lemma {:induction false} ClosedKeepsPath(types: seq<TypeDef>, closed: set<nat>, path: seq<nat>, k: nat)
    requires forall a, b | a in closed && Requires(types, a, b) :: b in closed
    requires IsPath(types, path) && path[0] in closed && k < |path|
    ensures path[k] in closed
  {
    if k > 0 {
      ClosedKeepsPath(types, closed, path, k - 1);
      assert Requires(types, path[k - 1], path[k]);
    }
  }

  /** What the search knows: everything found is reachable and nothing expanded leads back. */
  ghost predicate Explored(types: seq<TypeDef>, start: nat, pending: seq<nat>, seen: set<nat>) {
    && (start in seen || start in pending)
    && (forall a | a in pending :: a < |types| && (a == start || Reaches(types, start, a)))
    && (forall a | a in seen :: a < |types| && (a == start || Reaches(types, start, a)))
    && (forall a, b | a in seen && Requires(types, a, b) :: b != start && (b in seen || b in pending))
  }

  /** The inner loop: queue every required type of `id` unless one of them is `start`. */
  method QueueFields(types: seq<TypeDef>, start: nat, id: nat, pending: seq<nat>) returns (found: bool, queued: seq<nat>)
    requires id < |types|
    ensures found <==> Requires(types, id, start)
    ensures pending <= queued
    ensures forall k | |pending| <= k < |queued| :: queued[k] < |types| && Requires(types, id, queued[k])
    ensures !found ==> forall b | Requires(types, id, b) :: b in queued
  {
    queued := pending;
    var fields := types[id].fields;
    for i := 0 to |fields|
      invariant pending <= queued
      invariant forall k | |pending| <= k < |queued| :: queued[k] < |types| && Requires(types, id, queued[k])
      invariant forall k | 0 <= k < i :: var next := Resolve(types, fields[k].annotation.name);
                  next.Some? && next.value.Named? ==> next.value.id != start && next.value.id in queued
    {
      var next := Resolve(types, fields[i].annotation.name);
      if next.Some? && next.value.Named? {
        assert Requires(types, id, next.value.id);
        if next.value.id == start {
          return true, queued;
        }
        queued := queued + [next.value.id];
      }
    }
    return false, queued;
  }

  lemma ExpandKeepsExplored(types: seq<TypeDef>, start: nat, pending: seq<nat>, seen: set<nat>, id: nat, queued: seq<nat>)
    requires Explored(types, start, pending + [id], seen)
    requires pending <= queued
    requires forall k | |pending| <= k < |queued| :: queued[k] < |types| && Requires(types, id, queued[k])
    requires !Requires(types, id, start)
    requires forall b | Requires(types, id, b) :: b in queued
    ensures Explored(types, start, queued, seen + {id})
  {
    assert id in pending + [id];
    assert forall a | a in pending :: a in pending + [id] && a in queued;
    assert forall a | a in pending + [id] :: a in pending || a == id;
    forall a | a in queued
      ensures a < |types| && (a == start || Reaches(types, start, a))
    {
      var k :| 0 <= k < |queued| && queued[k] == a;
      if k < |pending| {
        assert a == pending[k];
      } else {
        ReachesStep(types, id, a);
        if id != start {
          ReachesTransitive(types, start, id, a);
        }
      }
    }
  }

  /**
   * The worklist search. It may queue a type more than once; the `seen` set
   * makes it terminate all the same.
   */
  method HasRequiredCycle(types: seq<TypeDef>, name: string) returns (found: bool)
    ensures found <==> var t := Resolve(types, name);
              t.Some? && t.value.Named? && Reaches(types, t.value.id, t.value.id)
  {
    var resolved := Resolve(types, name);
    if resolved.None? || resolved.value.Primitive? {
      return false;
    }
    var start := resolved.value.id;
    var pending: seq<nat> := [start];
    var seen: set<nat> := {};
    while pending != []
      invariant Explored(types, start, pending, seen)
      invariant |seen| <= |types|
      decreases |types| - |seen|, |pending|
    {
      var id := pending[|pending| - 1];
      var rest := pending[..|pending| - 1];
      assert pending == rest + [id] && id in pending;
      if id in seen {
        assert forall a | a in pending :: a in rest || a == id;
        assert forall a | a in rest :: a in pending;
        pending := rest;
      } else {
        var cyclic, queued := QueueFields(types, start, id, rest);
        if cyclic {
          ReachesStep(types, id, start);
          if id != start {
            ReachesTransitive(types, start, id, start);
          }
          return true;
        }
        ExpandKeepsExplored(types, start, rest, seen, id, queued);
        pending, seen := queued, seen + {id};
        SeenBounded(types, seen);
      }
    }
    NothingLeadsBack(types, start, seen);
    return false;
  }

  lemma NothingLeadsBack(types: seq<TypeDef>, start: nat, seen: set<nat>)
    requires Explored(types, start, [], seen)
    ensures !Reaches(types, start, start)
  {
    if Reaches(types, start, start) {
      var path :| IsPath(types, path) && path[0] == start && path[|path| - 1] == start;
      ClosedKeepsPath(types, seen, path, |path| - 2);
    }
  }

  ghost function UpTo(n: nat): (ids: set<nat>)
    ensures forall i: nat :: i in ids <==> i < n
    ensures |ids| == n
  {
    if n == 0 then {} else UpTo(n - 1) + {n - 1}
  }

  lemma SeenBounded(types: seq<TypeDef>, seen: set<nat>)
    requires forall a | a in seen :: a < |types|
    ensures |seen| <= |types|
  {
    SubsetSize(seen, UpTo(|types|));
  }

  lemma {:induction false} SubsetSize<T>(small: set<T>, big: set<T>)
    requires small <= big
    ensures |small| <= |big|
    ensures small != big ==> |small| < |big|
  {
    assert big == small + (big - small);
    assert |big| == |small| + |big - small|;
  }

  // ----- a well-founded rank on the types -----

  ghost function Below(types: seq<TypeDef>, a: nat): set<nat> {
    set b: nat | b < |types| && Reaches(types, a, b)
  }

  ghost function Rank(types: seq<TypeDef>, a: nat): nat {
    |Below(types, a)|
  }

  ghost predicate Acyclic(types: seq<TypeDef>) {
    forall a: nat | a < |types| :: !Reaches(types, a, a)
  }

  /** A required field leads to a type of smaller rank, unless that type requires itself. */
  lemma RankDecreases(types: seq<TypeDef>, a: nat, b: nat)
    requires Requires(types, a, b) && b < |types| && !Reaches(types, b, b)
    ensures Rank(types, b) < Rank(types, a)
  {
    ReachesStep(types, a, b);
    forall c | c in Below(types, b)
      ensures c in Below(types, a)
    {
      ReachesTransitive(types, a, b, c);
    }
    assert b in Below(types, a) && b !in Below(types, b);
    SubsetSize(Below(types, b), Below(types, a));
  }
}
