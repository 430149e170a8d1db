/** Runtime values, their types, and nested access (src/runtime/value.rs, src/interpreter/expression.rs). */
module Values {
  import opened Wrappers
  import opened Ast
  import opened Types

  datatype Builtin =
    | BytesOf | EncodeUtf8 | DecodeUtf8 | ByteLen | Close | SetTimeout | Accept | LocalAddress

  datatype Value =
    | Record(identity: nat, typeId: nat, typeName: string, fields: map<string, Value>)
    | IntegerValue(integer: Integer)
    | FloatValue(float: Float)
    | StringValue(text: string)
    | BytesValue(bytes: seq<Byte>)
    | Connection(handle: nat)
    | BooleanValue(boolean: bool)
    | NullValue
    | DurationValue(duration: Duration)
    | ArrayValue(elements: seq<Value>)
    | ObjectValue(fields: map<string, Value>)
    | FunctionValue(id: nat)
    | PrintValue
    | BuiltinValue(builtin: Builtin)
  {
    /** The name used in error messages. */
    function KindName(): string {
      match this
      case Record(_, _, name, _) => name
      case IntegerValue(_) => "integer"
      case FloatValue(_) => "float"
      case StringValue(_) => "string"
      case BytesValue(_) => "bytes"
      case Connection(_) => "connection"
      case BooleanValue(_) => "boolean"
      case NullValue => "null"
      case DurationValue(_) => "duration"
      case ArrayValue(_) => "array"
      case ObjectValue(_) => "object"
      case FunctionValue(_) => "function"
      case PrintValue => "function"
      case BuiltinValue(_) => "function"
    }
  }

  /** What an error says, up to its English wording. */
  datatype Message =
    | StepLimit
    | ExpressionDepth
    | CallDepth
    | WorkerLimit
    | EntryPointParameters
    | UndefinedName(name: string)
    | Uninitialized
    | ExpectedType(expected: string, actual: string)
    | ExpectedBoolean(actual: string)
    | UnknownNamedType(name: string)
    | ImmutableBinding
    | ReadOnlyCapture
    | BadAssignmentRoot
    | NotAnArray(statement: string)
    | InvalidFunctionHandle
    | ArgumentCount(name: string, arity: nat, got: nat)
    | NotCallable(actual: string)
    | LoopControlExitsFunction
    | BreakExitsIteration
    | ReturnExitsIteration
    | Iteration(number: nat, inner: Message)
    | InvalidOperand(actual: string)
    | InvalidOperands(left: string, right: string)
    | IntegerOverflow
    | DurationOverflow
    | DivisionByZero
    | Unordered
    | NotScalar
    | InexactInteger
    | InvalidFloatOperation
    | NotFinite
    | NoField(owner: string, key: string)
    | MissingField(key: string)
    | NoKey(key: string)
    | NegativeIndex
    | IndexOutOfBounds(index: nat, length: nat)
    | InvalidAccess(actual: string)
    | InvalidAssignmentPath
    | ForeignRecord
    | ConfigurationProtocol
    | ConfigurationField(key: string)
    | ExpectedString(what: string)
    | OutputLimit
    | InvalidUtf8(at: nat)
    | Host(text: string)
    | MalformedEffect  // a number of operands that no network expression has
    | Panic  // an index or unwrap the code relies on; never reached by an accepted program

  /** A message without the labels of the parallel iterations it passed through. */
  function Bare(m: Message): Message {
    if m.Iteration? then Bare(m.inner) else m
  }

  // ----- runtime type contracts -----

  /** `check_value_type` for a present annotation. */
  predicate HasType(identity: nat, t: ResolvedType, v: Value) {
    match t
    case Named(id) => v.Record? && v.typeId == id && v.identity == identity
    case Primitive(Int) => v.IntegerValue?
    case Primitive(FloatType) => v.FloatValue?
    case Primitive(Bool) => v.BooleanValue?
    case Primitive(StringType) => v.StringValue?
    case Primitive(DurationType) => v.DurationValue?
    case Primitive(Bytes) => v.BytesValue?
  }

  function CheckValueType(types: seq<TypeDef>, identity: nat, expected: Option<ResolvedType>, v: Value): Option<Message>
    requires expected.Some? ==> InRange(types, expected.value)
  {
    if expected.Some? && !HasType(identity, expected.value, v)
    then Some(ExpectedType(TypeName(types, expected.value), v.KindName()))
    else None
  }

  /** A record of this execution has exactly its declared fields, each of its declared type. */
  ghost predicate RecordShape(types: seq<TypeDef>, identity: nat, v: Value)
    requires v.Record?
  {
    && v.typeId < |types|
    && v.typeName == types[v.typeId].name
    && (forall key :: key in v.fields <==> FindField(types[v.typeId].fields, key).Some?)
    && (forall key | key in v.fields ::
          var t := FieldType(types, types[v.typeId].fields, key);
          t.Some? && HasType(identity, t.value, v.fields[key]))
  }

  /** Every record of this execution inside `v`, at any depth, keeps its contract. */
  ghost predicate WellTyped(types: seq<TypeDef>, identity: nat, v: Value) {
    match v
    case Record(owner, _, _, fields) =>
      && (owner == identity ==> RecordShape(types, identity, v))
      && (forall key | key in fields :: WellTyped(types, identity, fields[key]))
    case ArrayValue(elements) => forall i | 0 <= i < |elements| :: WellTyped(types, identity, elements[i])
    case ObjectValue(fields) => forall key | key in fields :: WellTyped(types, identity, fields[key])
    case _ => true
  }

  // ----- selectors -----

  datatype Selector = Member(key: string) | At(index: Value)

  /** The property key a selector denotes; `x.k` and `x["k"]` are the same place. */
  function KeyOf(selector: Selector): Option<string> {
    match selector
    case Member(key) => Some(key)
    case At(StringValue(key)) => Some(key)
    case _ => None
  }

  function IndexOf(selector: Selector): Option<int> {
    match selector
    case At(IntegerValue(i)) => Some(i)
    case _ => None
  }

  function Get(value: Value, selector: Selector): Result<Value, Message> {
    if value.Record? && KeyOf(selector).Some? then
      var key := KeyOf(selector).value;
      if key in value.fields then Ok(value.fields[key]) else Err(NoField(value.typeName, key))
    else if value.ObjectValue? && KeyOf(selector).Some? then
      var key := KeyOf(selector).value;
      if key in value.fields then Ok(value.fields[key]) else Err(NoKey(key))
    else if value.ArrayValue? && IndexOf(selector).Some? then
      var index := IndexOf(selector).value;
      if index < 0 then Err(NegativeIndex)
      else if index >= |value.elements| then Err(IndexOutOfBounds(index, |value.elements|))
      else Ok(value.elements[index])
    else Err(InvalidAccess(value.KindName()))
  }

  /** The nested update; the code edits the innermost place through a mutable reference. */
  function Set(types: seq<TypeDef>, identity: nat, root: Value, selectors: seq<Selector>, value: Value): Result<Value, Message>
    decreases |selectors|
  {
    if selectors == [] then Ok(value)
    else
      var selector, rest := selectors[0], selectors[1..];
      if root.Record? && KeyOf(selector).Some? then
        var key := KeyOf(selector).value;
        if root.identity != identity then Err(ForeignRecord)
        else if root.typeId >= |types| then Err(Panic)
        else
          var declared := types[root.typeId].fields;
          if FindField(declared, key).None? then Err(NoField(root.typeName, key))
          else
            var mismatch := if rest == [] then CheckValueType(types, identity, FieldType(types, declared, key), value) else None;
            if mismatch.Some? then Err(mismatch.value)
            else if key !in root.fields then Err(MissingField(key))
            else
              match Set(types, identity, root.fields[key], rest, value)
              case Ok(child) => Ok(root.(fields := root.fields[key := child]))
              case Err(message) => Err(message)
      else if root.ObjectValue? && KeyOf(selector).Some? then
        var key := KeyOf(selector).value;
        if rest == [] then Ok(ObjectValue(root.fields[key := value]))
        else if key !in root.fields then Err(NoKey(key))
        else
          match Set(types, identity, root.fields[key], rest, value)
          case Ok(child) => Ok(ObjectValue(root.fields[key := child]))
          case Err(message) => Err(message)
      else if root.ArrayValue? && IndexOf(selector).Some? then
        var index := IndexOf(selector).value;
        if index < 0 then Err(NegativeIndex)
        else if index >= |root.elements| then Err(IndexOutOfBounds(index, |root.elements|))
        else
          match Set(types, identity, root.elements[index], rest, value)
          case Ok(child) => Ok(ArrayValue(root.elements[index := child]))
          case Err(message) => Err(message)
      else Err(InvalidAssignmentPath)
  }

  function GetPath(root: Value, selectors: seq<Selector>): Result<Value, Message>
    decreases |selectors|
  {
    if selectors == [] then Ok(root)
    else
      match Get(root, selectors[0])
      case Ok(child) => GetPath(child, selectors[1..])
      case Err(message) => Err(message)
  }

  /** Assigning inside a value changes neither its constructor nor its nominal type. */
  lemma SetKeepsType(types: seq<TypeDef>, identity: nat, root: Value, selectors: seq<Selector>, value: Value, t: ResolvedType)
    requires selectors != [] && Set(types, identity, root, selectors, value).Ok?
    ensures HasType(identity, t, root) <==> HasType(identity, t, Set(types, identity, root, selectors, value).value)
  {
  }

  /** Nested assignment keeps every record contract, however deep the path goes. */
  lemma {:induction false} SetKeepsWellTyped(types: seq<TypeDef>, identity: nat, root: Value, selectors: seq<Selector>, value: Value)
    requires WellTyped(types, identity, root) && WellTyped(types, identity, value)
    requires Set(types, identity, root, selectors, value).Ok?
    ensures WellTyped(types, identity, Set(types, identity, root, selectors, value).value)
    decreases |selectors|
  {
    if selectors == [] {
      return;
    }
    var selector, rest := selectors[0], selectors[1..];
    if root.Record? {
      var key := KeyOf(selector).value;
      var child := root.fields[key];
      SetKeepsWellTyped(types, identity, child, rest, value);
      var declared := FieldType(types, types[root.typeId].fields, key);
      if rest != [] {
        SetKeepsType(types, identity, child, rest, value, declared.value);
      }
    } else if root.ObjectValue? {
      var key := KeyOf(selector).value;
      if rest != [] {
        SetKeepsWellTyped(types, identity, root.fields[key], rest, value);
      }
    } else {
      SetKeepsWellTyped(types, identity, root.elements[IndexOf(selector).value], rest, value);
    }
  }

  lemma GetWellTyped(types: seq<TypeDef>, identity: nat, value: Value, selector: Selector)
    requires WellTyped(types, identity, value) && Get(value, selector).Ok?
    ensures WellTyped(types, identity, Get(value, selector).value)
  {
  }

  // ----- lens laws of path assignment -----

  /** Put then get: the path reads back the value that was assigned. */
  lemma {:induction false} GetAfterSet(types: seq<TypeDef>, identity: nat, root: Value, path: seq<Selector>, value: Value)
    requires Set(types, identity, root, path, value).Ok?
    ensures GetPath(Set(types, identity, root, path, value).value, path) == Ok(value)
    decreases |path|
  {
    if path != [] {
      var rest := path[1..];
      if root.ArrayValue? {
        GetAfterSet(types, identity, root.elements[IndexOf(path[0]).value], rest, value);
      } else {
        var key := KeyOf(path[0]).value;
        if key in root.fields {
          GetAfterSet(types, identity, root.fields[key], rest, value);
        }
      }
    }
  }

  lemma MapOverwrite<T>(m: map<string, T>, key: string, first: T, second: T)
    ensures m[key := first][key := second] == m[key := second]
  {
  }

  lemma SeqOverwrite<T>(s: seq<T>, index: nat, first: T, second: T)
    requires index < |s|
    ensures s[index := first][index := second] == s[index := second]
  {
  }

  ghost predicate Overwrites(types: seq<TypeDef>, identity: nat, root: Value, path: seq<Selector>, first: Value, second: Value)
    requires Set(types, identity, root, path, first).Ok?
  {
    Set(types, identity, Set(types, identity, root, path, first).value, path, second)
      == Set(types, identity, root, path, second)
  }

  lemma OverwritesElement(types: seq<TypeDef>, identity: nat, root: Value, path: seq<Selector>, first: Value, second: Value)
    requires path != [] && root.ArrayValue? && Set(types, identity, root, path, first).Ok?
    requires Overwrites(types, identity, root.elements[IndexOf(path[0]).value], path[1..], first, second)
    ensures Overwrites(types, identity, root, path, first, second)
  {
    var index := IndexOf(path[0]).value;
    var child, rest := root.elements[index], path[1..];
    var changed, again := Set(types, identity, child, rest, first), Set(types, identity, child, rest, second);
    if again.Ok? {
      SeqOverwrite(root.elements, index, changed.value, again.value);
    }
  }

  function WithField(owner: Value, key: string, child: Value): Value
    requires owner.Record? || owner.ObjectValue?
  {
    if owner.Record? then owner.(fields := owner.fields[key := child]) else ObjectValue(owner.fields[key := child])
  }

  /** Where one update passes through a member, every update along that path does. */
  lemma PassesMember(types: seq<TypeDef>, identity: nat, root: Value, path: seq<Selector>, first: Value, value: Value)
    requires |path| > 1 && (root.ObjectValue? || root.Record?) && Set(types, identity, root, path, first).Ok?
    ensures KeyOf(path[0]).Some? && KeyOf(path[0]).value in root.fields
    ensures var key := KeyOf(path[0]).value;
            var r := Set(types, identity, root.fields[key], path[1..], value);
            Set(types, identity, root, path, value) == if r.Ok? then Ok(WithField(root, key, r.value)) else Err(r.error)
  {
  }

  lemma OverwritesMember(types: seq<TypeDef>, identity: nat, root: Value, path: seq<Selector>, first: Value, second: Value)
    requires |path| > 1 && (root.ObjectValue? || root.Record?) && Set(types, identity, root, path, first).Ok?
    requires Overwrites(types, identity, root.fields[KeyOf(path[0]).value], path[1..], first, second)
    ensures Overwrites(types, identity, root, path, first, second)
  {
    PassesMember(types, identity, root, path, first, first);
    PassesMember(types, identity, root, path, first, second);
    var key := KeyOf(path[0]).value;
    var child, rest := root.fields[key], path[1..];
    var changed, again := Set(types, identity, child, rest, first), Set(types, identity, child, rest, second);
    var once := WithField(root, key, changed.value);
    MemberPassesOn(types, identity, root, path, first, second);
    hide Set;
    if again.Ok? {
      MapOverwrite(root.fields, key, changed.value, again.value);
    }
  }

  /** The updated value can be updated again along the same path. */
  lemma MemberPassesOn(types: seq<TypeDef>, identity: nat, root: Value, path: seq<Selector>, first: Value, value: Value)
    requires |path| > 1 && (root.ObjectValue? || root.Record?) && Set(types, identity, root, path, first).Ok?
    ensures var key := KeyOf(path[0]).value;
            var once := Set(types, identity, root, path, first).value;
            (once.Record? || once.ObjectValue?) && key in once.fields
            && var r := Set(types, identity, once.fields[key], path[1..], value);
               Set(types, identity, once, path, value) == if r.Ok? then Ok(WithField(once, key, r.value)) else Err(r.error)
  {
  }

  lemma OverwritesLast(types: seq<TypeDef>, identity: nat, root: Value, path: seq<Selector>, first: Value, second: Value)
    requires |path| == 1 && !root.ArrayValue? && Set(types, identity, root, path, first).Ok?
    ensures Overwrites(types, identity, root, path, first, second)
  {
    MapOverwrite(root.fields, KeyOf(path[0]).value, first, second);
  }

  /** Where an update succeeds it can go on below the first step. */
  lemma SetsBelow(types: seq<TypeDef>, identity: nat, root: Value, path: seq<Selector>, value: Value)
    requires path != [] && Set(types, identity, root, path, value).Ok?
    ensures root.ArrayValue? || root.ObjectValue? || root.Record?
    ensures root.ArrayValue? ==>
              && IndexOf(path[0]).Some? && 0 <= IndexOf(path[0]).value < |root.elements|
              && Set(types, identity, root.elements[IndexOf(path[0]).value], path[1..], value).Ok?
    ensures !root.ArrayValue? && |path| > 1 ==>
              && KeyOf(path[0]).Some? && KeyOf(path[0]).value in root.fields
              && Set(types, identity, root.fields[KeyOf(path[0]).value], path[1..], value).Ok?
  {
  }

  /** Put twice: the second assignment along a path overwrites the first, errors included. */
  lemma {:induction false} SetOverwrites(types: seq<TypeDef>, identity: nat, root: Value, path: seq<Selector>, first: Value, second: Value)
    requires Set(types, identity, root, path, first).Ok?
    ensures Set(types, identity, Set(types, identity, root, path, first).value, path, second)
         == Set(types, identity, root, path, second)
    decreases |path|
  {
    if path == [] { return; }
    SetsBelow(types, identity, root, path, first);
    hide Set;
    if root.ArrayValue? {
      SetOverwrites(types, identity, root.elements[IndexOf(path[0]).value], path[1..], first, second);
      OverwritesElement(types, identity, root, path, first, second);
    } else if |path| > 1 {
      SetOverwrites(types, identity, root.fields[KeyOf(path[0]).value], path[1..], first, second);
      OverwritesMember(types, identity, root, path, first, second);
    } else {
      OverwritesLast(types, identity, root, path, first, second);
    }
  }

  /** Get then put: assigning what is already there changes nothing. */
  lemma {:induction false} SetOfGet(types: seq<TypeDef>, identity: nat, root: Value, path: seq<Selector>)
    requires GetPath(root, path).Ok?
    requires Set(types, identity, root, path, GetPath(root, path).value).Ok?
    ensures Set(types, identity, root, path, GetPath(root, path).value) == Ok(root)
    decreases |path|
  {
    if path != [] {
      var rest := path[1..];
      if root.ArrayValue? {
        var index := IndexOf(path[0]).value;
        SetOfGet(types, identity, root.elements[index], rest);
        assert root.elements[index := root.elements[index]] == root.elements;
      } else {
        var key := KeyOf(path[0]).value;
        SetOfGet(types, identity, root.fields[key], rest);
        assert root.fields[key := root.fields[key]] == root.fields;
      }
    }
  }

  /** Two selectors that denote the same child of any value. */
  predicate SamePlace(a: Selector, b: Selector) {
    KeyOf(a) == KeyOf(b) && IndexOf(a) == IndexOf(b) && (KeyOf(a).Some? || IndexOf(a).Some?)
  }

  /** The paths share a prefix and then leave through different children. */
  predicate Diverge(p: seq<Selector>, q: seq<Selector>)
    decreases |p|
  {
    p != [] && q != [] && if SamePlace(p[0], q[0]) then Diverge(p[1..], q[1..]) else true
  }

  /** Put leaves every diverging path as it was, whether that path could be read or not. */
  lemma {:induction false} SetKeepsDiverging(types: seq<TypeDef>, identity: nat, root: Value, path: seq<Selector>, value: Value, other: seq<Selector>)
    requires Set(types, identity, root, path, value).Ok? && Diverge(path, other)
    ensures GetPath(Set(types, identity, root, path, value).value, other) == GetPath(root, other)
    decreases |path|
  {
    if SamePlace(path[0], other[0]) {
      if root.ArrayValue? {
        SetKeepsDiverging(types, identity, root.elements[IndexOf(path[0]).value], path[1..], value, other[1..]);
      } else {
        SetKeepsDiverging(types, identity, root.fields[KeyOf(path[0]).value], path[1..], value, other[1..]);
      }
    }
  }
}
