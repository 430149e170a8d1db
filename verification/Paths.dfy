/** When a nested update succeeds. */
module Paths {
  import opened Types
  import opened Values

  /** Whether a nested update may pass through, or end at, this child of a value. */
  predicate Enters(types: seq<TypeDef>, identity: nat, owner: Value, selector: Selector, last: bool, value: Value) {
    match owner
    case Record(of, id, _, fields) =>
      && KeyOf(selector).Some? && of == identity && id < |types|
      && FindField(types[id].fields, KeyOf(selector).value).Some? && KeyOf(selector).value in fields
      && (last ==> var t := FieldType(types, types[id].fields, KeyOf(selector).value); t.Some? ==> HasType(identity, t.value, value))
    case ObjectValue(fields) => KeyOf(selector).Some? && (last || KeyOf(selector).value in fields)
    case ArrayValue(elements) => IndexOf(selector).Some? && 0 <= IndexOf(selector).value < |elements|
    case _ => false
  }

  predicate PassesAt(types: seq<TypeDef>, identity: nat, root: Value, path: seq<Selector>, value: Value, k: nat)
    requires k < |path|
  {
    var owner := GetPath(root, path[..k]);
    owner.Ok? && Enters(types, identity, owner.value, path[k], k == |path| - 1, value)
  }

  predicate Passes(types: seq<TypeDef>, identity: nat, root: Value, path: seq<Selector>, value: Value) {
    forall k | 0 <= k < |path| :: PassesAt(types, identity, root, path, value, k)
  }

  lemma PassesLater(types: seq<TypeDef>, identity: nat, root: Value, path: seq<Selector>, value: Value, k: nat)
    requires k + 1 < |path|
    ensures PassesAt(types, identity, root, path, value, k + 1) <==>
            Get(root, path[0]).Ok? && PassesAt(types, identity, Get(root, path[0]).value, path[1..], value, k)
  {
    hide Get, Enters;
    var upTo := path[..k + 1];
    assert upTo[0] == path[0] && upTo[1..] == path[1..][..k];
  }

  lemma PassesFirst(types: seq<TypeDef>, identity: nat, root: Value, path: seq<Selector>, value: Value)
    requires path != []
    ensures PassesAt(types, identity, root, path, value, 0) <==> Enters(types, identity, root, path[0], |path| == 1, value)
  {
    hide Enters;
    assert path[..0] == [];
  }

  lemma PassesDown(types: seq<TypeDef>, identity: nat, root: Value, path: seq<Selector>, value: Value)
    requires |path| > 1 && Passes(types, identity, root, path, value)
    ensures Get(root, path[0]).Ok? && Passes(types, identity, Get(root, path[0]).value, path[1..], value)
  {
    hide PassesAt, Get;
    PassesLater(types, identity, root, path, value, 0);
    forall k | 0 <= k < |path[1..]|
      ensures PassesAt(types, identity, Get(root, path[0]).value, path[1..], value, k)
    {
      PassesLater(types, identity, root, path, value, k);
    }
  }

  lemma PassesUp(types: seq<TypeDef>, identity: nat, root: Value, path: seq<Selector>, value: Value)
    requires path != [] && PassesAt(types, identity, root, path, value, 0)
    requires |path| > 1 ==> Get(root, path[0]).Ok? && Passes(types, identity, Get(root, path[0]).value, path[1..], value)
    ensures Passes(types, identity, root, path, value)
  {
    hide PassesAt, Get;
    forall k | 0 < k < |path|
      ensures PassesAt(types, identity, root, path, value, k)
    {
      PassesLater(types, identity, root, path, value, k - 1);
    }
  }

  lemma PassesCons(types: seq<TypeDef>, identity: nat, root: Value, path: seq<Selector>, value: Value)
    requires path != []
    ensures Passes(types, identity, root, path, value) <==>
            && Enters(types, identity, root, path[0], |path| == 1, value)
            && (|path| > 1 ==> Get(root, path[0]).Ok? && Passes(types, identity, Get(root, path[0]).value, path[1..], value))
  {
    PassesFirst(types, identity, root, path, value);
    if Passes(types, identity, root, path, value) {
      assert PassesAt(types, identity, root, path, value, 0);
      if |path| > 1 {
        PassesDown(types, identity, root, path, value);
      }
    } else {
      hide PassesAt, Passes, Enters, Get;
      if Enters(types, identity, root, path[0], |path| == 1, value)
         && (|path| > 1 ==> Get(root, path[0]).Ok? && Passes(types, identity, Get(root, path[0]).value, path[1..], value)) {
        PassesUp(types, identity, root, path, value);
      }
    }
  }

  /** A nested update succeeds exactly when each step of its path leads into a value that is there; the last may add a key to an object. */
  lemma {:induction false} SetsIff(types: seq<TypeDef>, identity: nat, root: Value, path: seq<Selector>, value: Value)
    ensures Set(types, identity, root, path, value).Ok? <==> Passes(types, identity, root, path, value)
    decreases |path|
  {
    if path != [] {
      hide Set, Passes, Get, Enters;
      PassesCons(types, identity, root, path, value);
      SetsOne(types, identity, root, path, value);
      if |path| > 1 && Get(root, path[0]).Ok? {
        SetsIff(types, identity, Get(root, path[0]).value, path[1..], value);
      }
    }
  }

  /** One step of a nested update. */
  lemma SetsOne(types: seq<TypeDef>, identity: nat, root: Value, path: seq<Selector>, value: Value)
    requires path != []
    ensures Set(types, identity, root, path, value).Ok? <==>
            && Enters(types, identity, root, path[0], |path| == 1, value)
            && (|path| > 1 ==> Get(root, path[0]).Ok? && Set(types, identity, Get(root, path[0]).value, path[1..], value).Ok?)
  {
  }
}
