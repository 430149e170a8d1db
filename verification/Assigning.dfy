/** What assignments and `let` leave in the bindings. */
module Assigning {
  import opened Wrappers
  import opened Ast
  import opened Types
  import opened Values
  import opened Paths
  import opened Evaluation
  import opened Equations
  import opened Laws

  // ----- targets -----

  /** The target denotes this place: the slot its root names, and a selector for each property and index, outermost last. */
  ghost predicate Located(cfg: Config, f: Frame, st: State, e: Expr, env: Environment, place: Place, after: State)
    decreases e
  {
    match e
    case Located(span, inner) => Located(cfg, f.(span := Some(span)), st, inner, env, place, after)
    case Identifier(name) =>
      && st.steps > 0 && after == Ticked(st) && place.selectors == []
      && exists level: nat :: Denotes(env, name, level) && place.id == env[level][name]
    case Property(owner, name) =>
      && st.steps > 0 && place.selectors != [] && place.selectors[|place.selectors| - 1] == Member(name)
      && Located(cfg, f, Ticked(st), owner, env, Owning(place), after)
    case Index(owner, index) =>
      && st.steps > 0 && place.selectors != [] && place.selectors[|place.selectors| - 1].At?
      && exists mid ::
           && Located(cfg, f, Ticked(st), owner, env, Owning(place), mid)
           && Evaluate(cfg, f, mid, index, env) == Out(after, Ok(place.selectors[|place.selectors| - 1].index))
    case _ => false
  }

  /** The place one selector further out. */
  function Owning(place: Place): Place
    requires place.selectors != []
  {
    place.(selectors := place.selectors[..|place.selectors| - 1])
  }

  lemma {:induction false} TargetLocated(cfg: Config, f: Frame, st: State, e: Expr, env: Environment, place: Place, after: State)
    requires Located(cfg, f, st, e, env, place, after)
    ensures Target(cfg, f, st, e, env) == Out(after, Ok(place))
    decreases e
  {
    hide Evaluate;
    match e
    case Located(span, inner) => TargetLocated(cfg, f.(span := Some(span)), st, inner, env, place, after);
    case Identifier(name) =>
      var level: nat :| Denotes(env, name, level) && place.id == env[level][name];
      LookUpDenoted(env, name, level);
      TargetLeaf(cfg, f, st, e, env);
    case Property(owner, name) =>
      TargetLocated(cfg, f, Ticked(st), owner, env, Owning(place), after);
      hide Target;
      TargetSteps(cfg, f, st, e, env);
      assert Owning(place).selectors + [Member(name)] == place.selectors;
    case Index(owner, index) =>
      var last := place.selectors[|place.selectors| - 1];
      var mid :| Located(cfg, f, Ticked(st), owner, env, Owning(place), mid)
                 && Evaluate(cfg, f, mid, index, env) == Out(after, Ok(last.index));
      TargetLocated(cfg, f, Ticked(st), owner, env, Owning(place), mid);
      hide Target;
      TargetSteps(cfg, f, st, e, env);
      assert Owning(place).selectors + [At(last.index)] == place.selectors;
    case _ =>
  }

  /** Every target that evaluates denotes a place. */
  lemma {:induction false} LocatedTarget(cfg: Config, f: Frame, st: State, e: Expr, env: Environment)
    requires Target(cfg, f, st, e, env).res.Ok?
    ensures var o := Target(cfg, f, st, e, env); Located(cfg, f, st, e, env, o.res.value, o.st)
    decreases e
  {
    if e.Located? {
      LocatedTarget(cfg, f.(span := Some(e.span)), st, e.inner, env);
      return;
    }
    hide Evaluate;
    if st.steps == 0 || (!e.Property? && !e.Index?) {
      hide Target;
      TargetLeaf(cfg, f, st, e, env);
      var level := FoundLevel(env, e.name);
      return;
    }
    var o := Target(cfg, f, st, e, env);
    hide Target;
    TargetSteps(cfg, f, st, e, env);
    var owner := Target(cfg, f, Ticked(st), e.owner, env);
    LocatedTarget(cfg, f, Ticked(st), e.owner, env);
    assert Owning(o.res.value).selectors == owner.res.value.selectors;
    assert Owning(o.res.value) == owner.res.value;
  }

  // ----- writing -----

  /** The contract of a slot. */
  predicate Admits(cfg: Config, annotation: Option<ResolvedType>, v: Value) {
    annotation.Some? ==> InRange(cfg.types, annotation.value) && HasType(cfg.identity, annotation.value, v)
  }

  /** What is said of a value that a contract does not admit. */
  function Mismatch(cfg: Config, annotation: Option<ResolvedType>, v: Value): Message {
    if annotation.Some? && InRange(cfg.types, annotation.value)
    then ExpectedType(TypeName(cfg.types, annotation.value), v.KindName()) else Panic
  }

  lemma AdmitsIff(cfg: Config, annotation: Option<ResolvedType>, v: Value)
    ensures CheckType(cfg, annotation, v) == if Admits(cfg, annotation, v) then None else Some(Mismatch(cfg, annotation, v))
  {
  }

  /** Nothing but the value of one slot differs. */
  predicate OnlySlot(a: State, b: State, id: nat) {
    && b.functions == a.functions && b.steps == a.steps && b.host == a.host && |b.bindings| == |a.bindings|
    && (forall i | 0 <= i < |a.bindings| && i != id :: b.bindings[i] == a.bindings[i])
    && (id < |a.bindings| ==> b.bindings[id].annotation == a.bindings[id].annotation && b.bindings[id].mutable == a.bindings[id].mutable)
  }

  /** What the slot holds after the write, read along the path and along every path that leaves it. */
  ghost predicate Written(a: State, b: State, place: Place, v: Value) {
    && place.id < |a.bindings| && OnlySlot(a, b, place.id) && b.bindings[place.id].value.Some?
    && GetPath(b.bindings[place.id].value.value, place.selectors) == Ok(v)
    && (place.selectors != [] ==>
          && a.bindings[place.id].value.Some?
          && forall other | Diverge(place.selectors, other) ::
               GetPath(b.bindings[place.id].value.value, other) == GetPath(a.bindings[place.id].value.value, other))
  }

  /** A write is possible: the path leads into what is there, and the slot's contract admits the result. */
  ghost predicate Writable(cfg: Config, st: State, place: Place, v: Value) {
    && place.id < |st.bindings|
    && (place.selectors == [] ==> Admits(cfg, st.bindings[place.id].annotation, v))
    && (place.selectors != [] ==>
          && st.bindings[place.id].value.Some?
          && Passes(cfg.types, cfg.identity, st.bindings[place.id].value.value, place.selectors, v)
          && Admits(cfg, st.bindings[place.id].annotation, st.bindings[place.id].value.value))
  }

  lemma SetAdmits(cfg: Config, annotation: Option<ResolvedType>, root: Value, path: seq<Selector>, v: Value)
    requires path != [] && Set(cfg.types, cfg.identity, root, path, v).Ok?
    ensures Admits(cfg, annotation, Set(cfg.types, cfg.identity, root, path, v).value) <==> Admits(cfg, annotation, root)
  {
    hide Set;
    if annotation.Some? {
      SetKeepsType(cfg.types, cfg.identity, root, path, v, annotation.value);
    }
  }

  lemma WriteWhole(cfg: Config, f: Frame, st: State, id: nat, v: Value)
    ensures var o := Write(cfg, f, st, Place(id, []), v);
            if Writable(cfg, st, Place(id, []), v) then o.res == Ok(v) && Written(st, o.st, Place(id, []), v)
            else o == Fault(f, st, if id < |st.bindings| then Mismatch(cfg, st.bindings[id].annotation, v) else Panic)
  {
    if id < |st.bindings| {
      AdmitsIff(cfg, st.bindings[id].annotation, v);
    }
  }

  lemma WriteNested(cfg: Config, f: Frame, st: State, place: Place, v: Value)
    requires place.selectors != []
    ensures var o := Write(cfg, f, st, place, v);
            if Writable(cfg, st, place, v) then o.res == Ok(v) && Written(st, o.st, place, v)
            else o.res.Err? && o.st == st
  {
    if place.id >= |st.bindings| || st.bindings[place.id].value.None? { return; }
    var root := st.bindings[place.id].value.value;
    var changed := Set(cfg.types, cfg.identity, root, place.selectors, v);
    SetsIff(cfg.types, cfg.identity, root, place.selectors, v);
    hide Set, Passes, CheckType, GetPath;
    if changed.Ok? {
      SetAdmits(cfg, st.bindings[place.id].annotation, root, place.selectors, v);
      AdmitsIff(cfg, st.bindings[place.id].annotation, changed.value);
      GetAfterSet(cfg.types, cfg.identity, root, place.selectors, v);
      forall other | Diverge(place.selectors, other)
        ensures GetPath(changed.value, other) == GetPath(root, other)
      {
        SetKeepsDiverging(cfg.types, cfg.identity, root, place.selectors, v, other);
      }
    }
  }

  // ----- assignments -----

  /** The slot may be assigned from here. */
  predicate Assignable(f: Frame, st: State, id: nat) {
    id < |st.bindings| && st.bindings[id].mutable && f.captured <= id
  }

  /** Why a slot may not be assigned from here. */
  function Protection(st: State, id: nat): Message {
    if id >= |st.bindings| then Panic else if st.bindings[id].mutable then ReadOnlyCapture else ImmutableBinding
  }

  lemma PermissionIff(f: Frame, st: State, id: nat)
    ensures Permission(f, st, id) == if Assignable(f, st, id) then None else Some(Protection(st, id))
  {
  }

  /**
   * An assignment whose target denotes a place and whose right-hand side has a
   * value succeeds exactly when the place may be assigned and admits the value.
   * Then its value is the assigned one, the place reads it back, and every other
   * path and slot is as it was; when it fails, nothing was written.
   */
  lemma AssignmentWrites(
    cfg: Config, f: Frame, st: State, target: Expr, value: Expr, env: Environment, place: Place, mid: State, before: State, v: Value)
    requires Ready(cfg, f, st) && Located(cfg, Deeper(f), Ticked(st), target, env, place, mid)
    requires Evaluate(cfg, Deeper(f), mid, value, env) == Out(before, Ok(v))
    ensures var o := Evaluate(cfg, f, st, Assignment(target, value), env);
            if !Assignable(f, mid, place.id) then o == Fault(Deeper(f), mid, Protection(mid, place.id))
            else if Writable(cfg, before, place, v) then o.res == Ok(v) && Written(before, o.st, place, v)
            else
              && o.res.Err? && o.st == before
              && (place.selectors == [] && place.id < |before.bindings| ==>
                    o == Fault(Deeper(f), before, Mismatch(cfg, before.bindings[place.id].annotation, v)))
  {
    TargetLocated(cfg, Deeper(f), Ticked(st), target, env, place, mid);
    PermissionIff(Deeper(f), mid, place.id);
    if place.selectors == [] {
      WriteWhole(cfg, Deeper(f), before, place.id, v);
    } else {
      WriteNested(cfg, Deeper(f), before, place, v);
    }
    hide Evaluate, Target, Write, Writable, Written, Located, Permission, Assign;
    EvaluateSteps(cfg, f, st, Assignment(target, value), env);
    AssignSteps(cfg, Deeper(f), Ticked(st), target, value, env);
  }

  /** Any assignment that succeeds had a place and a value. */
  lemma AssignmentSucceeds(cfg: Config, f: Frame, st: State, target: Expr, value: Expr, env: Environment)
    returns (place: Place, mid: State, before: State)
    requires Evaluate(cfg, f, st, Assignment(target, value), env).res.Ok?
    ensures Ready(cfg, f, st) && Located(cfg, Deeper(f), Ticked(st), target, env, place, mid)
    ensures var o := Evaluate(cfg, f, st, Assignment(target, value), env);
            && Evaluate(cfg, Deeper(f), mid, value, env) == Out(before, Ok(o.res.value))
            && Written(before, o.st, place, o.res.value)
  {
    hide Evaluate, Target, Write, Written, Located, Assign;
    EvaluateSteps(cfg, f, st, Assignment(target, value), env);
    AssignSteps(cfg, Deeper(f), Ticked(st), target, value, env);
    var t := Target(cfg, Deeper(f), Ticked(st), target, env);
    LocatedTarget(cfg, Deeper(f), Ticked(st), target, env);
    place, mid := t.res.value, t.st;
    var r := Evaluate(cfg, Deeper(f), mid, value, env);
    before := r.st;
    AssignmentWrites(cfg, f, st, target, value, env, place, mid, before, r.res.value);
  }

  // ----- let -----

  /** The name `let` exposes reads what the initializer evaluated to. */
  lemma LetReads(cfg: Config, f: Frame, st: State, name: string, slot: nat, value: Expr, env: Environment, g: Frame)
    requires env != [] && slot < |st.bindings| && RunLet(cfg, f, st, Some(slot), value, env).res.Ok?
    requires Ready(cfg, g, RunLet(cfg, f, st, Some(slot), value, env).st) && Evaluate(cfg, f, st, value, env).res.Ok?
    ensures var o := RunLet(cfg, f, st, Some(slot), value, env);
            var i := Evaluate(cfg, f, st, value, env);
            && Evaluate(cfg, g, o.st, Identifier(name), Bind(env, name, slot)) == Out(Ticked(o.st), Ok(i.res.value))
            && OnlySlot(i.st, o.st, slot)
  {
    hide Evaluate;
    var o, bound := RunLet(cfg, f, st, Some(slot), value, env), Bind(env, name, slot);
    assert Denotes(bound, name, |bound| - 1) && bound[|bound| - 1][name] == slot;
    assert |Evaluate(cfg, f, st, value, env).st.bindings| == |o.st.bindings|;
    NameReads(cfg, g, o.st, name, bound, |bound| - 1);
  }
}
