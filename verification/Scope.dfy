/** The analyzer's stack of scopes (src/semantic/scope.rs). */
module Scope {
  import opened Wrappers
  import opened Analysis

  class ScopeStack {
    var stack: Scopes

    /** The built-in scope is never removed. */
    ghost predicate Valid()
      reads this
    {
      stack != []
    }

    constructor ()
      ensures Valid() && stack == [BuiltinScope()]
    {
      stack := [BuiltinScope()];
    }

    method Enter()
      requires Valid()
      modifies this
      ensures Valid() && stack == old(stack) + [map[]]
    {
      stack := stack + [map[]];
    }

    method Leave()
      requires Valid() && |stack| > 1
      modifies this
      ensures Valid() && stack == old(stack)[..|old(stack)| - 1]
    {
      stack := stack[..|stack| - 1];
    }

    /** The first symbol of a name in a scope is kept, so later checks are stable. */
    method Declare(name: string, symbol: Symbol) returns (added: bool)
      requires Valid()
      modifies this
      ensures Valid() && |stack| == |old(stack)|
      ensures added <==> name !in old(stack)[|old(stack)| - 1]
      ensures stack[..|stack| - 1] == old(stack)[..|stack| - 1]
      ensures stack[|stack| - 1] == if added then old(stack)[|stack| - 1][name := symbol] else old(stack)[|stack| - 1]
    {
      var top := stack[|stack| - 1];
      added := name !in top;
      if added {
        var scope: map<string, Symbol> := top[name := symbol];
        stack := stack[|stack| - 1 := scope];
      }
    }

    method Depth() returns (depth: nat)
      ensures depth == |stack|
    {
      depth := |stack|;
    }

    /** From the innermost scope outwards. */
    method ResolveWithDepth(name: string) returns (found: Option<(nat, Symbol)>)
      ensures found == LookUpDepth(stack, name)
      ensures found.None? <==> forall l | 0 <= l < |stack| :: name !in stack[l]
      ensures found.Some? ==>
                var (level, symbol) := found.value;
                level < |stack| && name in stack[level] && stack[level][name] == symbol
                && forall l | level < l < |stack| :: name !in stack[l]
    {
      var level := |stack|;
      assert stack[..level] == stack;
      while level > 0
        invariant level <= |stack|
        invariant forall l | level <= l < |stack| :: name !in stack[l]
        invariant LookUpDepth(stack, name) == LookUpDepth(stack[..level], name)
      {
        level := level - 1;
        if name in stack[level] {
          return Some((level, stack[level][name]));
        }
        assert stack[..level + 1][..level] == stack[..level];
      }
      return None;
    }

    method Resolve(name: string) returns (symbol: Option<Symbol>)
      ensures symbol == LookUpSymbol(stack, name)
    {
      var found := ResolveWithDepth(name);
      symbol := if found.Some? then Some(found.value.1) else None;
    }
  }
}
