/** Removing every location wrapper from a syntax tree, and what that leaves of its parts. */
module Erasure {
  import opened Wrappers
  import opened Ast

  function Erase(e: Expr): (bare: Expr)
    ensures !bare.Located?
    decreases e
  {
    match e
    case Located(_, inner) => Erase(inner)
    case Construct(name, fields) => Construct(name, EraseFields(e, fields))
    case ObjectLit(fields) => ObjectLit(EraseFields(e, fields))
    case Effect(op, operands) => Effect(op, EraseAll(e, operands))
    case ArrayLit(elements) => ArrayLit(EraseAll(e, elements))
    case Unary(op, operand) => Unary(op, Erase(operand))
    case Binary(left, op, right) => Binary(Erase(left), op, Erase(right))
    case Assignment(target, value) => Assignment(Erase(target), Erase(value))
    case Call(callee, arguments) => Call(Erase(callee), EraseAll(e, arguments))
    case Property(owner, name) => Property(Erase(owner), name)
    case Index(owner, index) => Index(Erase(owner), Erase(index))
    case _ => e
  }

  function EraseAll(parent: Expr, es: seq<Expr>): (bare: seq<Expr>)
    requires forall i | 0 <= i < |es| :: es[i] < parent
    ensures |bare| == |es| && forall i | 0 <= i < |es| :: bare[i] == Erase(es[i])
    decreases parent, 0
  {
    seq(|es|, i requires 0 <= i < |es| => Erase(es[i]))
  }

  function EraseFields(parent: Expr, fields: seq<Field>): (bare: seq<Field>)
    requires forall i | 0 <= i < |fields| :: fields[i].value < parent
    ensures |bare| == |fields|
    ensures forall i | 0 <= i < |fields| :: bare[i] == Field(fields[i].key, Erase(fields[i].value))
    decreases parent, 0
  {
    seq(|fields|, i requires 0 <= i < |fields| => Field(fields[i].key, Erase(fields[i].value)))
  }

  function EraseStmt(s: Stmt): (bare: Stmt)
    ensures !bare.LocatedStmt?
    decreases s
  {
    match s
    case LocatedStmt(_, inner) => EraseStmt(inner)
    case Parallel(variable, iterable, body) => Parallel(variable, Erase(iterable), EraseStmt(body))
    case Match(subject, arms) => Match(Erase(subject), EraseArms(s, arms))
    case Let(name, annotation, value) => Let(name, annotation, Erase(value))
    case ExprStmt(e) => ExprStmt(Erase(e))
    case Block(statements) => Block(EraseList(s, statements))
    case If(condition, thenBranch, elseBranch) =>
      If(Erase(condition), EraseStmt(thenBranch),
         if elseBranch.Some? then Some(EraseStmt(elseBranch.value)) else None)
    case While(condition, body) => While(Erase(condition), EraseStmt(body))
    case For(variable, iterable, body) => For(variable, Erase(iterable), EraseStmt(body))
    case Function(name, parameters, result, body) => Function(name, parameters, result, EraseStmt(body))
    case Return(returned) => Return(if returned.Some? then Some(Erase(returned.value)) else None)
    case _ => s
  }

  function EraseList(parent: Stmt, stmts: seq<Stmt>): (bare: seq<Stmt>)
    requires forall i | 0 <= i < |stmts| :: stmts[i] < parent
    ensures |bare| == |stmts| && forall i | 0 <= i < |stmts| :: bare[i] == EraseStmt(stmts[i])
    decreases parent, 0
  {
    seq(|stmts|, i requires 0 <= i < |stmts| => EraseStmt(stmts[i]))
  }

  function EraseArms(parent: Stmt, arms: seq<MatchArm>): (bare: seq<MatchArm>)
    requires forall i | 0 <= i < |arms| :: arms[i].body < parent
    ensures |bare| == |arms|
    ensures forall i | 0 <= i < |arms| ::
      bare[i].pattern == arms[i].pattern.Unspanned() && bare[i].body == EraseStmt(arms[i].body)
    decreases parent, 0
  {
    seq(|arms|, i requires 0 <= i < |arms| => MatchArm(arms[i].pattern.Unspanned(), EraseStmt(arms[i].body)))
  }

  predicate ErasedAll(es: seq<Expr>, bare: seq<Expr>) {
    |bare| == |es| && forall i | 0 <= i < |es| :: bare[i] == Erase(es[i])
  }

  predicate ErasedList(stmts: seq<Stmt>, bare: seq<Stmt>) {
    |bare| == |stmts| && forall i | 0 <= i < |stmts| :: bare[i] == EraseStmt(stmts[i])
  }

  predicate ErasedArms(arms: seq<MatchArm>, bare: seq<MatchArm>) {
    |bare| == |arms| && forall i | 0 <= i < |arms| ::
      bare[i].pattern == arms[i].pattern.Unspanned() && bare[i].body == EraseStmt(arms[i].body)
  }

  lemma {:induction false} EraseUnspanned(e: Expr)
    ensures Erase(e.Unspanned()) == Erase(e)
    ensures Erase(e).Unspanned() == Erase(e)
  {
    if e.Located? {
      EraseUnspanned(e.inner);
    }
  }

  lemma {:induction false} EraseUnspannedStmt(s: Stmt)
    ensures EraseStmt(s.Unspanned()) == EraseStmt(s)
    ensures EraseStmt(s).Unspanned() == EraseStmt(s)
  {
    if s.LocatedStmt? {
      EraseUnspannedStmt(s.inner);
    }
  }

  /** A node keeps its kind; its operands are erased one by one. */
  lemma OperandsErased(e: Expr)
    requires !e.Located?
    ensures IsStrict(Erase(e)) <==> IsStrict(e)
    ensures ErasedAll(Operands(e), Operands(Erase(e)))
  {
  }

  lemma KeysErased(e: Expr)
    requires e.Construct? || e.ObjectLit?
    ensures Erase(e).Construct? == e.Construct? && Erase(e).ObjectLit? == e.ObjectLit?
    ensures Keys(Erase(e).fields) == Keys(e.fields)
  {
  }

  lemma ContentsErased(body: Stmt)
    requires !body.LocatedStmt?
    ensures ErasedList(Contents(body), Contents(EraseStmt(body)))
  {
  }
}
