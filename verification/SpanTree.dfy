/**
 * Locations form a tree. If the tokens are ordered by position, as the scanner
 * produces them, every expression node carries exactly one location, from its
 * first token to its last, no wrapper stands directly inside a wrapper, and a
 * child's range lies inside its parent's. Parentheses add no node; they
 * extend the range of the expression inside. There is one lemma for each
 * function of the expression grammar; each follows the cursor along the tokens.
 */
module SpanTree {
  import opened Wrappers
  import opened Source
  import opened Ast
  import opened Tokens
  import opened Grammar
  import opened Printing

  predicate OrderedStream(s: Stream) {
    && s.Peek().span.start.AtMost(s.Peek().span.end)
    && (s.More? ==> s.head.span.end.AtMost(s.tail.Peek().span.start) && OrderedStream(s.tail))
  }

  /** The token behind the cursor ends before the one ahead begins. */
  predicate Ordered(c: Cursor) {
    OrderedStream(c.rest) && (c.previous.Some? ==> c.previous.value.span.end.AtMost(Start(c)))
  }

  /** Exactly one location at every node, and every child inside its parent. */
  predicate Tree(e: Expr)
    decreases e
  {
    && e.Located? && !e.inner.Located?
    && forall i | 0 <= i < |Parts(e.inner)| :: Tree(Parts(e.inner)[i]) && e.span.Contains(Parts(e.inner)[i].span)
  }

  predicate Within(e: Expr, lo: Position, hi: Position) {
    Tree(e) && lo.AtMost(e.span.start) && e.span.end.AtMost(hi)
  }

  predicate AllWithin(es: seq<Expr>, lo: Position, hi: Position) {
    forall i | 0 <= i < |es| :: Within(es[i], lo, hi)
  }

  predicate FieldsWithin(fields: seq<Field>, lo: Position, hi: Position) {
    forall i | 0 <= i < |fields| :: Within(fields[i].value, lo, hi)
  }

  /** A cursor reached from a place no later than `lo`. */
  predicate Reached(lo: Position, c: Cursor) {
    Ordered(c) && c.previous.Some? && lo.AtMost(c.LastEnd())
  }

  /** The tree spans exactly the tokens that were consumed. */
  predicate Spanned(start: Position, r: Parse<Expr>) {
    r.Parsed? ==> Reached(start, r.cursor) && Tree(r.value) && r.value.span == Span(start, r.cursor.LastEnd())
  }

  /** A node before it is located: its children, or the children of the node it already wraps, lie in range. */
  predicate Enclosed(e: Expr, lo: Position, hi: Position) {
    var node := if e.Located? then e.inner else e;
    !node.Located? && AllWithin(Parts(node), lo, hi)
  }

  predicate InnerSpanned(start: Position, r: Parse<Expr>) {
    r.Parsed? ==> Reached(start, r.cursor) && Enclosed(r.value, start, r.cursor.LastEnd())
  }

  lemma LocatedTree(m: Mode, e: Expr, start: Position, c: Cursor)
    requires m.spans && Enclosed(e, start, c.LastEnd())
    ensures Tree(Locate(m, e, start, c)) && Locate(m, e, start, c).span == Span(start, c.LastEnd())
  {
  }

  lemma TreeEncloses(e: Expr, lo: Position, hi: Position)
    requires Within(e, lo, hi)
    ensures Enclosed(e, lo, hi)
  {
  }

  lemma WidenAll(es: seq<Expr>, lo: Position, hi: Position, lo': Position, hi': Position)
    requires AllWithin(es, lo, hi) && lo'.AtMost(lo) && hi.AtMost(hi')
    ensures AllWithin(es, lo', hi')
  {
    hide Tree;
    forall i | 0 <= i < |es|
      ensures Within(es[i], lo', hi')
    {
      assert Within(es[i], lo, hi);
    }
  }

  lemma WidenFields(fields: seq<Field>, lo: Position, hi: Position, lo': Position, hi': Position)
    requires FieldsWithin(fields, lo, hi) && lo'.AtMost(lo) && hi.AtMost(hi')
    ensures FieldsWithin(fields, lo', hi')
  {
    hide Tree;
    forall i | 0 <= i < |fields|
      ensures Within(fields[i].value, lo', hi')
    {
      assert Within(fields[i].value, lo, hi);
    }
  }

  lemma FieldPartsWithin(fields: seq<Field>, lo: Position, hi: Position)
    requires FieldsWithin(fields, lo, hi)
    ensures Enclosed(ObjectLit(fields), lo, hi) && forall name :: Enclosed(Construct(name, fields), lo, hi)
  {
    hide Tree;
    assert AllWithin(FieldValues(fields), lo, hi);
  }

  lemma CallEnclosed(e: Expr, arguments: seq<Expr>, lo: Position, hi: Position)
    requires Within(e, lo, hi) && AllWithin(arguments, lo, hi)
    ensures Enclosed(Call(e, arguments), lo, hi)
  {
    hide Tree, Within;
  }

  lemma PairEnclosed(first: Expr, second: Expr, lo: Position, hi: Position)
    requires Within(first, lo, hi) && Within(second, lo, hi)
    ensures Enclosed(Assignment(first, second), lo, hi) && Enclosed(Index(first, second), lo, hi)
    ensures forall op :: Enclosed(Binary(first, op, second), lo, hi)
    ensures forall op :: Enclosed(Effect(op, [first, second]), lo, hi)
  {
    hide Tree, Within;
  }

  lemma OneEnclosed(e: Expr, lo: Position, hi: Position)
    requires Within(e, lo, hi)
    ensures forall op :: Enclosed(Unary(op, e), lo, hi)
    ensures forall op :: Enclosed(Effect(op, [e]), lo, hi)
    ensures forall name :: Enclosed(Property(e, name), lo, hi)
  {
    hide Tree, Within;
  }

  /** Moving over one token. */
  lemma NextOrdered(c: Cursor)
    requires Ordered(c) && c.rest.More?
    ensures Reached(Start(c), c.Next()) && c.Next().LastEnd().AtMost(Start(c.Next()))
    ensures c.previous.Some? ==> c.LastEnd().AtMost(Start(c))
  {
  }

  lemma Transitive(a: Position, b: Position, c: Position)
    requires a.AtMost(b) && b.AtMost(c)
    ensures a.AtMost(c)
  {
  }

  /** What was parsed from a later cursor lies behind an earlier start. */
  lemma LaterWithin(lo: Position, c: Cursor, r: Parse<Expr>)
    requires Reached(lo, c) && r.Parsed? && Spanned(Start(c), r)
    ensures Reached(lo, r.cursor) && Within(r.value, lo, r.cursor.LastEnd())
  {
    hide Tree, OrderedStream;
  }

  lemma KeepsWithin(e: Expr, lo: Position, hi: Position, hi': Position)
    requires Within(e, lo, hi) && hi.AtMost(hi')
    ensures Within(e, lo, hi')
  {
    hide Tree;
  }

  lemma SkipReached(lo: Position, c: Cursor)
    requires Reached(lo, c) && c.rest.More?
    ensures Reached(lo, c.Next()) && c.LastEnd().AtMost(c.Next().LastEnd())
  {
  }

  // ----- the grammar -----

  lemma {:induction false} AssignmentSpans(m: Mode, c: Cursor, cons: bool)
    requires m.spans && Ordered(c)
    ensures Spanned(Start(c), ParseAssignment(m, c, cons))
    decreases c.Length(), 12
  {
    hide ParseSend, Assignable, Tree, OrderedStream, Locate;
    SendSpans(m, c, cons);
    var s := ParseSend(m, c, cons);
    if s.Failed? || !s.cursor.Starts(EqualSign) || !Assignable(s.value) { return; }
    SkipReached(Start(c), s.cursor);
    var here := s.cursor.Next();
    AssignmentSpans(m, here, cons);
    var v := ParseAssignment(m, here, cons);
    if v.Parsed? {
      LaterWithin(Start(c), here, v);
      EndsLater(here, v);
      KeepsWithin(s.value, Start(c), s.cursor.LastEnd(), v.cursor.LastEnd());
      PairEnclosed(s.value, v.value, Start(c), v.cursor.LastEnd());
      LocatedTree(m, Assignment(s.value, v.value), Start(c), v.cursor);
    }
  }

  /** A parse ends no earlier than the cursor it began at. */
  lemma EndsLater(c: Cursor, r: Parse<Expr>)
    requires Ordered(c) && c.previous.Some? && r.Parsed? && Spanned(Start(c), r)
    ensures c.LastEnd().AtMost(r.cursor.LastEnd())
  {
    hide Tree, OrderedStream;
  }

  lemma {:induction false} SendSpans(m: Mode, c: Cursor, cons: bool)
    requires m.spans && Ordered(c)
    ensures Spanned(Start(c), ParseSend(m, c, cons))
    decreases c.Length(), 11
  {
    hide ParseBinary, ParseDestination, Tree, OrderedStream, Locate, Ordered, Within, Enclosed;
    var lo := Start(c);
    BinarySpans(m, c, cons, 6);
    var s := ParseBinary(m, c, cons, 6);
    if s.Failed? || !s.cursor.Starts(SendWord) { return; }
    SkipReached(lo, s.cursor);
    var here := s.cursor.Next();
    ReachedOrdered(lo, here);
    BinarySpans(m, here, cons, 6);
    var d := ParseBinary(m, here, cons, 6);
    if d.Failed? { return; }
    WholeWithin(lo, s);
    LaterWithin(lo, here, d);
    EndsLater(here, d);
    KeepsWithin(s.value, lo, s.cursor.LastEnd(), d.cursor.LastEnd());
    DestinationSpans(m, d.cursor, cons, lo);
    var t := ParseDestination(m, d.cursor, cons);
    if t.Failed? || t.cursor.Starts(SendWord) { return; }
    var hi := t.cursor.LastEnd();
    KeepsWithin(s.value, lo, d.cursor.LastEnd(), hi);
    KeepsWithin(d.value, lo, d.cursor.LastEnd(), hi);
    SendEnclosed(s.value, d.value, t.value, lo, hi);
    LocatedTree(m, Effect(Send, [s.value, d.value] + (if t.value.Some? then [t.value.value] else [])), lo, t.cursor);
  }

  lemma ReachedOrdered(lo: Position, c: Cursor)
    requires Reached(lo, c)
    ensures Ordered(c) && c.previous.Some?
  {
  }

  lemma WholeWithin(lo: Position, r: Parse<Expr>)
    requires r.Parsed? && Spanned(lo, r)
    ensures Within(r.value, lo, r.cursor.LastEnd())
  {
    hide Tree;
  }

  lemma SendEnclosed(connection: Expr, data: Expr, destination: Option<Expr>, lo: Position, hi: Position)
    requires Within(connection, lo, hi) && Within(data, lo, hi) && (destination.Some? ==> Within(destination.value, lo, hi))
    ensures Enclosed(Effect(Send, [connection, data] + (if destination.Some? then [destination.value] else [])), lo, hi)
  {
    hide Within;
  }

  lemma {:induction false} DestinationSpans(m: Mode, c: Cursor, cons: bool, lo: Position)
    requires m.spans && Reached(lo, c)
    ensures var r := ParseDestination(m, c, cons);
            r.Parsed? ==>
              && Reached(lo, r.cursor) && c.LastEnd().AtMost(r.cursor.LastEnd())
              && (r.value.Some? ==> Within(r.value.value, lo, r.cursor.LastEnd()))
    decreases c.Length(), 11
  {
    hide ParseBinary, Tree, OrderedStream;
    if c.Starts(ToWord) {
      SkipReached(lo, c);
      BinarySpans(m, c.Next(), cons, 6);
      var d := ParseBinary(m, c.Next(), cons, 6);
      if d.Parsed? {
        LaterWithin(lo, c.Next(), d);
        EndsLater(c.Next(), d);
      }
    }
  }

  lemma {:induction false} BinarySpans(m: Mode, c: Cursor, cons: bool, level: nat)
    requires m.spans && Ordered(c) && level <= 6
    ensures Spanned(Start(c), ParseBinary(m, c, cons, level))
    decreases c.Length(), 4 + level
  {
    hide ParseUnary, ParseBinaryRest, Tree, OrderedStream;
    if level == 0 {
      UnarySpans(m, c, cons);
    } else {
      BinarySpans(m, c, cons, level - 1);
      var first := ParseBinary(m, c, cons, level - 1);
      if first.Parsed? {
        BinaryRestSpans(m, first.cursor, cons, level, Start(c), first.value);
      }
    }
  }

  lemma {:induction false} BinaryRestSpans(m: Mode, c: Cursor, cons: bool, level: nat, start: Position, left: Expr)
    requires m.spans && 1 <= level <= 6 && Reached(start, c) && Tree(left) && left.span == Span(start, c.LastEnd())
    ensures Spanned(start, ParseBinaryRest(m, c, cons, level, start, left))
    decreases c.Length(), 0
  {
    hide ParseBinary, OperatorAt, Tree, OrderedStream, Locate;
    var op := NextOperator(c, level);
    if op.None? { return; }
    SkipReached(start, c);
    BinarySpans(m, c.Next(), cons, level - 1);
    var right := ParseBinary(m, c.Next(), cons, level - 1);
    if right.Failed? { return; }
    LaterWithin(start, c.Next(), right);
    EndsLater(c.Next(), right);
    KeepsWithin(left, start, c.LastEnd(), right.cursor.LastEnd());
    PairEnclosed(left, right.value, start, right.cursor.LastEnd());
    var node := Binary(left, op.value, right.value);
    LocatedTree(m, node, start, right.cursor);
    BinaryRestSpans(m, right.cursor, cons, level, start, Locate(m, node, start, right.cursor));
  }

  lemma {:induction false} UnarySpans(m: Mode, c: Cursor, cons: bool)
    requires m.spans && Ordered(c)
    ensures Spanned(Start(c), ParseUnary(m, c, cons))
    decreases c.Length(), 3
  {
    hide ParsePostfix, Tree, OrderedStream, Locate;
    if c.Starts(Bang) || c.Starts(Minus) {
      NextOrdered(c);
      UnarySpans(m, c.Next(), cons);
      var operand := ParseUnary(m, c.Next(), cons);
      if operand.Parsed? {
        LaterWithin(Start(c), c.Next(), operand);
        OneEnclosed(operand.value, Start(c), operand.cursor.LastEnd());
        LocatedTree(m, Unary(if c.Starts(Bang) then Not else Negate, operand.value), Start(c), operand.cursor);
      }
    } else {
      PostfixSpans(m, c, cons);
    }
  }

  lemma {:induction false} PostfixSpans(m: Mode, c: Cursor, cons: bool)
    requires m.spans && Ordered(c)
    ensures Spanned(Start(c), ParsePostfix(m, c, cons))
    decreases c.Length(), 2
  {
    hide ParsePrimary, ParsePostfixRest, Tree, OrderedStream;
    PrimarySpans(m, c, cons);
    var e := ParsePrimary(m, c, cons);
    if e.Parsed? {
      PostfixRestSpans(m, e.cursor, Start(c), e.value);
    }
  }

  lemma {:induction false} PostfixRestSpans(m: Mode, c: Cursor, start: Position, e: Expr)
    requires m.spans && Reached(start, c) && Tree(e) && e.span == Span(start, c.LastEnd())
    ensures Spanned(start, ParsePostfixRest(m, c, start, e))
    decreases c.Length(), 2
  {
    hide ParsePostfixOne, Tree, OrderedStream, Locate;
    PostfixOneSpans(m, c, start, e);
    var one := ParsePostfixOne(m, c, e);
    if one.Parsed? && one.value.Some? {
      LocatedTree(m, one.value.value, start, one.cursor);
      PostfixRestSpans(m, one.cursor, start, Locate(m, one.value.value, start, one.cursor));
    }
  }

  predicate SuffixSpanned(start: Position, one: Parse<Option<Expr>>) {
    one.Parsed? && one.value.Some? ==> Reached(start, one.cursor) && Enclosed(one.value.value, start, one.cursor.LastEnd())
  }

  lemma {:induction false} PostfixOneSpans(m: Mode, c: Cursor, start: Position, e: Expr)
    requires m.spans && Reached(start, c) && Within(e, start, c.LastEnd())
    ensures SuffixSpanned(start, ParsePostfixOne(m, c, e))
    decreases c.Length(), 1, 1
  {
    hide ParseList, ParseAssignment, Tree, OrderedStream, Enclosed, Within, Ordered;
    if c.Starts(LeftParen) {
      CallSpans(m, c, start, e);
    } else if c.Starts(LeftBracket) {
      IndexSpans(m, c, start, e);
    } else if c.Starts(ReceiveWord) {
      SkipReached(start, c);
      KeepsWithin(e, start, c.LastEnd(), c.Next().LastEnd());
      OneEnclosed(e, start, c.Next().LastEnd());
    } else if c.Starts(Dot) {
      PropertySpans(m, c, start, e);
    }
  }

  lemma PropertySpans(m: Mode, c: Cursor, start: Position, e: Expr)
    requires m.spans && Reached(start, c) && Within(e, start, c.LastEnd()) && c.Starts(Dot)
    ensures SuffixSpanned(start, ParsePostfixOne(m, c, e))
  {
    hide ParseList, ParseAssignment, Tree, OrderedStream, Enclosed, Within, Ordered;
    SkipReached(start, c);
    var name := Consume(c.Next(), IdentifierToken);
    if name.Parsed? {
      SkipReached(start, c.Next());
      Transitive(c.LastEnd(), c.Next().LastEnd(), name.cursor.LastEnd());
      KeepsWithin(e, start, c.LastEnd(), name.cursor.LastEnd());
      OneEnclosed(e, start, name.cursor.LastEnd());
    }
  }

  lemma {:induction false} CallSpans(m: Mode, c: Cursor, start: Position, e: Expr)
    requires m.spans && Reached(start, c) && Within(e, start, c.LastEnd()) && c.Starts(LeftParen)
    ensures SuffixSpanned(start, ParsePostfixOne(m, c, e))
    decreases c.Length(), 1, 0
  {
    hide ParseList, ParseAssignment, Tree, OrderedStream, Enclosed, Within, Ordered, AllWithin;
    SkipReached(start, c);
    ListSpans(m, c.Next(), RightParen, start);
    var arguments := ParseList(m, c.Next(), RightParen);
    if arguments.Parsed? {
      Transitive(c.LastEnd(), c.Next().LastEnd(), arguments.cursor.LastEnd());
      KeepsWithin(e, start, c.LastEnd(), arguments.cursor.LastEnd());
      CallEnclosed(e, arguments.value, start, arguments.cursor.LastEnd());
    }
  }

  lemma {:induction false} IndexSpans(m: Mode, c: Cursor, start: Position, e: Expr)
    requires m.spans && Reached(start, c) && Within(e, start, c.LastEnd()) && c.Starts(LeftBracket)
    ensures SuffixSpanned(start, ParsePostfixOne(m, c, e))
    decreases c.Length(), 1, 0
  {
    hide ParseList, ParseAssignment, Tree, OrderedStream, Enclosed, Within, Ordered;
    SkipReached(start, c);
    ReachedOrdered(start, c.Next());
    AssignmentSpans(m, c.Next(), true);
    var index := ParseAssignment(m, c.Next(), true);
    if index.Failed? || !index.cursor.Starts(RightBracket) { return; }
    LaterWithin(start, c.Next(), index);
    EndsLater(c.Next(), index);
    SkipReached(start, index.cursor);
    var after := index.cursor.Next();
    Transitive(c.LastEnd(), c.Next().LastEnd(), index.cursor.LastEnd());
    Transitive(c.LastEnd(), index.cursor.LastEnd(), after.LastEnd());
    KeepsWithin(e, start, c.LastEnd(), after.LastEnd());
    KeepsWithin(index.value, start, index.cursor.LastEnd(), after.LastEnd());
    PairEnclosed(e, index.value, start, after.LastEnd());
  }

  /** The elements lie between `lo` and the closing delimiter. */
  predicate ListSpanned(lo: Position, c: Cursor, r: Parse<seq<Expr>>) {
    r.Parsed? ==> Reached(lo, r.cursor) && c.LastEnd().AtMost(r.cursor.LastEnd()) && AllWithin(r.value, lo, r.cursor.LastEnd())
  }

  lemma {:induction false} ListSpans(m: Mode, c: Cursor, closing: TokenKind, lo: Position)
    requires m.spans && Reached(lo, c)
    ensures ListSpanned(lo, c, ParseList(m, c, closing))
    decreases c.Length(), 14
  {
    hide ParseItems, Tree, OrderedStream, Ordered;
    if c.Starts(closing) {
      SkipReached(lo, c);
    } else {
      ItemsSpans(m, c, closing, [], lo);
    }
  }

  lemma AddWithin(done: seq<Expr>, e: Expr, lo: Position, mid: Position, hi: Position)
    requires AllWithin(done, lo, mid) && mid.AtMost(hi) && Within(e, lo, hi)
    ensures AllWithin(done + [e], lo, hi)
  {
    hide Within;
    WidenAll(done, lo, mid, lo, hi);
  }

  lemma {:induction false} ItemsSpans(m: Mode, c: Cursor, closing: TokenKind, done: seq<Expr>, lo: Position)
    requires m.spans && Reached(lo, c) && AllWithin(done, lo, c.LastEnd())
    ensures ListSpanned(lo, c, ParseItems(m, c, closing, done))
    decreases c.Length(), 13
  {
    hide ParseAssignment, Tree, OrderedStream, Ordered, Within, AllWithin;
    ReachedOrdered(lo, c);
    AssignmentSpans(m, c, true);
    var e := ParseAssignment(m, c, true);
    if e.Failed? { return; }
    LaterWithin(lo, c, e);
    EndsLater(c, e);
    AddWithin(done, e.value, lo, c.LastEnd(), e.cursor.LastEnd());
    var more := done + [e.value];
    if e.cursor.Starts(Comma) {
      SkipReached(lo, e.cursor);
      var next := e.cursor.Next();
      WidenAll(more, lo, e.cursor.LastEnd(), lo, next.LastEnd());
      Transitive(c.LastEnd(), e.cursor.LastEnd(), next.LastEnd());
      if !next.Starts(closing) {
        ItemsSpans(m, next, closing, more, lo);
        var r := ParseItems(m, next, closing, more);
        if r.Parsed? {
          Transitive(c.LastEnd(), next.LastEnd(), r.cursor.LastEnd());
        }
      } else {
        CloseSpans(lo, c, next, more);
      }
    } else if e.cursor.Starts(closing) {
      CloseSpans(lo, c, e.cursor, more);
    }
  }

  lemma CloseSpans(lo: Position, c: Cursor, last: Cursor, es: seq<Expr>)
    requires Reached(lo, last) && last.rest.More? && c.LastEnd().AtMost(last.LastEnd()) && AllWithin(es, lo, last.LastEnd())
    ensures Reached(lo, last.Next()) && c.LastEnd().AtMost(last.Next().LastEnd()) && AllWithin(es, lo, last.Next().LastEnd())
  {
    hide AllWithin, OrderedStream, Ordered;
    SkipReached(lo, last);
    WidenAll(es, lo, last.LastEnd(), lo, last.Next().LastEnd());
  }

  predicate FieldsSpanned(lo: Position, c: Cursor, r: Parse<seq<Field>>) {
    r.Parsed? ==> Reached(lo, r.cursor) && c.LastEnd().AtMost(r.cursor.LastEnd()) && FieldsWithin(r.value, lo, r.cursor.LastEnd())
  }

  lemma {:induction false} FieldsSpans(m: Mode, c: Cursor, lo: Position)
    requires m.spans && Reached(lo, c)
    ensures FieldsSpanned(lo, c, ParseFields(m, c))
    decreases c.Length(), 15
  {
    hide ParseFieldItems, Tree, OrderedStream, Ordered;
    if c.Starts(RightBrace) {
      SkipReached(lo, c);
    } else {
      FieldItemsSpans(m, c, [], lo);
    }
  }

  lemma {:induction false} FieldSpans(m: Mode, c: Cursor, lo: Position)
    requires m.spans && Reached(lo, c)
    ensures var r := ParseField(m, c);
            r.Parsed? ==> Reached(lo, r.cursor) && c.LastEnd().AtMost(r.cursor.LastEnd())
                          && Within(r.value.value, lo, r.cursor.LastEnd())
    decreases c.Length(), 13
  {
    hide ParseAssignment, Tree, OrderedStream, Ordered, Within, KeyOfToken;
    if KeyOfToken(c.Peek()).Err? || c.rest.End? { return; }
    SkipReached(lo, c);
    var colon := Consume(c.Next(), Colon);
    if colon.Failed? { return; }
    SkipReached(lo, c.Next());
    var here := colon.cursor;
    ReachedOrdered(lo, here);
    AssignmentSpans(m, here, true);
    var v := ParseAssignment(m, here, true);
    if v.Parsed? {
      LaterWithin(lo, here, v);
      EndsLater(here, v);
      Transitive(c.LastEnd(), c.Next().LastEnd(), here.LastEnd());
      Transitive(c.LastEnd(), here.LastEnd(), v.cursor.LastEnd());
    }
  }

  lemma AddFieldWithin(done: seq<Field>, field: Field, lo: Position, mid: Position, hi: Position)
    requires FieldsWithin(done, lo, mid) && mid.AtMost(hi) && Within(field.value, lo, hi)
    ensures FieldsWithin(done + [field], lo, hi)
  {
    hide Within;
    WidenFields(done, lo, mid, lo, hi);
  }

  lemma {:induction false} FieldItemsSpans(m: Mode, c: Cursor, done: seq<Field>, lo: Position)
    requires m.spans && Reached(lo, c) && FieldsWithin(done, lo, c.LastEnd())
    ensures FieldsSpanned(lo, c, ParseFieldItems(m, c, done))
    decreases c.Length(), 14
  {
    hide ParseField, Tree, OrderedStream, Ordered, Within, FieldsWithin;
    FieldSpans(m, c, lo);
    var field := ParseField(m, c);
    if field.Failed? { return; }
    AddFieldWithin(done, field.value, lo, c.LastEnd(), field.cursor.LastEnd());
    var more := done + [field.value];
    if field.cursor.Starts(Comma) {
      SkipReached(lo, field.cursor);
      var next := field.cursor.Next();
      WidenFields(more, lo, field.cursor.LastEnd(), lo, next.LastEnd());
      Transitive(c.LastEnd(), field.cursor.LastEnd(), next.LastEnd());
      if !next.Starts(RightBrace) {
        FieldItemsSpans(m, next, more, lo);
        var r := ParseFieldItems(m, next, more);
        if r.Parsed? {
          Transitive(c.LastEnd(), next.LastEnd(), r.cursor.LastEnd());
        }
      } else {
        CloseFieldSpans(lo, c, next, more);
      }
    } else if field.cursor.Starts(RightBrace) {
      CloseFieldSpans(lo, c, field.cursor, more);
    }
  }

  lemma CloseFieldSpans(lo: Position, c: Cursor, last: Cursor, fields: seq<Field>)
    requires Reached(lo, last) && last.rest.More? && c.LastEnd().AtMost(last.LastEnd()) && FieldsWithin(fields, lo, last.LastEnd())
    ensures Reached(lo, last.Next()) && c.LastEnd().AtMost(last.Next().LastEnd()) && FieldsWithin(fields, lo, last.Next().LastEnd())
  {
    hide FieldsWithin, OrderedStream, Ordered;
    SkipReached(lo, last);
    WidenFields(fields, lo, last.LastEnd(), lo, last.Next().LastEnd());
  }

  lemma {:induction false} PrimarySpans(m: Mode, c: Cursor, cons: bool)
    requires m.spans && Ordered(c)
    ensures Spanned(Start(c), ParsePrimary(m, c, cons))
    decreases c.Length(), 1
  {
    hide ParsePrimaryInner, Tree, OrderedStream, Locate, Enclosed;
    PrimaryInnerSpans(m, c, cons);
    var e := ParsePrimaryInner(m, c, cons);
    if e.Parsed? {
      LocatedTree(m, e.value, Start(c), e.cursor);
    }
  }

  lemma LeafEnclosed(e: Expr, lo: Position, hi: Position)
    requires !e.Located? && Parts(e) == []
    ensures Enclosed(e, lo, hi)
  {
  }

  lemma LiteralLeaf(m: Mode, token: Token)
    requires IsLiteral(token.kind)
    ensures LiteralOf(m, token).Ok? ==> !LiteralOf(m, token).value.Located? && Parts(LiteralOf(m, token).value) == []
  {
  }

  lemma {:induction false} PrimaryInnerSpans(m: Mode, c: Cursor, cons: bool)
    requires m.spans && Ordered(c)
    ensures InnerSpanned(Start(c), ParsePrimaryInner(m, c, cons))
    decreases c.Length(), 0
  {
    if c.rest.End? { return; }
    var token, next, lo := c.rest.head, c.Next(), Start(c);
    NextOrdered(c);
    hide ParseList, ParseAssignment, ParseFields, ParseObject, ParseConnection, ParseRequest, LiteralOf, Tree, OrderedStream, Enclosed, Within, AllWithin, FieldsWithin;
    if IsLiteral(token.kind) {
      LiteralLeaf(m, token);
      if LiteralOf(m, token).Ok? {
        LeafEnclosed(LiteralOf(m, token).value, lo, next.LastEnd());
      }
    } else if token.kind.TransportWord? {
      ConnectionSpans(m, next, token.kind.transport, lo);
    } else if token.kind.VerbWord? {
      RequestSpans(m, next, token.kind.verb, lo);
    } else if token.kind.IdentifierToken? {
      if cons && next.Starts(LeftBrace) {
        SkipReached(lo, next);
        FieldsSpans(m, next.Next(), lo);
        var fields := ParseFields(m, next.Next());
        if fields.Parsed? {
          FieldPartsWithin(fields.value, lo, fields.cursor.LastEnd());
        }
      } else {
        LeafEnclosed(Identifier(token.lexeme), lo, next.LastEnd());
      }
    } else if token.kind.LeftParen? {
      ParenSpans(m, next, lo);
    } else if token.kind.LeftBracket? {
      ListSpans(m, next, RightBracket, lo);
      var elements := ParseList(m, next, RightBracket);
      if elements.Parsed? {
        ArrayEnclosed(elements.value, lo, elements.cursor.LastEnd());
      }
    } else if token.kind.LeftBrace? {
      ObjectSpans(m, next, lo);
    }
  }

  lemma ArrayEnclosed(elements: seq<Expr>, lo: Position, hi: Position)
    requires AllWithin(elements, lo, hi)
    ensures Enclosed(ArrayLit(elements), lo, hi)
  {
  }

  lemma {:induction false} ParenSpans(m: Mode, c: Cursor, lo: Position)
    requires m.spans && Reached(lo, c)
    ensures var e := ParseAssignment(m, c, true);
            e.Parsed? && e.cursor.Starts(RightParen) ==>
              Reached(lo, e.cursor.Next()) && Enclosed(e.value, lo, e.cursor.Next().LastEnd())
    decreases c.Length(), 13
  {
    hide ParseAssignment, Tree, OrderedStream, Enclosed, Within;
    AssignmentSpans(m, c, true);
    var e := ParseAssignment(m, c, true);
    if e.Failed? || !e.cursor.Starts(RightParen) { return; }
    LaterWithin(lo, c, e);
    SkipReached(lo, e.cursor);
    KeepsWithin(e.value, lo, e.cursor.LastEnd(), e.cursor.Next().LastEnd());
    TreeEncloses(e.value, lo, e.cursor.Next().LastEnd());
  }

  /** An object starts at its brace, which is at or behind the place its context started. */
  lemma {:induction false} ObjectSpans(m: Mode, c: Cursor, lo: Position)
    requires m.spans && Reached(lo, c) && lo.AtMost(c.previous.value.span.start) && c.previous.value.span.start.AtMost(c.LastEnd())
    ensures InnerSpanned(lo, ParseObject(m, c))
    ensures ParseObject(m, c).Parsed? ==>
              && Within(ParseObject(m, c).value, lo, ParseObject(m, c).cursor.LastEnd())
              && c.LastEnd().AtMost(ParseObject(m, c).cursor.LastEnd())
    decreases c.Length(), 16
  {
    hide ParseFields, Tree, OrderedStream, FieldsWithin, Locate, Enclosed;
    var start := c.previous.value.span.start;
    FieldsSpans(m, c, start);
    var fields := ParseFields(m, c);
    if fields.Parsed? {
      FieldPartsWithin(fields.value, start, fields.cursor.LastEnd());
      LocatedTree(m, ObjectLit(fields.value), start, fields.cursor);
      var e := Locate(m, ObjectLit(fields.value), start, fields.cursor);
      assert Within(e, lo, fields.cursor.LastEnd());
      TreeEncloses(e, lo, fields.cursor.LastEnd());
    }
  }

  lemma {:induction false} ConnectionSpans(m: Mode, c: Cursor, transport: Transport, lo: Position)
    requires m.spans && Reached(lo, c)
    ensures InnerSpanned(lo, ParseConnection(m, c, transport))
    decreases c.Length(), 13
  {
    hide ParseBinary, Tree, OrderedStream, Within, Enclosed, Ordered;
    ReachedOrdered(lo, c);
    BinarySpans(m, c, false, 6);
    var address := ParseBinary(m, c, false, 6);
    if address.Failed? { return; }
    LaterWithin(lo, c, address);
    OneEnclosed(address.value, lo, address.cursor.LastEnd());
    if address.cursor.Starts(UsingWord) {
      SkipReached(lo, address.cursor);
      var next := address.cursor.Next();
      if next.Starts(IdentifierToken) {
        SkipReached(lo, next);
        Transitive(address.cursor.LastEnd(), next.LastEnd(), next.Next().LastEnd());
        KeepsWithin(address.value, lo, address.cursor.LastEnd(), next.Next().LastEnd());
        OneEnclosed(address.value, lo, next.Next().LastEnd());
      }
    }
  }

  lemma {:induction false} RequestSpans(m: Mode, c: Cursor, verb: HttpMethod, lo: Position)
    requires m.spans && Reached(lo, c)
    ensures InnerSpanned(lo, ParseRequest(m, c, verb))
    decreases c.Length(), 13
  {
    hide ParseAssignment, ParseObject, Tree, OrderedStream, Within, Enclosed, Ordered;
    ReachedOrdered(lo, c);
    AssignmentSpans(m, c, false);
    var url := ParseAssignment(m, c, false);
    if url.Failed? { return; }
    LaterWithin(lo, c, url);
    OneEnclosed(url.value, lo, url.cursor.LastEnd());
    if url.cursor.Starts(LeftBrace) {
      SkipReached(lo, url.cursor);
      BraceFacts(lo, url.cursor);
      ObjectSpans(m, url.cursor.Next(), lo);
      var config := ParseObject(m, url.cursor.Next());
      if config.Parsed? {
        Transitive(url.cursor.LastEnd(), url.cursor.Next().LastEnd(), config.cursor.LastEnd());
        KeepsWithin(url.value, lo, url.cursor.LastEnd(), config.cursor.LastEnd());
        PairEnclosed(url.value, config.value, lo, config.cursor.LastEnd());
      }
    }
  }

  lemma BraceFacts(lo: Position, c: Cursor)
    requires Reached(lo, c) && c.rest.More?
    ensures var token := c.Next().previous.value;
            c.Next().previous.Some? && lo.AtMost(token.span.start) && token.span.start.AtMost(c.Next().LastEnd())
  {
  }
}
