/** Source positions and half-open ranges (src/source.rs). */
module Source {

  const LAST: nat := 0xffff_ffff_ffff_ffff

  datatype Position = Position(line: nat, column: nat) {
    /** The derived lexicographic order. */
    predicate AtMost(other: Position) {
      line < other.line || (line == other.line && column <= other.column)
    }
  }

  datatype Span = Span(start: Position, end: Position) {
    predicate Contains(inner: Span) {
      start.AtMost(inner.start) && inner.end.AtMost(end)
    }
  }

  type Utf8Byte = b: int | 0 <= b < 256

  function Saturated(x: nat): nat {
    if x >= LAST then x else x + 1
  }

  /** One byte of raw text: a newline starts a line, every other byte is a column. */
  function Step(p: Position, byte: Utf8Byte): Position {
    if byte == 10 then Position(Saturated(p.line), 1) else Position(p.line, Saturated(p.column))
  }

  function Walk(start: Position, text: seq<Utf8Byte>): Position {
    if text == [] then start else Step(Walk(start, text[..|text| - 1]), text[|text| - 1])
  }

  method FromText(start: Position, text: seq<Utf8Byte>) returns (span: Span)
    ensures span == Span(start, Walk(start, text))
  {
    var end := start;
    for i := 0 to |text|
      invariant end == Walk(start, text[..i])
    {
      assert text[..i + 1][..i] == text[..i];
      if text[i] == 10 {
        end := Position(Saturated(end.line), 1);
      } else {
        end := Position(end.line, Saturated(end.column));
      }
    }
    assert text[..|text|] == text;
    span := Span(start, end);
  }

  lemma {:induction false} WalkContinues(start: Position, a: seq<Utf8Byte>, b: seq<Utf8Byte>)
    ensures Walk(start, a + b) == Walk(Walk(start, a), b)
  {
    if b == [] {
      assert a + b == a;
    } else {
      var last := |b| - 1;
      assert (a + b)[..|a + b| - 1] == a + b[..last];
      WalkContinues(start, a, b[..last]);
    }
  }

  /** Counting up saturates. */
  function Counted(x: nat, n: nat): nat {
    if x >= LAST then x else if x + n <= LAST then x + n else LAST
  }

  /** The text behind the last newline. */
  function Tail(text: seq<Utf8Byte>): seq<Utf8Byte> {
    if text == [] || text[|text| - 1] == 10 then [] else Tail(text[..|text| - 1]) + [text[|text| - 1]]
  }

  /** Where walking ends, without walking: a line for each newline, a column for each byte behind the last one. */
  lemma {:induction false} WalkEnds(start: Position, text: seq<Utf8Byte>)
    ensures Walk(start, text) ==
            Position(Counted(start.line, multiset(text)[10]), Counted(if 10 in text then 1 else start.column, |Tail(text)|))
  {
    if text != [] {
      var front, last := text[..|text| - 1], text[|text| - 1];
      assert text == front + [last];
      WalkEnds(start, front);
    }
  }

  /**
   * Exactly when text ends no earlier than it starts. It fails where the line
   * number is saturated, a newline restarts the column, and the text behind it
   * does not reach the column of the start again.
   */
  lemma WalkForwardIff(start: Position, text: seq<Utf8Byte>)
    ensures start.AtMost(Walk(start, text)) <==>
              start.line < LAST || 10 !in text || start.column <= Counted(1, |Tail(text)|)
  {
    WalkEnds(start, text);
  }

  /** At the last line number a newline moves backwards: the column restarts and the line cannot grow. */
  lemma SaturatedLineGoesBack()
    ensures var start := Position(LAST, 5); !start.AtMost(Walk(start, [10]))
  {
    assert [10 as Utf8Byte][..0] == [];
  }
}
