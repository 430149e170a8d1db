/** Literal tokens (src/parser/expression.rs): their texts, and how the texts are read back. */
module Literals {
  import opened Wrappers
  import opened Ast
  import opened Tokens

  // ----- strings -----

  function EscapeOf(c: char): Option<char> {
    if c == 'n' then Some('\n')
    else if c == 't' then Some('\t')
    else if c == 'r' then Some('\r')
    else if c == '"' then Some('"')
    else if c == '\\' then Some('\\')
    else None
  }

  function Decode(content: string): Option<string> {
    if content == [] then Some([])
    else if content[0] != '\\' then
      var rest := Decode(content[1..]);
      if rest.Some? then Some([content[0]] + rest.value) else None
    else if |content| == 1 || EscapeOf(content[1]).None? then None
    else
      var rest := Decode(content[2..]);
      if rest.Some? then Some([EscapeOf(content[1]).value] + rest.value) else None
  }

  /** The text between the quotes; a lone quote is both of them at once and is refused. */
  function Unquoted(lexeme: string): Option<string> {
    if |lexeme| >= 2 && lexeme[0] == '"' && lexeme[|lexeme| - 1] == '"' then Some(lexeme[1..|lexeme| - 1]) else None
  }

  function StringOf(token: Token): Result<string, ParseError> {
    var content := Unquoted(token.lexeme);
    if content.None? then Err(ErrorAt(token, StringSyntax))
    else
      var text := Decode(content.value);
      if text.Some? then Ok(text.value) else Err(ErrorAt(token, StringEscape))
  }

  /** What is decoded so far, in front of what is still to come. */
  function Onto(done: string, rest: Option<string>): Option<string> {
    if rest.Some? then Some(done + rest.value) else None
  }

  lemma DecodeStep(chars: string, i: nat, done: string)
    requires i < |chars|
    ensures chars[i] != '\\' ==> Onto(done, Decode(chars[i..])) == Onto(done + [chars[i]], Decode(chars[i + 1..]))
    ensures chars[i] == '\\' && i + 1 < |chars| && EscapeOf(chars[i + 1]).Some? ==>
              Onto(done, Decode(chars[i..])) == Onto(done + [EscapeOf(chars[i + 1]).value], Decode(chars[i + 2..]))
    ensures chars[i] == '\\' && (i + 1 >= |chars| || EscapeOf(chars[i + 1]).None?) ==> Onto(done, Decode(chars[i..])) == None
  {
    assert chars[i..][1..] == chars[i + 1..];
    if i + 1 < |chars| {
      assert chars[i..][2..] == chars[i + 2..];
    }
    var c := if chars[i] == '\\' then (if i + 1 < |chars| then EscapeOf(chars[i + 1]).GetOr(' ') else ' ') else chars[i];
    var rest := if chars[i] == '\\' then (if i + 1 < |chars| then Decode(chars[i + 2..]) else None) else Decode(chars[i + 1..]);
    if rest.Some? {
      assert done + ([c] + rest.value) == (done + [c]) + rest.value;
    }
  }

  method DecodeString(token: Token) returns (r: Result<string, ParseError>)
    ensures r == StringOf(token)
  {
    var content := Unquoted(token.lexeme);
    if content.None? {
      return Err(ErrorAt(token, StringSyntax));
    }
    hide Decode;
    var chars := content.value;
    var result: string := [];
    var i := 0;
    NothingDone(chars);
    while i < |chars|
      invariant i <= |chars|
      invariant Decode(chars) == Onto(result, Decode(chars[i..]))
    {
      DecodeStep(chars, i, result);
      if chars[i] == '\\' {
        if i + 1 >= |chars| || EscapeOf(chars[i + 1]).None? {
          return Err(ErrorAt(token, StringEscape));
        }
        result := result + [EscapeOf(chars[i + 1]).value];
        i := i + 2;
      } else {
        result := result + [chars[i]];
        i := i + 1;
      }
    }
    AllDone(chars, result);
    return Ok(result);
  }

  lemma NothingDone(chars: string)
    ensures Decode(chars) == Onto([], Decode(chars[0..]))
  {
    assert chars[0..] == chars;
    if Decode(chars).Some? {
      assert [] + Decode(chars).value == Decode(chars).value;
    }
  }

  lemma AllDone(chars: string, result: string)
    ensures Onto(result, Decode(chars[|chars|..])) == Some(result)
  {
    assert chars[|chars|..] == [];
    assert result + [] == result;
  }

  function Escaped(c: char): string {
    if c == '\n' then "\\n"
    else if c == '\t' then "\\t"
    else if c == '\r' then "\\r"
    else if c == '"' then "\\\""
    else if c == '\\' then "\\\\"
    else [c]
  }

  function Escape(text: string): string {
    if text == [] then [] else Escaped(text[0]) + Escape(text[1..])
  }

  /** Escaping protects quotes and backslashes and nothing is lost by it. */
  lemma {:induction false} DecodeEscape(text: string)
    ensures Decode(Escape(text)) == Some(text)
  {
    if text != [] {
      DecodeEscape(text[1..]);
      var first, rest := Escaped(text[0]), Escape(text[1..]);
      assert Escape(text) == first + rest;
      assert (first + rest)[|first|..] == rest;
      assert [text[0]] + text[1..] == text;
    }
  }

  lemma QuotedRoundTrip(token: Token, text: string)
    requires token.lexeme == "\"" + Escape(text) + "\""
    ensures StringOf(token) == Ok(text)
  {
    DecodeEscape(text);
    assert token.lexeme[1..|token.lexeme| - 1] == Escape(text);
  }

  // ----- numbers -----

  predicate IsDigit(c: char) { '0' <= c <= '9' }

  function DigitsValue(digits: string): Option<nat> {
    if digits == [] then Some(0)
    else
      var front := DigitsValue(digits[..|digits| - 1]);
      var last := digits[|digits| - 1];
      if front.Some? && IsDigit(last) then Some(10 * front.value + (last - '0') as nat) else None
  }

  /** Decimal text with an optional sign; a minus only where the type is signed. */
  function ParseInt(text: string, signed: bool): Option<int> {
    if text == [] then None
    else if text[0] == '+' || (signed && text[0] == '-') then
      var n := DigitsValue(text[1..]);
      if |text| > 1 && n.Some? then Some(if text[0] == '-' then -(n.value as int) else n.value as int) else None
    else
      var n := DigitsValue(text);
      if n.Some? then Some(n.value) else None
  }

  function IntegerOf(token: Token): Result<Integer, ParseError> {
    var n := ParseInt(token.lexeme, true);
    if n.Some? && MIN_INTEGER <= n.value <= MAX_INTEGER then Ok(n.value) else Err(ErrorAt(token, IntegerRange))
  }

  /** The digits before the unit and the milliseconds of the unit. */
  function DurationParts(text: string): Option<(string, nat)> {
    var n := |text|;
    if n >= 2 && text[n - 2..] == "ms" then Some((text[..n - 2], 1))
    else if n >= 1 && text[n - 1] == 's' then Some((text[..n - 1], 1000))
    else if n >= 1 && text[n - 1] == 'm' then Some((text[..n - 1], 60000))
    else None
  }

  function DurationOf(token: Token): Result<Duration, ParseError> {
    var parts := DurationParts(token.lexeme);
    if parts.None? then Err(ErrorAt(token, DurationSyntax))
    else
      var n := ParseInt(parts.value.0, false);
      if n.Some? && 0 <= n.value <= MAX_DURATION && n.value * parts.value.1 <= MAX_DURATION
      then Ok(n.value * parts.value.1) else Err(ErrorAt(token, DurationRange))
  }

  function Digit(d: nat): (c: char)
    requires d < 10
    ensures IsDigit(c) && (c - '0') as nat == d
  {
    '0' + d as char
  }

  function Decimal(n: nat): (text: string)
    ensures text != []
    ensures forall c | c in text :: IsDigit(c)
  {
    if n < 10 then [Digit(n)] else Decimal(n / 10) + [Digit(n % 10)]
  }

  lemma {:induction false} DecimalRoundTrip(n: nat)
    ensures DigitsValue(Decimal(n)) == Some(n)
  {
    var text := Decimal(n);
    if n < 10 {
      assert text[..0] == [];
    } else {
      DecimalRoundTrip(n / 10);
      assert text[..|text| - 1] == Decimal(n / 10);
    }
  }

  lemma UnsignedRoundTrip(n: nat, signed: bool)
    ensures ParseInt(Decimal(n), signed) == Some(n)
  {
    DecimalRoundTrip(n);
    assert IsDigit(Decimal(n)[0]);
  }

  function SignedDecimal(i: int): string {
    if i < 0 then "-" + Decimal(-i) else Decimal(i)
  }

  lemma SignedRoundTrip(i: int)
    ensures ParseInt(SignedDecimal(i), true) == Some(i)
  {
    if i < 0 {
      DecimalRoundTrip(-i);
      assert SignedDecimal(i)[1..] == Decimal(-i);
    } else {
      UnsignedRoundTrip(i, true);
    }
  }

  lemma DurationRoundTrip(token: Token, d: Duration)
    requires token.lexeme == Decimal(d) + "ms"
    ensures DurationOf(token) == Ok(d)
  {
    var n := |token.lexeme|;
    assert token.lexeme[n - 2..] == "ms" && token.lexeme[..n - 2] == Decimal(d);
    UnsignedRoundTrip(d, false);
  }

  /** The milliseconds of each unit. */
  function UnitOf(suffix: string): Option<nat> {
    if suffix == "ms" then Some(1) else if suffix == "s" then Some(1000) else if suffix == "m" then Some(60000) else None
  }

  /** A number in any unit is read as its milliseconds, unless they are too many. */
  lemma DurationUnits(token: Token, n: nat, suffix: string)
    requires UnitOf(suffix).Some? && token.lexeme == Decimal(n) + suffix
    ensures var milliseconds := n * UnitOf(suffix).value;
            DurationOf(token) == if milliseconds <= MAX_DURATION then Ok(milliseconds) else Err(ErrorAt(token, DurationRange))
  {
    UnsignedRoundTrip(n, false);
    UnitParts(Decimal(n), suffix);
    hide Decimal, ParseInt, DurationParts;
    assert n <= n * UnitOf(suffix).value;
  }

  /** A unit is told from the digits before it. */
  lemma UnitParts(digits: string, suffix: string)
    requires UnitOf(suffix).Some? && digits != [] && IsDigit(digits[|digits| - 1])
    ensures DurationParts(digits + suffix) == Some((digits, UnitOf(suffix).value))
  {
    var text := digits + suffix;
    assert text[..|digits|] == digits;
    if suffix == "ms" {
      assert text[|text| - 2..] == "ms";
    } else {
      assert text[|text| - 1] == suffix[0];
      assert |text| >= 2 ==> text[|text| - 2] == digits[|digits| - 1];
    }
  }

  /** Written integers are read back exactly when they are in the range of the language. */
  lemma IntegersInRange(token: Token, i: int)
    requires token.lexeme == SignedDecimal(i)
    ensures IntegerOf(token) ==
            if -0x8000_0000_0000_0000 <= i <= 0x7fff_ffff_ffff_ffff then Ok(i) else Err(ErrorAt(token, IntegerRange))
  {
    SignedRoundTrip(i);
  }
}
