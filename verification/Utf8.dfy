/** The encoding behind the byte count of buffered output: section 3 of RFC 3629. */
module Utf8 {
  import opened Source
  import opened Operations

  /** Six more bits of a character, behind the mark of a continuation byte. */
  function Continuation(code: nat): (byte: Utf8Byte)
    ensures 0x80 <= byte < 0xC0 && byte % 0x40 == code % 0x40
  {
    0x80 + code % 0x40
  }

  function Encoded(c: char): seq<Utf8Byte> {
    var code: nat := c as int;
    if code < 0x80 then [code]
    else if code < 0x800 then [0xC0 + code / 0x40, Continuation(code)]
    else if code < 0x1_0000 then [0xE0 + code / 0x1000, Continuation(code / 0x40), Continuation(code)]
    else
      assert code < 0x11_0000;
      [0xF0 + code / 0x4_0000, Continuation(code / 0x1000), Continuation(code / 0x40), Continuation(code)]
  }

  function EncodedText(text: string): seq<Utf8Byte> {
    if text == [] then [] else Encoded(text[0]) + EncodedText(text[1..])
  }

  /** How many bytes a character takes, told from the first. */
  function Width(lead: Utf8Byte): nat {
    if lead < 0x80 then 1 else if lead < 0xE0 then 2 else if lead < 0xF0 then 3 else 4
  }

  /** The low bits of a byte. */
  function Low(byte: Utf8Byte, bits: nat): nat
    requires bits > 0
  {
    var b: nat := byte;
    b % bits
  }

  /** The code of the character these bytes start with. */
  function CodeOf(bytes: seq<Utf8Byte>): nat
    requires bytes != [] && |bytes| >= Width(bytes[0])
  {
    match Width(bytes[0])
    case 1 => bytes[0]
    case 2 => Low(bytes[0], 0x20) * 0x40 + Low(bytes[1], 0x40)
    case 3 => (Low(bytes[0], 0x10) * 0x40 + Low(bytes[1], 0x40)) * 0x40 + Low(bytes[2], 0x40)
    case _ => ((Low(bytes[0], 0x08) * 0x40 + Low(bytes[1], 0x40)) * 0x40 + Low(bytes[2], 0x40)) * 0x40 + Low(bytes[3], 0x40)
  }

  lemma LowOfContinuation(code: nat)
    ensures Low(Continuation(code), 0x40) == code % 0x40
  {
  }

  lemma LowOfLead(q: nat)
    ensures q < 0x20 ==> Low(0xC0 + q, 0x20) == q
    ensures q < 0x10 ==> Low(0xE0 + q, 0x10) == q
    ensures q < 0x08 ==> Low(0xF0 + q, 0x08) == q
  {
  }

  /** The digits of a code to the base 64. */
  lemma SixBits(code: nat)
    ensures code == code / 0x40 * 0x40 + code % 0x40
    ensures code / 0x40 == code / 0x1000 * 0x40 + code / 0x40 % 0x40
    ensures code / 0x1000 == code / 0x4_0000 * 0x40 + code / 0x1000 % 0x40
  {
  }

  /** A character is read back whatever follows it. */
  lemma EncodingReads(c: char, rest: seq<Utf8Byte>)
    ensures var bytes := Encoded(c) + rest;
            bytes != [] && Width(bytes[0]) == |Encoded(c)| && CodeOf(bytes) == c as int
  {
    hide Low, Continuation;
    var code: nat := c as int;
    SixBits(code);
    LowOfContinuation(code);
    LowOfContinuation(code / 0x40);
    LowOfContinuation(code / 0x1000);
    LowOfLead(code / 0x40);
    LowOfLead(code / 0x1000);
    LowOfLead(code / 0x4_0000);
  }

  /** The count the output limit is about is the length of the encoding. */
  lemma {:induction false} CountsBytes(text: string)
    ensures Utf8Length(text) == |EncodedText(text)|
  {
    if text != [] {
      CountsBytes(text[1..]);
    }
  }
}
