/** The framed protocol on a worker's output, as a function of the bytes alone. */
module Frames {
  import opened Basics

  newtype byte = x: int | 0 <= x < 256
  type Bytes = seq<byte>

  const MAX_HEADER_LINE := 8192
  const MAX_LOG_BYTES := 64 * 1024
  const MAX_CONTENT := 16 * 1024 * 1024
  const MAX_BINARY := 256 * 1024 * 1024

  const NEWLINE: byte := 10
  const RETURN: byte := 13
  const COLON: byte := 58
  const SPACE: byte := 32
  const PLUS: byte := 43

  // "content-length" and "binary-length", in lower case
  const CONTENT_LENGTH: Bytes := [99, 111, 110, 116, 101, 110, 116, 45, 108, 101, 110, 103, 116, 104]
  const BINARY_LENGTH: Bytes := [98, 105, 110, 97, 114, 121, 45, 108, 101, 110, 103, 116, 104]

  function IndexOf(data: Bytes, b: byte): (at: Option<nat>)
    ensures at.Some? ==> at.value < |data| && data[at.value] == b && forall i :: 0 <= i < at.value ==> data[i] != b
    ensures at.None? ==> forall i :: 0 <= i < |data| ==> data[i] != b
  {
    if data == [] then None
    else if data[0] == b then Some(0)
    else
      var later := IndexOf(data[1..], b);
      if later.None? then None else Some(later.value + 1)
  }

  function Lower(b: byte): byte {
    if 65 <= b <= 90 then b + 32 else b
  }

  function LowerAll(data: Bytes): (lower: Bytes)
    ensures |lower| == |data| && forall i :: 0 <= i < |data| ==> lower[i] == Lower(data[i])
  {
    seq(|data|, i requires 0 <= i < |data| => Lower(data[i]))
  }

  /** Without trailing returns and newlines. */
  function TrimEnd(data: Bytes): Bytes {
    if data != [] && data[|data| - 1] in {RETURN, NEWLINE} then TrimEnd(data[..|data| - 1]) else data
  }

  predicate White(b: byte) {
    9 <= b <= 13 || b == SPACE
  }

  function Trim(data: Bytes): Bytes {
    if data == [] then []
    else if White(data[0]) then Trim(data[1..])
    else if White(data[|data| - 1]) then Trim(data[..|data| - 1])
    else data
  }

  predicate Digit(b: byte) {
    48 <= b <= 57
  }

  function Number(digits: Bytes): nat
    requires forall i :: 0 <= i < |digits| ==> Digit(digits[i])
  {
    if digits == [] then 0
    else
      assert Digit(digits[|digits| - 1]);
      10 * Number(digits[..|digits| - 1]) + (digits[|digits| - 1] as int - 48)
  }

  /** A length within the limit; one sign is allowed in front of the digits. */
  function ParseLength(value: Bytes, limit: nat): Option<nat> {
    var text := Trim(value);
    var digits := if text != [] && text[0] == PLUS then text[1..] else text;
    if digits == [] || !(forall i :: 0 <= i < |digits| ==> Digit(digits[i])) then None
    else if Number(digits) > limit then None
    else Some(Number(digits))
  }

  /** What the next line amounts to: complete within the limit, none, cut off, or too long. */
  datatype NextLine = Line(length: nat) | AtEnd | Cut | LongLine

  function LineAt(data: Bytes): NextLine {
    var newline := IndexOf(data, NEWLINE);
    if newline.Some? && newline.value < MAX_HEADER_LINE then Line(newline.value + 1)
    else if data == [] then AtEnd
    else if newline.None? && |data| <= MAX_HEADER_LINE then Cut
    else LongLine
  }

  /** A header, the end of the output, or an error. */
  datatype Header =
    | Header(content: nat, binary: nat, rest: Bytes, logged: nat)
    | NoHeader
    | Bad
    | Overlong

  /** The name before the first colon, in lower case, and what follows it. */
  function Field(line: Bytes): Option<(Bytes, Bytes)> {
    var colon := IndexOf(line, COLON);
    if colon.None? then None else Some((LowerAll(line[..colon.value]), line[colon.value + 1..]))
  }

  predicate IsField(line: Bytes, name: Bytes) {
    Field(line).Some? && Field(line).value.0 == name
  }

  /** What a line before a frame is: nothing or a log line, a frame's first header, or an error. */
  datatype Start = Skip(logged: nat) | Begin(content: nat) | Reject

  /** Lines that are not headers are logged, within a total for the life of the worker. */
  function StartOf(text: Bytes -> bool, bytes: Bytes, logged: nat): Start {
    var line := TrimEnd(bytes);
    if !text(bytes) then Reject
    else if line == [] then Skip(logged)
    else if IsField(line, CONTENT_LENGTH) then
      var content := ParseLength(Field(line).value.1, MAX_CONTENT);
      if content.None? then Reject else Begin(content.value)
    else if logged + |line| + 1 > MAX_LOG_BYTES then Reject
    else Skip(logged + |line| + 1)
  }

  function ParseHeader(text: Bytes -> bool, data: Bytes, logged: nat): (header: Header)
    ensures header.Header? ==> |header.rest| < |data|
    decreases |data|
  {
    match LineAt(data)
    case AtEnd => NoHeader
    case Cut => Bad
    case LongLine => Overlong
    case Line(n) =>
      match StartOf(text, data[..n], logged)
      case Reject => Bad
      case Skip(after) => ParseHeader(text, data[n..], after)
      case Begin(content) => ParseRest(text, data[n..], content, 0, logged)
  }

  /** The remaining header lines, up to the empty one. */
  function ParseRest(text: Bytes -> bool, data: Bytes, content: nat, binary: nat, logged: nat): (header: Header)
    ensures header.Header? ==> |header.rest| < |data|
    decreases |data|
  {
    match LineAt(data)
    case AtEnd => Bad
    case Cut => Bad
    case LongLine => Overlong
    case Line(n) =>
      var line, rest := TrimEnd(data[..n]), data[n..];
      if !text(data[..n]) then Bad
      else if line == [] then Header(content, binary, rest, logged)
      else if IsField(line, BINARY_LENGTH) then
        var length := ParseLength(Field(line).value.1, MAX_BINARY);
        if length.None? then Bad else ParseRest(text, rest, content, length.value, logged)
      else ParseRest(text, rest, content, binary, logged)
  }

  datatype Read = Frame(payload: Bytes, binary: Bytes, rest: Bytes, logged: nat) | NoFrame | BadFrame | Unclear

  function NextFrame(text: Bytes -> bool, data: Bytes, logged: nat): (read: Read)
    ensures read.Frame? ==> |read.rest| < |data|
  {
    match ParseHeader(text, data, logged)
    case NoHeader => NoFrame
    case Header(content, binary, rest, after) =>
      if |rest| < content + binary then BadFrame
      else Frame(rest[..content], rest[content..content + binary], rest[content + binary..], after)
    case Bad => BadFrame
    case _ => Unclear
  }
}
