/** Writing a frame, and reading it back. */
module FrameWriting {
  import opened Basics
  import opened Frames

  // "Content-Length" and "Binary-Length", as written
  const CONTENT_NAME: Bytes := [67, 111, 110, 116, 101, 110, 116, 45, 76, 101, 110, 103, 116, 104]
  const BINARY_NAME: Bytes := [66, 105, 110, 97, 114, 121, 45, 76, 101, 110, 103, 116, 104]

  function Digits(n: nat): Bytes {
    if n < 10 then [(48 + n) as byte] else Digits(n / 10) + [(48 + n % 10) as byte]
  }

  function HeaderLine(name: Bytes, length: nat): Bytes {
    name + [COLON, SPACE] + Digits(length) + [RETURN, NEWLINE]
  }

  /** The binary part has a header of its own only when there is one. */
  function FrameBytes(payload: Bytes, binary: Bytes): Bytes {
    HeaderLine(CONTENT_NAME, |payload|) + (if binary == [] then [] else HeaderLine(BINARY_NAME, |binary|)) +
    [RETURN, NEWLINE] + payload + binary
  }

  /** Text as far as the headers are concerned: plain ASCII is. */
  ghost predicate ReadsAscii(text: Bytes -> bool) {
    forall bytes :: (forall i :: 0 <= i < |bytes| ==> bytes[i] < 128) ==> text(bytes)
  }

  lemma {:induction false} DigitsAreDigits(n: nat)
    ensures Digits(n) != [] && forall i :: 0 <= i < |Digits(n)| ==> Digit(Digits(n)[i])
    ensures Number(Digits(n)) == n
  {
    if n >= 10 {
      DigitsAreDigits(n / 10);
      assert Digits(n)[..|Digits(n)| - 1] == Digits(n / 10);
    } else {
      assert Digits(n)[..0] == [];
    }
  }

  function Power(k: nat): nat {
    if k == 0 then 1 else 10 * Power(k - 1)
  }

  lemma {:induction false} DigitsAreFew(n: nat, k: nat)
    requires k >= 1 && n < Power(k)
    ensures |Digits(n)| <= k
  {
    if n >= 10 {
      DigitsAreFew(n / 10, k - 1);
    }
  }

  lemma LengthsAreShort(n: nat)
    requires n <= MAX_BINARY
    ensures |Digits(n)| <= 9
  {
    assert Power(3) == 1000;
    assert Power(5) == 100_000;
    assert Power(7) == 10_000_000;
    assert Power(9) == 1_000_000_000;
    DigitsAreFew(n, 9);
  }

  /** A name in a header: no separators, all ASCII. */
  predicate PlainName(name: Bytes) {
    1 <= |name| <= 100 && forall i :: 0 <= i < |name| ==> 33 <= name[i] < 128 && name[i] != COLON
  }

  lemma HeaderLineIsLine(name: Bytes, length: nat, rest: Bytes)
    requires PlainName(name) && length <= MAX_BINARY
    ensures var line := HeaderLine(name, length);
      && LineAt(line + rest) == Line(|line|) && (line + rest)[..|line|] == line && (line + rest)[|line|..] == rest
      && (forall i :: 0 <= i < |line| ==> line[i] < 128)
  {
    var line := HeaderLine(name, length);
    DigitsAreDigits(length);
    LengthsAreShort(length);
    assert forall i :: 0 <= i < |Digits(length)| ==> Digit(Digits(length)[i]);
    forall i | 0 <= i < |line| ensures line[i] < 128 && (i < |line| - 1 ==> line[i] != NEWLINE) {
      if |name| + 2 <= i < |line| - 2 {
        assert line[i] == Digits(length)[i - |name| - 2];
      }
    }
    var data := line + rest;
    assert forall i :: 0 <= i < |line| ==> data[i] == line[i];
    assert data[|line| - 1] == NEWLINE;
    assert IndexOf(data, NEWLINE) == Some(|line| - 1);
  }

  lemma TrimEndTwo(line: Bytes)
    requires line != [] && line[|line| - 1] !in {RETURN, NEWLINE}
    ensures TrimEnd(line + [RETURN, NEWLINE]) == line
  {
    var whole := line + [RETURN, NEWLINE];
    assert whole[..|whole| - 1] == line + [RETURN];
    assert (line + [RETURN])[..|line|] == line;
    assert (line + [RETURN])[|line|] == RETURN && whole[|whole| - 1] == NEWLINE;
    assert TrimEnd(line + [RETURN]) == line;
    assert TrimEnd(whole) == TrimEnd(line + [RETURN]);
  }

  lemma HeaderLineField(name: Bytes, length: nat)
    requires PlainName(name)
    ensures var line := TrimEnd(HeaderLine(name, length));
      line != [] && Field(line) == Some((LowerAll(name), [SPACE] + Digits(length)))
  {
    DigitsAreDigits(length);
    var line := name + [COLON, SPACE] + Digits(length);
    assert Digit(Digits(length)[|Digits(length)| - 1]);
    TrimEndTwo(line);
    assert HeaderLine(name, length) == line + [RETURN, NEWLINE];
    FieldParts(name, Digits(length));
    assert IndexOf(line, COLON) == Some(|name|);
  }

  lemma FieldParts(name: Bytes, digits: Bytes)
    ensures var line := name + [COLON, SPACE] + digits;
      |line| > |name| && line[|name|] == COLON && line[..|name|] == name && line[|name| + 1..] == [SPACE] + digits
  {
    var line := name + [COLON, SPACE] + digits;
    assert line == name + [COLON] + ([SPACE] + digits);
  }

  lemma LengthReadsBack(length: nat, limit: nat)
    requires length <= limit
    ensures ParseLength([SPACE] + Digits(length), limit) == Some(length)
  {
    DigitsAreDigits(length);
    var value := [SPACE] + Digits(length);
    assert value[1..] == Digits(length);
    assert Digit(Digits(length)[0]) && Digit(Digits(length)[|Digits(length)| - 1]);
    assert Trim(value) == Digits(length);
  }

  lemma Names()
    ensures PlainName(CONTENT_NAME) && LowerAll(CONTENT_NAME) == CONTENT_LENGTH
    ensures PlainName(BINARY_NAME) && LowerAll(BINARY_NAME) == BINARY_LENGTH
  {}

  lemma ReadsContentLine(text: Bytes -> bool, length: nat, rest: Bytes, logged: nat)
    requires ReadsAscii(text) && length <= MAX_CONTENT
    ensures ParseHeader(text, HeaderLine(CONTENT_NAME, length) + rest, logged) == ParseRest(text, rest, length, 0, logged)
  {
    Names();
    HeaderLineIsLine(CONTENT_NAME, length, rest);
    HeaderLineField(CONTENT_NAME, length);
    LengthReadsBack(length, MAX_CONTENT);
  }

  lemma ReadsBinaryLine(text: Bytes -> bool, content: nat, length: nat, rest: Bytes, logged: nat)
    requires ReadsAscii(text) && length <= MAX_BINARY
    ensures ParseRest(text, HeaderLine(BINARY_NAME, length) + rest, content, 0, logged) ==
      ParseRest(text, rest, content, length, logged)
  {
    Names();
    HeaderLineIsLine(BINARY_NAME, length, rest);
    HeaderLineField(BINARY_NAME, length);
    LengthReadsBack(length, MAX_BINARY);
  }

  lemma ReadsEmptyLine(text: Bytes -> bool, content: nat, binary: nat, rest: Bytes, logged: nat)
    requires ReadsAscii(text)
    ensures ParseRest(text, [RETURN, NEWLINE] + rest, content, binary, logged) == Header(content, binary, rest, logged)
  {
    var data := [RETURN, NEWLINE] + rest;
    assert data[1] == NEWLINE && data[..2] == [RETURN, NEWLINE] && data[2..] == rest;
    TrimEndBlank();
  }

  lemma TrimEndBlank()
    ensures TrimEnd([RETURN, NEWLINE]) == []
  {
    assert TrimEnd([]) == [];
    assert [RETURN][..0] == [] && TrimEnd([RETURN]) == [];
    assert [RETURN, NEWLINE][..1] == [RETURN];
  }

  lemma HeaderRoundTrip(text: Bytes -> bool, payload: Bytes, binary: Bytes, body: Bytes, logged: nat)
    requires ReadsAscii(text) && |payload| <= MAX_CONTENT && |binary| <= MAX_BINARY
    ensures var extra := if binary == [] then [] else HeaderLine(BINARY_NAME, |binary|);
      ParseHeader(text, HeaderLine(CONTENT_NAME, |payload|) + (extra + ([RETURN, NEWLINE] + body)), logged) ==
        Header(|payload|, |binary|, body, logged)
  {
    var blank := [RETURN, NEWLINE] + body;
    var extra := if binary == [] then [] else HeaderLine(BINARY_NAME, |binary|);
    ReadsContentLine(text, |payload|, extra + blank, logged);
    if binary == [] {
      assert extra + blank == blank;
    } else {
      ReadsBinaryLine(text, |payload|, |binary|, blank, logged);
    }
    ReadsEmptyLine(text, |payload|, |binary|, body, logged);
  }

  lemma CutFrame(text: Bytes -> bool, data: Bytes, logged: nat, payload: Bytes, binary: Bytes, rest: Bytes)
    requires ParseHeader(text, data, logged) == Header(|payload|, |binary|, payload + binary + rest, logged)
    ensures NextFrame(text, data, logged) == Frame(payload, binary, rest, logged)
  {
    BodyParts(payload, binary, rest);
  }

  /** Reading what was written gives both parts back exactly, and stops right after the frame. */
  lemma FrameRoundTrip(text: Bytes -> bool, payload: Bytes, binary: Bytes, rest: Bytes, logged: nat)
    requires ReadsAscii(text) && |payload| <= MAX_CONTENT && |binary| <= MAX_BINARY
    ensures NextFrame(text, FrameBytes(payload, binary) + rest, logged) == Frame(payload, binary, rest, logged)
  {
    FrameParts(payload, binary, rest);
    HeaderRoundTrip(text, payload, binary, payload + binary + rest, logged);
    CutFrame(text, FrameBytes(payload, binary) + rest, logged, payload, binary, rest);
  }

  lemma BodyParts(payload: Bytes, binary: Bytes, rest: Bytes)
    ensures var body := payload + binary + rest;
      && body[..|payload|] == payload && body[|payload|..|payload| + |binary|] == binary
      && body[|payload| + |binary|..] == rest
  {}

  lemma FrameParts(payload: Bytes, binary: Bytes, rest: Bytes)
    ensures var extra := if binary == [] then [] else HeaderLine(BINARY_NAME, |binary|);
      FrameBytes(payload, binary) + rest ==
        HeaderLine(CONTENT_NAME, |payload|) + (extra + ([RETURN, NEWLINE] + (payload + binary + rest)))
  {}
}
