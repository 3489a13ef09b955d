/** Requests and responses over the framed protocol. */
module FrameSession {
  import opened Basics
  import opened FrameReader
  import opened FrameWriting
  import opened Frames

  type Value(!new)

  /** A member that is absent, a number, or something else. */
  datatype Id = NoId | NumberId(id: nat) | OtherId

  /** The members of a response that are looked at; a value that is not an object has none. */
  datatype Message = Message(
    isObject: bool,
    version: Option<string>,
    id: Id,
    method_: Option<string>,
    activity: Option<string>,
    result: Option<Value>,
    error: Option<Value>)

  /** How the output splits into frames, given how much has been logged, and what they say. */
  datatype Codec = Codec(next: (Bytes, nat) -> Read, decode: Bytes -> Option<Message>)

  function Framed(text: Bytes -> bool): (Bytes, nat) -> Read {
    (data: Bytes, logged: nat) => NextFrame(text, data, logged)
  }

  const ACTIVITIES := {"waiting", "materializing", "evaluating", "updating sampler", "saving checkpoint", "shutdown"}

  predicate IsProgress(m: Message) {
    m.id.NoId? && m.method_ == Some("progress")
  }

  predicate ProgressFits(m: Message) {
    m.activity.Some? && m.activity.value in ACTIVITIES
  }

  /** The envelope of a response to request `id`. */
  predicate ValidEnvelope(m: Message, id: nat) {
    m.isObject && m.version == Some("2.0") && m.id == NumberId(id) && (m.result.Some? != m.error.Some?)
  }

  datatype Answer = Reply(message: Message, binary: Bytes, rest: Bytes, logged: nat) | Refused | Ended | AnswerUnclear

  /** Progress frames are taken note of and skipped; the next frame must be the response. */
  function Response(c: Codec, data: Bytes, logged: nat, id: nat): Answer
    decreases |data|
  {
    match c.next(data, logged)
    case NoFrame => Ended
    case BadFrame => Refused
    case Unclear => AnswerUnclear
    case Frame(payload, binary, rest, after) =>
      var m := c.decode(payload);
      if m.None? || |rest| >= |data| then Refused
      else if IsProgress(m.value) then if ProgressFits(m.value) then Response(c, rest, after, id) else Refused
      else if ValidEnvelope(m.value, id) then Reply(m.value, binary, rest, after)
      else Refused
  }

  const U64_MAX: nat := 0xFFFF_FFFF_FFFF_FFFF

  class Worker {
    const codec: Codec
    const output: Reader
    /** Everything written to the worker so far. */
    var input: Bytes
    var nextId: nat

    ghost predicate Valid()
      reads this, output
    {
      output.Valid() && codec.next == Framed(output.text)
    }

    constructor (codec: Codec, output: Reader)
      requires output.Valid() && codec.next == Framed(output.text)
      ensures Valid() && this.codec == codec && this.output == output && input == [] && nextId == 1
    {
      this.codec, this.output, input, nextId := codec, output, [], 1;
    }

    method AllocateRequestId() returns (id: nat)
      modifies this`nextId
      ensures id == old(nextId) && nextId == if id < U64_MAX then id + 1 else id
    {
      id := nextId;
      if nextId < U64_MAX {
        nextId := nextId + 1;
      }
    }

    method Send(payload: Bytes, binary: Bytes)
      modifies this`input
      ensures input == old(input) + FrameBytes(payload, binary)
    {
      input := input + HeaderLine(CONTENT_NAME, |payload|);
      if binary != [] {
        input := input + HeaderLine(BINARY_NAME, |binary|);
      }
      input := input + [RETURN, NEWLINE];
      input := input + payload;
      if binary != [] {
        input := input + binary;
      }
    }

    method ReadResponse(id: nat) returns (r: Answer)
      requires Valid()
      modifies output
      ensures Valid() && r == Response(codec, Flat(old(output.chunks)), old(output.logged), id)
      ensures r.Reply? ==> Flat(output.chunks) == r.rest && output.logged == r.logged
    {
      while true
        invariant Valid()
        invariant Response(codec, Flat(output.chunks), output.logged, id) ==
          Response(codec, Flat(old(output.chunks)), old(output.logged), id)
        decreases |Flat(output.chunks)|
      {
        var frame := output.ReadFrame();
        match frame {
          case NoFrame => return Ended;
          case BadFrame => return Refused;
          case Unclear => return AnswerUnclear;
          case Frame(payload, binary, rest, logged) =>
            var m := codec.decode(payload);
            if m.None? {
              return Refused;
            }
            if !IsProgress(m.value) {
              return if ValidEnvelope(m.value, id) then Reply(m.value, binary, rest, logged) else Refused;
            }
            if !ProgressFits(m.value) {
              return Refused;
            }
        }
      }
    }

    /** One request: a fresh id, one frame out, and the first frame back that is not progress. */
    method Request(encode: nat -> Bytes, binary: Bytes) returns (id: nat, r: Answer)
      requires Valid()
      modifies this, output
      ensures Valid() && id == old(nextId) && nextId == (if id < U64_MAX then id + 1 else id)
      ensures input == old(input) + FrameBytes(encode(id), binary)
      ensures r == Response(codec, Flat(old(output.chunks)), old(output.logged), id)
      ensures r.Reply? ==> Flat(output.chunks) == r.rest && output.logged == r.logged
    {
      id := AllocateRequestId();
      Send(encode(id), binary);
      r := ReadResponse(id);
    }

    /** The first request of a session. */
    method Exchange(calls: seq<Call>, ghost turns: seq<Turn>, ghost rest: Bytes) returns (first: Answer)
      requires Valid() && calls != [] && turns != [] && nextId < U64_MAX && ServesAll(codec, turns, nextId)
      requires Flat(output.chunks) == Printed(turns) + rest && output.logged + TotalCost(turns) <= MAX_LOG_BYTES
      modifies this, output
      ensures Valid() && Match(codec, turns[0], first)
      ensures nextId == old(nextId) + 1 && ServesAll(codec, turns[1..], nextId)
      ensures input + Sent(calls[1..], nextId) == old(input) + Sent(calls, old(nextId))
      ensures Flat(output.chunks) == Printed(turns[1..]) + rest
      ensures output.logged + TotalCost(turns[1..]) == old(output.logged) + TotalCost(turns)
    {
      FirstTurn(codec, turns, rest, output.logged, nextId);
      var id;
      id, first := Request(calls[0].encode, calls[0].binary);
      SentFirst(old(input), calls, id);
    }

    /** One request after the other. */
    method Converse(calls: seq<Call>, ghost turns: seq<Turn>, ghost rest: Bytes) returns (answers: seq<Answer>)
      requires Valid() && |calls| == |turns| && nextId + |calls| <= U64_MAX && ServesAll(codec, turns, nextId)
      requires Flat(output.chunks) == Printed(turns) + rest && output.logged + TotalCost(turns) <= MAX_LOG_BYTES
      modifies this, output
      ensures Valid() && Matches(codec, turns, answers) && nextId == old(nextId) + |calls|
      ensures input == old(input) + Sent(calls, old(nextId))
      ensures Flat(output.chunks) == rest && output.logged == old(output.logged) + TotalCost(turns)
      decreases |calls|
    {
      answers := [];
      if calls != [] {
        var first := Exchange(calls, turns, rest);
        var others := Converse(calls[1..], turns[1..], rest);
        MatchesMore(codec, turns, first, others);
        answers := [first] + others;
      }
    }

    /** Over a whole session each request gets the response and the binary part printed for
        it, whatever is logged or reported in between, as long as the log stays within its total. */
    method Session(calls: seq<Call>, ghost turns: seq<Turn>, ghost rest: Bytes) returns (answers: seq<Answer>)
      requires Valid() && ReadsAscii(output.text) && |calls| == |turns| && nextId + |calls| <= U64_MAX
      requires GoodTurns(codec, output.text, turns, nextId)
      requires Flat(output.chunks) == Printed(turns) + rest && output.logged + TotalCost(turns) <= MAX_LOG_BYTES
      modifies this, output
      ensures Valid() && Matches(codec, turns, answers) && nextId == old(nextId) + |calls|
      ensures input == old(input) + Sent(calls, old(nextId))
      ensures Flat(output.chunks) == rest && output.logged == old(output.logged) + TotalCost(turns)
    {
      GoodServes(codec, output.text, turns, nextId);
      answers := Converse(calls, turns, rest);
    }
  }

  /** What a request is made of, but for its id. */
  datatype Call = Call(encode: nat -> Bytes, binary: Bytes)

  function Sent(calls: seq<Call>, first: nat): Bytes {
    if calls == [] then [] else FrameBytes(calls[0].encode(first), calls[0].binary) + Sent(calls[1..], first + 1)
  }

  lemma SentFirst(before: Bytes, calls: seq<Call>, first: nat)
    requires calls != []
    ensures before + FrameBytes(calls[0].encode(first), calls[0].binary) + Sent(calls[1..], first + 1) == before + Sent(calls, first)
  {}

  /** The first response of a session, and what is left of it. */
  lemma FirstTurn(c: Codec, turns: seq<Turn>, rest: Bytes, logged: nat, id: nat)
    requires turns != [] && Serves(c, turns[0], id) && logged + TotalCost(turns) <= MAX_LOG_BYTES
    ensures var answer := Response(c, Printed(turns) + rest, logged, id);
      && Match(c, turns[0], answer) && answer.rest == Printed(turns[1..]) + rest
      && answer.logged + TotalCost(turns[1..]) == logged + TotalCost(turns)
  {
    PrintedFirst(turns, rest);
    CostFirst(turns);
    Served(c, turns[0], Printed(turns[1..]) + rest, logged, id);
  }

  lemma Served(c: Codec, turn: Turn, rest: Bytes, logged: nat, id: nat)
    requires Serves(c, turn, id) && logged + NoiseCost(turn.noise) <= MAX_LOG_BYTES
    ensures var answer := Response(c, TurnBytes(turn) + rest, logged, id);
      Match(c, turn, answer) && answer.rest == rest && answer.logged == logged + NoiseCost(turn.noise)
  {}

  lemma GoodServes(c: Codec, text: Bytes -> bool, turns: seq<Turn>, first: nat)
    requires ReadsAscii(text) && c.next == Framed(text) && GoodTurns(c, text, turns, first)
    ensures ServesAll(c, turns, first)
  {
    FramedReadsBack(c, text);
    GoodTurnsServe(c, text, turns, first);
  }

  lemma MatchesMore(c: Codec, turns: seq<Turn>, first: Answer, others: seq<Answer>)
    requires turns != [] && Match(c, turns[0], first) && Matches(c, turns[1..], others)
    ensures Matches(c, turns, [first] + others)
  {
    assert ([first] + others)[1..] == others;
  }

  /** Whatever is returned answers this request, in a form section 5 of the JSON-RPC 2.0
      Specification allows, and progress before it was well formed. */
  lemma {:induction false} ReplyAnswers(c: Codec, data: Bytes, logged: nat, id: nat)
    requires Response(c, data, logged, id).Reply?
    ensures var m := Response(c, data, logged, id).message;
      !IsProgress(m) && m.id == NumberId(id) && m.version == Some("2.0") && (m.result.Some? <==> m.error.None?)
    decreases |data|
  {
    var frame := c.next(data, logged);
    if IsProgress(c.decode(frame.payload).value) {
      ReplyAnswers(c, frame.rest, frame.logged, id);
    }
  }

  // Whole sessions

  /** What a worker may print before its response. */
  datatype Noise = Log(line: Bytes) | Progress(payload: Bytes)

  datatype Turn = Turn(noise: seq<Noise>, payload: Bytes, binary: Bytes)

  function NoiseBytes(noise: Noise): Bytes {
    match noise
    case Log(line) => line + [NEWLINE]
    case Progress(payload) => FrameBytes(payload, [])
  }

  function AllNoise(noise: seq<Noise>): Bytes {
    if noise == [] then [] else NoiseBytes(noise[0]) + AllNoise(noise[1..])
  }

  function Printed(turns: seq<Turn>): Bytes {
    if turns == [] then []
    else TurnBytes(turns[0]) + Printed(turns[1..])
  }

  /** Empty lines are not logged. */
  function LogCost(noise: Noise): nat {
    match noise
    case Log(line) => if TrimEnd(line + [NEWLINE]) == [] then 0 else |TrimEnd(line + [NEWLINE])| + 1
    case Progress(_) => 0
  }

  function NoiseCost(noise: seq<Noise>): nat {
    if noise == [] then 0 else LogCost(noise[0]) + NoiseCost(noise[1..])
  }

  function TotalCost(turns: seq<Turn>): nat {
    if turns == [] then 0 else NoiseCost(turns[0].noise) + TotalCost(turns[1..])
  }

  /** A log line is text within the line limit that is not itself a frame header. */
  ghost predicate GoodLog(text: Bytes -> bool, line: Bytes) {
    && NEWLINE !in line && |line| < MAX_HEADER_LINE && text(line + [NEWLINE])
    && !IsField(TrimEnd(line + [NEWLINE]), CONTENT_LENGTH)
  }

  ghost predicate GoodNoise(c: Codec, text: Bytes -> bool, noise: Noise) {
    match noise
    case Log(line) => GoodLog(text, line)
    case Progress(payload) =>
      |payload| <= MAX_CONTENT && c.decode(payload).Some? &&
      IsProgress(c.decode(payload).value) && ProgressFits(c.decode(payload).value)
  }

  ghost predicate AllGood(c: Codec, text: Bytes -> bool, noise: seq<Noise>) {
    noise == [] || (GoodNoise(c, text, noise[0]) && AllGood(c, text, noise[1..]))
  }

  ghost predicate GoodTurn(c: Codec, text: Bytes -> bool, turn: Turn, id: nat) {
    && AllGood(c, text, turn.noise) && |turn.payload| <= MAX_CONTENT && |turn.binary| <= MAX_BINARY
    && c.decode(turn.payload).Some? && ValidEnvelope(c.decode(turn.payload).value, id)
  }

  /** Turns whose responses carry consecutive ids. */
  ghost predicate GoodTurns(c: Codec, text: Bytes -> bool, turns: seq<Turn>, first: nat) {
    turns == [] || (GoodTurn(c, text, turns[0], first) && GoodTurns(c, text, turns[1..], first + 1))
  }

  function TurnBytes(turn: Turn): Bytes {
    AllNoise(turn.noise) + FrameBytes(turn.payload, turn.binary)
  }

  lemma LogIsLine(line: Bytes, rest: Bytes)
    requires NEWLINE !in line && |line| < MAX_HEADER_LINE
    ensures var data := line + [NEWLINE] + rest;
      LineAt(data) == NextLine.Line(|line| + 1) && data[..|line| + 1] == line + [NEWLINE] && data[|line| + 1..] == rest
  {
    var data := line + [NEWLINE] + rest;
    assert data[|line|] == NEWLINE;
    assert forall i :: 0 <= i < |line| ==> data[i] == line[i];
    assert IndexOf(data, NEWLINE) == Some(|line|);
  }

  lemma SkipsLog(text: Bytes -> bool, line: Bytes, rest: Bytes, logged: nat)
    requires GoodLog(text, line) && logged + LogCost(Log(line)) <= MAX_LOG_BYTES
    ensures NextFrame(text, line + [NEWLINE] + rest, logged) == NextFrame(text, rest, logged + LogCost(Log(line)))
  {
    LogIsLine(line, rest);
    assert StartOf(text, line + [NEWLINE], logged) == Skip(logged + LogCost(Log(line)));
  }

  /** What the rest of the proof needs to know about reading. */
  ghost predicate ReadsFrames(next: (Bytes, nat) -> Read) {
    forall payload: Bytes, binary: Bytes, rest: Bytes, logged: nat :: |payload| <= MAX_CONTENT && |binary| <= MAX_BINARY ==>
      next(FrameBytes(payload, binary) + rest, logged) == Frame(payload, binary, rest, logged)
  }

  ghost predicate SkipsLogs(next: (Bytes, nat) -> Read, text: Bytes -> bool) {
    forall line: Bytes, rest: Bytes, logged: nat :: GoodLog(text, line) && logged + LogCost(Log(line)) <= MAX_LOG_BYTES ==>
      next(line + [NEWLINE] + rest, logged) == next(rest, logged + LogCost(Log(line)))
  }

  ghost predicate Advances(next: (Bytes, nat) -> Read) {
    forall data: Bytes, logged: nat :: next(data, logged).Frame? ==> |next(data, logged).rest| < |data|
  }

  ghost predicate ReadsBack(c: Codec, text: Bytes -> bool) {
    ReadsFrames(c.next) && SkipsLogs(c.next, text) && Advances(c.next)
  }

  lemma FramedReadsFrames(text: Bytes -> bool)
    requires ReadsAscii(text)
    ensures ReadsFrames(Framed(text))
  {
    forall payload: Bytes, binary: Bytes, rest: Bytes, logged: nat | |payload| <= MAX_CONTENT && |binary| <= MAX_BINARY
      ensures Framed(text)(FrameBytes(payload, binary) + rest, logged) == Frame(payload, binary, rest, logged)
    {
      FrameRoundTrip(text, payload, binary, rest, logged);
    }
  }

  lemma SameFramed(text: Bytes -> bool, a: Bytes, b: Bytes, x: nat, y: nat)
    requires NextFrame(text, a, x) == NextFrame(text, b, y)
    ensures Framed(text)(a, x) == Framed(text)(b, y)
  {}

  lemma FramedSkipsLogs(text: Bytes -> bool)
    ensures SkipsLogs(Framed(text), text)
  {
    forall line: Bytes, rest: Bytes, logged: nat | GoodLog(text, line) && logged + LogCost(Log(line)) <= MAX_LOG_BYTES
      ensures Framed(text)(line + [NEWLINE] + rest, logged) == Framed(text)(rest, logged + LogCost(Log(line)))
    {
      SkipsLog(text, line, rest, logged);
      SameFramed(text, line + [NEWLINE] + rest, rest, logged, logged + LogCost(Log(line)));
    }
  }

  lemma FramedAdvances(text: Bytes -> bool)
    ensures Advances(Framed(text))
  {}

  lemma FramedReadsBack(c: Codec, text: Bytes -> bool)
    requires ReadsAscii(text) && c.next == Framed(text)
    ensures ReadsBack(c, text)
  {
    FramedReadsFrames(text);
    FramedSkipsLogs(text);
    FramedAdvances(text);
  }

  lemma ReadsFrame(c: Codec, text: Bytes -> bool, payload: Bytes, binary: Bytes, rest: Bytes, logged: nat, id: nat)
    requires ReadsBack(c, text) && |payload| <= MAX_CONTENT && |binary| <= MAX_BINARY && c.decode(payload).Some?
    ensures var m := c.decode(payload).value;
      Response(c, FrameBytes(payload, binary) + rest, logged, id) ==
        if IsProgress(m) then if ProgressFits(m) then Response(c, rest, logged, id) else Refused
        else if ValidEnvelope(m, id) then Reply(m, binary, rest, logged) else Refused
  {
    assert c.next(FrameBytes(payload, binary) + rest, logged) == Frame(payload, binary, rest, logged);
    assert FrameBytes(payload, binary) != [];
  }

  lemma SkipsOne(c: Codec, text: Bytes -> bool, noise: Noise, rest: Bytes, logged: nat, id: nat)
    requires ReadsBack(c, text) && GoodNoise(c, text, noise) && logged + LogCost(noise) <= MAX_LOG_BYTES
    ensures Response(c, NoiseBytes(noise) + rest, logged, id) == Response(c, rest, logged + LogCost(noise), id)
  {
    match noise
    case Log(line) => assert c.next(line + [NEWLINE] + rest, logged) == c.next(rest, logged + LogCost(noise));
    case Progress(payload) => ReadsFrame(c, text, payload, [], rest, logged, id);
  }

  /** One piece of output is passed over, and counts for so much. */
  ghost predicate Passes(answer: (Bytes, nat) -> Answer, piece: Bytes, cost: nat) {
    forall rest: Bytes, logged: nat :: logged + cost <= MAX_LOG_BYTES ==> answer(piece + rest, logged) == answer(rest, logged + cost)
  }

  lemma PassesBoth(answer: (Bytes, nat) -> Answer, a: Bytes, b: Bytes, x: nat, y: nat)
    requires Passes(answer, a, x) && Passes(answer, b, y)
    ensures Passes(answer, a + b, x + y)
  {
    forall rest: Bytes, logged: nat | logged + (x + y) <= MAX_LOG_BYTES
      ensures answer(a + b + rest, logged) == answer(rest, logged + (x + y))
    {
      assert a + b + rest == a + (b + rest);
    }
  }

  function Asked(c: Codec, id: nat): (Bytes, nat) -> Answer {
    (data: Bytes, logged: nat) => Response(c, data, logged, id)
  }

  lemma PassesOne(c: Codec, text: Bytes -> bool, noise: Noise, id: nat)
    requires ReadsBack(c, text) && GoodNoise(c, text, noise)
    ensures Passes(Asked(c, id), NoiseBytes(noise), LogCost(noise))
  {
    forall rest: Bytes, logged: nat | logged + LogCost(noise) <= MAX_LOG_BYTES
      ensures Asked(c, id)(NoiseBytes(noise) + rest, logged) == Asked(c, id)(rest, logged + LogCost(noise))
    {
      SkipsOne(c, text, noise, rest, logged, id);
    }
  }

  lemma {:induction false} PassesNoise(c: Codec, text: Bytes -> bool, noise: seq<Noise>, id: nat)
    requires ReadsBack(c, text) && AllGood(c, text, noise)
    ensures Passes(Asked(c, id), AllNoise(noise), NoiseCost(noise))
  {
    if noise == [] {
      assert forall rest: Bytes :: [] + rest == rest;
    } else {
      PassesOne(c, text, noise[0], id);
      PassesNoise(c, text, noise[1..], id);
      PassesBoth(Asked(c, id), NoiseBytes(noise[0]), AllNoise(noise[1..]), LogCost(noise[0]), NoiseCost(noise[1..]));
    }
  }

  lemma TurnParts(turn: Turn, rest: Bytes)
    ensures TurnBytes(turn) + rest == AllNoise(turn.noise) + (FrameBytes(turn.payload, turn.binary) + rest)
  {}

  lemma PassedNoise(c: Codec, id: nat, piece: Bytes, cost: nat, rest: Bytes, logged: nat)
    requires Passes(Asked(c, id), piece, cost) && logged + cost <= MAX_LOG_BYTES
    ensures Response(c, piece + rest, logged, id) == Response(c, rest, logged + cost, id)
  {
    assert Asked(c, id)(piece + rest, logged) == Asked(c, id)(rest, logged + cost);
  }

  lemma TurnIsAnswered(c: Codec, text: Bytes -> bool, turn: Turn, rest: Bytes, logged: nat, id: nat)
    requires ReadsBack(c, text) && GoodTurn(c, text, turn, id) && logged + NoiseCost(turn.noise) <= MAX_LOG_BYTES
    ensures Response(c, TurnBytes(turn) + rest, logged, id) ==
      Reply(c.decode(turn.payload).value, turn.binary, rest, logged + NoiseCost(turn.noise))
  {
    var frame := FrameBytes(turn.payload, turn.binary) + rest;
    TurnParts(turn, rest);
    PassesNoise(c, text, turn.noise, id);
    PassedNoise(c, id, AllNoise(turn.noise), NoiseCost(turn.noise), frame, logged);
    ReadsFrame(c, text, turn.payload, turn.binary, rest, logged + NoiseCost(turn.noise), id);
  }

  /** The answers to `n` requests with consecutive ids. */
  function Answers(c: Codec, data: Bytes, logged: nat, first: nat, n: nat): seq<Answer>
    decreases n
  {
    if n == 0 then []
    else
      var answer := Response(c, data, logged, first);
      if !answer.Reply? then [answer] else [answer] + Answers(c, answer.rest, answer.logged, first + 1, n - 1)
  }

  /** Over a whole session, each request gets the response and the binary part printed for it,
      whatever is logged or reported in between, as long as the log stays within its total. */
  lemma SessionIsAnswered(c: Codec, text: Bytes -> bool, turns: seq<Turn>, rest: Bytes, logged: nat, first: nat)
    requires ReadsAscii(text) && c.next == Framed(text) && logged + TotalCost(turns) <= MAX_LOG_BYTES
    requires GoodTurns(c, text, turns, first)
    ensures Matches(c, turns, Answers(c, Printed(turns) + rest, logged, first, |turns|))
  {
    GoodServes(c, text, turns, first);
    AllTurnsAnswered(c, turns, rest, logged, first);
  }

  ghost predicate Matches(c: Codec, turns: seq<Turn>, answers: seq<Answer>) {
    |answers| == |turns| && (turns == [] || (Match(c, turns[0], answers[0]) && Matches(c, turns[1..], answers[1..])))
  }

  ghost predicate Match(c: Codec, turn: Turn, answer: Answer) {
    answer.Reply? && answer.binary == turn.binary && Some(answer.message) == c.decode(turn.payload)
  }

  /** Wherever this turn is printed, it answers the request. */
  ghost predicate Serves(c: Codec, turn: Turn, id: nat) {
    forall rest: Bytes, logged: nat :: logged + NoiseCost(turn.noise) <= MAX_LOG_BYTES ==>
      var answer := Response(c, TurnBytes(turn) + rest, logged, id);
      Match(c, turn, answer) && answer.rest == rest && answer.logged == logged + NoiseCost(turn.noise)
  }

  ghost predicate ServesAll(c: Codec, turns: seq<Turn>, first: nat) {
    turns == [] || (Serves(c, turns[0], first) && ServesAll(c, turns[1..], first + 1))
  }

  lemma {:induction false} GoodTurnsServe(c: Codec, text: Bytes -> bool, turns: seq<Turn>, first: nat)
    requires ReadsBack(c, text) && GoodTurns(c, text, turns, first)
    ensures ServesAll(c, turns, first)
  {
    if turns != [] {
      forall rest: Bytes, logged: nat | logged + NoiseCost(turns[0].noise) <= MAX_LOG_BYTES
        ensures var answer := Response(c, TurnBytes(turns[0]) + rest, logged, first);
          Match(c, turns[0], answer) && answer.rest == rest && answer.logged == logged + NoiseCost(turns[0].noise)
      {
        TurnIsAnswered(c, text, turns[0], rest, logged, first);
      }
      GoodTurnsServe(c, text, turns[1..], first + 1);
    }
  }

  lemma {:induction false} AllTurnsAnswered(c: Codec, turns: seq<Turn>, rest: Bytes, logged: nat, first: nat)
    requires ServesAll(c, turns, first) && logged + TotalCost(turns) <= MAX_LOG_BYTES
    ensures Matches(c, turns, Answers(c, Printed(turns) + rest, logged, first, |turns|))
  {
    if turns != [] {
      var more := Printed(turns[1..]) + rest;
      PrintedFirst(turns, rest);
      CostFirst(turns);
      AllTurnsAnswered(c, turns[1..], rest, logged + NoiseCost(turns[0].noise), first + 1);
      ServedThenMatched(c, turns, more, logged, first);
    }
  }

  lemma PrintedFirst(turns: seq<Turn>, rest: Bytes)
    requires turns != []
    ensures Printed(turns) + rest == TurnBytes(turns[0]) + (Printed(turns[1..]) + rest)
  {}

  lemma CostFirst(turns: seq<Turn>)
    requires turns != []
    ensures TotalCost(turns) == NoiseCost(turns[0].noise) + TotalCost(turns[1..])
  {}

  lemma ServedThenMatched(c: Codec, turns: seq<Turn>, more: Bytes, logged: nat, first: nat)
    requires turns != [] && ServesAll(c, turns, first) && logged + NoiseCost(turns[0].noise) <= MAX_LOG_BYTES
    requires Matches(c, turns[1..], Answers(c, more, logged + NoiseCost(turns[0].noise), first + 1, |turns| - 1))
    ensures Matches(c, turns, Answers(c, TurnBytes(turns[0]) + more, logged, first, |turns|))
  {
    FirstMatches(c, turns, TurnBytes(turns[0]) + more, logged, first);
  }

  lemma FirstMatches(c: Codec, turns: seq<Turn>, data: Bytes, logged: nat, first: nat)
    requires turns != [] && Match(c, turns[0], Response(c, data, logged, first))
    requires var answer := Response(c, data, logged, first);
      Matches(c, turns[1..], Answers(c, answer.rest, answer.logged, first + 1, |turns| - 1))
    ensures Matches(c, turns, Answers(c, data, logged, first, |turns|))
  {
    var answer := Response(c, data, logged, first);
    var answers := [answer] + Answers(c, answer.rest, answer.logged, first + 1, |turns| - 1);
    assert answers[1..] == Answers(c, answer.rest, answer.logged, first + 1, |turns| - 1);
  }
}
