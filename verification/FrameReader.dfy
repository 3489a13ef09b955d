/** Reading frames from output that arrives in arbitrary pieces. */
module FrameReader {
  import opened Basics
  import opened Frames

  /** The bytes not read yet, in order. */
  function Flat(chunks: seq<Bytes>): Bytes {
    if chunks == [] then [] else chunks[0] + Flat(chunks[1..])
  }

  ghost predicate NonEmpty(chunks: seq<Bytes>) {
    forall i :: 0 <= i < |chunks| ==> chunks[i] != []
  }

  /** The piece that holds byte `n` of the output. */
  function PieceAt(chunks: seq<Bytes>, n: nat): Bytes
    requires n < |Flat(chunks)|
  {
    if n < |chunks[0]| then chunks[0] else PieceAt(chunks[1..], n - |chunks[0]|)
  }

  /** The pieces without the first `n` bytes of the first one. */
  function Without(chunks: seq<Bytes>, n: nat): seq<Bytes>
    requires chunks != [] && n <= |chunks[0]|
  {
    if n == |chunks[0]| then chunks[1..] else [chunks[0][n..]] + chunks[1..]
  }

  lemma FlatPrefix(chunks: seq<Bytes>, n: nat)
    requires chunks != [] && n <= |chunks[0]|
    ensures Flat(chunks) == chunks[0][..n] + Flat(Without(chunks, n))
    ensures Flat(Without(chunks, n)) == Flat(chunks)[n..]
  {
    var first := chunks[0];
    if n < |first| {
      assert Without(chunks, n)[0] == first[n..] && Without(chunks, n)[1..] == chunks[1..];
      assert Flat(Without(chunks, n)) == first[n..] + Flat(chunks[1..]);
    }
    Sliced(first, Flat(chunks[1..]), n);
  }

  lemma Sliced(a: Bytes, b: Bytes, n: nat)
    requires n <= |a|
    ensures a + b == a[..n] + (a[n..] + b) && (a + b)[n..] == a[n..] + b
    ensures n == |a| ==> a[n..] + b == b && a[..n] == a
  {}

  datatype LineRead = Complete(bytes: Bytes) | NoMore | Terminated | TooLong | Stuck

  /** What reading a line comes to, with some bytes already held. Stuck: the rest of the
      buffer has no newline and no byte of it may be taken any more. */
  function Outcome(held: Bytes, chunks: seq<Bytes>): LineRead
    requires |held| <= MAX_HEADER_LINE
    decreases |chunks|
  {
    if chunks == [] then if held == [] then NoMore else Terminated
    else
      var remaining := MAX_HEADER_LINE - |held|;
      var newline := IndexOf(chunks[0], NEWLINE);
      if newline.Some? then
        if newline.value + 1 > remaining then TooLong else Complete(held + chunks[0][..newline.value + 1])
      else if |chunks[0]| > remaining then Stuck
      else Outcome(held + chunks[0], chunks[1..])
  }

  class Reader {
    const text: Bytes -> bool
    /** What has been buffered or is still to come; the first piece is the buffer. */
    var chunks: seq<Bytes>
    var logged: nat

    ghost predicate Valid()
      reads this
    {
      NonEmpty(chunks)
    }

    constructor (text: Bytes -> bool, chunks: seq<Bytes>)
      requires NonEmpty(chunks)
      ensures Valid() && this.text == text && this.chunks == chunks && logged == 0
    {
      this.text, this.chunks, logged := text, chunks, 0;
    }

    /** Drops bytes from the buffer. */
    method Consume(n: nat)
      requires Valid() && chunks != [] && n <= |chunks[0]|
      modifies this`chunks
      ensures Valid() && chunks == Without(old(chunks), n) && Flat(chunks) == Flat(old(chunks))[n..]
    {
      FlatPrefix(chunks, n);
      if n == |chunks[0]| {
        chunks := chunks[1..];
      } else {
        chunks := [chunks[0][n..]] + chunks[1..];
      }
    }

    /** Takes bytes up to a newline, piece by piece. */
    method ReadHeaderLine() returns (r: LineRead)
      requires Valid()
      modifies this`chunks
      ensures Valid() && r == Outcome([], old(chunks))
      ensures r.Complete? ==> Flat(old(chunks)) == r.bytes + Flat(chunks)
    {
      ghost var data := Flat(chunks);
      var bytes: Bytes := [];
      while true
        invariant Valid() && |bytes| <= MAX_HEADER_LINE && data == bytes + Flat(chunks)
        invariant Outcome(bytes, chunks) == Outcome([], old(chunks))
        decreases |Flat(chunks)|
      {
        if chunks == [] {
          return if bytes == [] then NoMore else Terminated;
        }
        var remaining := MAX_HEADER_LINE - |bytes|;
        var newline := IndexOf(chunks[0], NEWLINE);
        var take := if newline.Some? then newline.value + 1 else if |chunks[0]| < remaining then |chunks[0]| else remaining;
        if take > remaining {
          return TooLong;
        }
        if take == 0 {
          return Stuck;
        }
        TakenMore(bytes, chunks, take);
        if newline.None? {
          OutcomeTakes(bytes, chunks, take);
        }
        bytes := bytes + chunks[0][..take];
        Consume(take);
        if newline.Some? {
          return Complete(bytes);
        }
      }
    }

    /** A header found in any chunking is the one the bytes say, and leaves exactly the bytes
        after it. */
    method ReadFrameHeader() returns (r: Header)
      requires Valid()
      modifies this
      ensures Valid() && r == ParseHeader(text, Flat(old(chunks)), old(logged))
      ensures r.Header? ==> Flat(chunks) == r.rest && logged == r.logged
    {
      while true
        invariant Valid() && ParseHeader(text, Flat(chunks), logged) == ParseHeader(text, Flat(old(chunks)), old(logged))
        decreases |Flat(chunks)|
      {
        OutcomeOfLine(chunks);
        ghost var data := Flat(chunks);
        var read := ReadHeaderLine();
        match read {
          case NoMore => return NoHeader;
          case Terminated => return Bad;
          case TooLong => return Overlong;
          case Stuck => return Overlong;
          case Complete(bytes) =>
            assert data[|bytes|..] == Flat(chunks);
            match StartOf(text, bytes, logged) {
              case Reject => return Bad;
              case Skip(after) => logged := after;
              case Begin(content) =>
                r := ReadHeaderRest(content);
                return;
            }
        }
      }
    }

    method ReadHeaderRest(content: nat) returns (r: Header)
      requires Valid()
      modifies this`chunks
      ensures Valid() && r == ParseRest(text, Flat(old(chunks)), content, 0, logged)
      ensures r.Header? ==> Flat(chunks) == r.rest && r.logged == logged
    {
      var binary: nat := 0;
      while true
        invariant Valid()
        invariant ParseRest(text, Flat(chunks), content, binary, logged) == ParseRest(text, Flat(old(chunks)), content, 0, logged)
        decreases |Flat(chunks)|
      {
        OutcomeOfLine(chunks);
        ghost var data := Flat(chunks);
        var read := ReadHeaderLine();
        match read {
          case NoMore => return Bad;
          case Terminated => return Bad;
          case TooLong => return Overlong;
          case Stuck => return Overlong;
          case Complete(bytes) =>
            assert data[|bytes|..] == Flat(chunks);
            if !text(bytes) {
              return Bad;
            }
            var line := TrimEnd(bytes);
            if line == [] {
              return Header(content, binary, Flat(chunks), logged);
            }
            if IsField(line, BINARY_LENGTH) {
              var length := ParseLength(Field(line).value.1, MAX_BINARY);
              if length.None? {
                return Bad;
              }
              binary := length.value;
            }
        }
      }
    }

    /** Exactly that many bytes, or an error when the output ends first. */
    method ReadFrameBytes(length: nat) returns (r: Option<Bytes>)
      requires Valid()
      modifies this`chunks
      ensures Valid()
      ensures length <= |Flat(old(chunks))| ==> r == Some(Flat(old(chunks))[..length]) && Flat(chunks) == Flat(old(chunks))[length..]
      ensures length > |Flat(old(chunks))| ==> r == None
    {
      var bytes: Bytes := [];
      ghost var data := Flat(chunks);
      while |bytes| < length
        invariant Valid() && |bytes| <= length && data == bytes + Flat(chunks)
        decreases length - |bytes|
      {
        if chunks == [] {
          return None;
        }
        var count := if |chunks[0]| < length - |bytes| then |chunks[0]| else length - |bytes|;
        TakenMore(bytes, chunks, count);
        bytes := bytes + chunks[0][..count];
        Consume(count);
      }
      Split(data, bytes, Flat(chunks));
      return Some(bytes);
    }

    /** One frame, however its bytes are split. */
    method ReadFrame() returns (r: Read)
      requires Valid()
      modifies this
      ensures Valid() && r == NextFrame(text, Flat(old(chunks)), old(logged))
      ensures r.Frame? ==> Flat(chunks) == r.rest && logged == r.logged
    {
      var header := ReadFrameHeader();
      match header {
        case NoHeader => return NoFrame;
        case Bad => return BadFrame;
        case Overlong => return Unclear;
        case Header(content, length, rest, _) =>
          if content + length <= |rest| {
            TwoParts(rest, content, length);
          }
          var payload := ReadFrameBytes(content);
          if payload.None? {
            return BadFrame;
          }
          var binary := ReadFrameBytes(length);
          if binary.None? {
            return BadFrame;
          }
          return Frame(payload.value, binary.value, Flat(chunks), logged);
      }
    }
  }

  lemma TakenMore(bytes: Bytes, chunks: seq<Bytes>, n: nat)
    requires chunks != [] && n <= |chunks[0]|
    ensures bytes + Flat(chunks) == bytes + chunks[0][..n] + Flat(Without(chunks, n))
  {
    FlatPrefix(chunks, n);
  }

  lemma Split(data: Bytes, a: Bytes, b: Bytes)
    requires data == a + b
    ensures data[..|a|] == a && data[|a|..] == b
  {}

  lemma TwoParts(rest: Bytes, content: nat, length: nat)
    requires content + length <= |rest|
    ensures rest[content..][..length] == rest[content..content + length]
    ensures rest[content..][length..] == rest[content + length..]
  {}

  /** Taking as much as allowed of a piece without a newline does not change the outcome. */
  lemma OutcomeTakes(held: Bytes, chunks: seq<Bytes>, take: nat)
    requires |held| <= MAX_HEADER_LINE && chunks != [] && IndexOf(chunks[0], NEWLINE).None?
    requires 0 < take <= |chunks[0]| && |held| + take <= MAX_HEADER_LINE
    requires take == |chunks[0]| || |held| + take == MAX_HEADER_LINE
    ensures Outcome(held + chunks[0][..take], Without(chunks, take)) == Outcome(held, chunks)
  {
    if take == |chunks[0]| {
      assert chunks[0][..take] == chunks[0];
    } else {
      assert forall i :: 0 <= i < |chunks[0]| - take ==> chunks[0][take..][i] == chunks[0][i + take];
    }
  }

  /** No newline so far: the line continues in the pieces to come. */
  lemma {:induction false} OutcomeFrom(held: Bytes, chunks: seq<Bytes>)
    requires NonEmpty(chunks) && |held| <= MAX_HEADER_LINE && IndexOf(held, NEWLINE).None?
    ensures var data := held + Flat(chunks);
      match LineAt(data)
      case Line(n) => Outcome(held, chunks) == Complete(data[..n])
      case AtEnd => Outcome(held, chunks) == NoMore
      case Cut => Outcome(held, chunks) == Terminated
      case LongLine =>
        Outcome(held, chunks) ==
          if IndexOf(PieceAt(chunks, MAX_HEADER_LINE - |held|), NEWLINE).Some? then TooLong else Stuck
    decreases |chunks|
  {
    var data := held + Flat(chunks);
    if chunks == [] {
      assert data == held;
    } else {
      var newline := IndexOf(chunks[0], NEWLINE);
      assert data == held + chunks[0] + Flat(chunks[1..]);
      if newline.Some? {
        FirstNewline(held, chunks[0], Flat(chunks[1..]));
      } else if |held| + |chunks[0]| > MAX_HEADER_LINE {
        NewlineLater(held + chunks[0], Flat(chunks[1..]));
      } else {
        OutcomeFrom(held + chunks[0], chunks[1..]);
      }
    }
  }

  /** A line that ends within the limit is returned however the bytes arrive. Of a longer one,
      the outcome depends on the piece that holds the first byte past the limit: with a newline
      in it the line is rejected; without one the loop never advances. */
  lemma OutcomeOfLine(chunks: seq<Bytes>)
    requires NonEmpty(chunks)
    ensures var data := Flat(chunks);
      match LineAt(data)
      case Line(n) => Outcome([], chunks) == Complete(data[..n])
      case AtEnd => Outcome([], chunks) == NoMore
      case Cut => Outcome([], chunks) == Terminated
      case LongLine => Outcome([], chunks) == if IndexOf(PieceAt(chunks, MAX_HEADER_LINE), NEWLINE).Some? then TooLong else Stuck
  {
    assert [] + Flat(chunks) == Flat(chunks);
    OutcomeFrom([], chunks);
  }

  lemma FirstNewline(held: Bytes, piece: Bytes, rest: Bytes)
    requires IndexOf(held, NEWLINE).None? && IndexOf(piece, NEWLINE).Some?
    ensures var i := IndexOf(piece, NEWLINE).value;
      && IndexOf(held + piece + rest, NEWLINE) == Some(|held| + i)
      && (held + piece + rest)[..|held| + i + 1] == held + piece[..i + 1]
  {
    var all := held + piece + rest;
    var i := IndexOf(piece, NEWLINE).value;
    assert all[|held| + i] == NEWLINE;
    assert forall k :: 0 <= k < |held| + i ==> all[k] == if k < |held| then held[k] else piece[k - |held|];
  }

  lemma NewlineLater(before: Bytes, rest: Bytes)
    requires IndexOf(before, NEWLINE).None?
    ensures IndexOf(before + rest, NEWLINE).Some? ==> IndexOf(before + rest, NEWLINE).value >= |before|
  {
    assert forall k :: 0 <= k < |before| ==> (before + rest)[k] == before[k];
  }
}
