/** The bounded window over a worker's recent error output. */
module StderrTail {
  type Line = string

  const MAX_LINES := 40
  const MAX_BYTES := 8192

  /** A character stands for a byte of the stored line. */
  function Size(lines: seq<Line>): nat {
    if lines == [] then 0 else |lines[0]| + Size(lines[1..])
  }

  predicate Fits(lines: seq<Line>) {
    |lines| <= MAX_LINES && Size(lines) <= MAX_BYTES
  }

  /** The longest suffix of the history that fits. */
  ghost predicate IsTail(history: seq<Line>, tail: seq<Line>) {
    Fits(tail) && exists k :: StartsAt(history, tail, k)
  }

  ghost predicate StartsAt(history: seq<Line>, tail: seq<Line>, k: int) {
    0 <= k <= |history| && history[k..] == tail && forall j :: 0 <= j < k ==> !Fits(history[j..])
  }

  lemma {:induction false} SizeAppend(a: seq<Line>, b: seq<Line>)
    ensures Size(a + b) == Size(a) + Size(b)
  {
    if a == [] {
      assert a + b == b;
    } else {
      assert (a + b)[1..] == a[1..] + b;
      SizeAppend(a[1..], b);
    }
  }

  /** What does not fit does not fit with another line either. */
  lemma StillTooLong(history: seq<Line>, line: Line, j: nat)
    requires j <= |history| && !Fits(history[j..])
    ensures !Fits((history + [line])[j..])
  {
    assert (history + [line])[j..] == history[j..] + [line];
    SizeAppend(history[j..], [line]);
  }

  lemma TailIsUnique(history: seq<Line>, a: seq<Line>, b: seq<Line>)
    requires IsTail(history, a) && IsTail(history, b)
    ensures a == b
  {
    var j :| StartsAt(history, a, j);
    var k :| StartsAt(history, b, k);
    assert !(j < k) && !(k < j);
  }

  /** A suffix that does not fit is given up, one line at a time. */
  lemma DropOne(history: seq<Line>, lines: seq<Line>, k: int)
    requires 0 <= k <= |history| && history[k..] == lines && !Fits(lines)
    requires forall j :: 0 <= j < k ==> !Fits(history[j..])
    ensures lines != [] && history[k + 1..] == lines[1..]
    ensures forall j :: 0 <= j < k + 1 ==> !Fits(history[j..])
  {}

  class Tail {
    var lines: seq<Line>
    /** Everything ever emitted. */
    ghost var history: seq<Line>

    ghost predicate Valid()
      reads this
    {
      IsTail(history, lines)
    }

    constructor ()
      ensures Valid() && lines == [] && history == []
    {
      lines, history := [], [];
      new;
      assert StartsAt(history, lines, 0);
    }

    /** Drops a line from the front, then adds, then drops until the size fits. */
    method Emit(line: Line)
      requires Valid()
      modifies this
      ensures Valid() && history == old(history) + [line]
    {
      ghost var k :| StartsAt(history, lines, k);
      ghost var after := history + [line];
      forall j: nat | j < k ensures !Fits(after[j..]) {
        StillTooLong(history, line, j);
      }
      assert after[k..] == lines + [line];
      if |lines| == MAX_LINES {
        DropOne(after, lines + [line], k);
        assert (lines + [line])[1..] == lines[1..] + [line];
        lines := lines[1..];
        k := k + 1;
      }
      lines := lines + [line];
      history := after;
      while Size(lines) > MAX_BYTES
        invariant |lines| <= MAX_LINES && history == after
        invariant 0 <= k <= |after| && after[k..] == lines
        invariant forall j :: 0 <= j < k ==> !Fits(after[j..])
        decreases |lines|
      {
        DropOne(after, lines, k);
        lines := lines[1..];
        k := k + 1;
      }
      assert StartsAt(history, lines, k);
    }
  }

  /** The window after a whole history. */
  method TailOf(history: seq<Line>) returns (lines: seq<Line>)
    ensures IsTail(history, lines)
  {
    var tail := new Tail();
    for i := 0 to |history|
      invariant tail.Valid() && tail.history == history[..i]
      invariant fresh(tail)
    {
      tail.Emit(history[i]);
      assert history[..i + 1] == history[..i] + [history[i]];
    }
    assert history[..|history|] == history;
    lines := tail.lines;
  }
}
