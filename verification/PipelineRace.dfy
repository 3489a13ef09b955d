/**
 The depth of a generation decides whether the order in which workers finish can matter: with
 fewer than 2 * workers - 1 batches, some sampler is asked for the same generation after
 different amounts of feedback in two runs.
 */
module PipelineRace {
  import opened Arithmetic
  import opened Basics
  import opened Pipeline
  import opened PipelineInvariant
  import opened PipelinePace
  import opened PipelineRuns
  import opened PipelineSteps

  ghost predicate Reached(c: Setup, s: State)
    requires c.Valid()
  {
    exists steps :: Run(c, Initial(c), steps) && After(c, Initial(c), steps) == s
  }

  lemma {:induction false} RunAppend(c: Setup, s: State, a: seq<Step>, b: seq<Step>)
    requires c.Valid() && Run(c, s, a) && Run(c, After(c, s, a), b)
    ensures Run(c, s, a + b) && After(c, s, a + b) == After(c, After(c, s, a), b)
    decreases |a|
  {
    if a == [] {
      assert a + b == b;
    } else {
      assert (a + b)[1..] == a[1..] + b;
      RunAppend(c, Next(c, s, a[0]), a[1..], b);
    }
  }

  lemma ReachedInitial(c: Setup)
    requires c.Valid()
    ensures Reached(c, Initial(c)) && Shaped(c, Initial(c))
  {
    assert Run(c, Initial(c), []) && After(c, Initial(c), []) == Initial(c);
    InitialInv(c);
    InvShaped(c, Initial(c));
  }

  lemma ReachedInv(c: Setup, s: State)
    requires c.Valid() && Reached(c, s)
    ensures Inv(c, s) && Shaped(c, s)
  {
    var steps :| Run(c, Initial(c), steps) && After(c, Initial(c), steps) == s;
    InitialInv(c);
    RunKeepsInv(c, Initial(c), steps);
    InvShaped(c, s);
  }

  lemma ReachedNext(c: Setup, s: State, step: Step)
    requires c.Valid() && Reached(c, s) && Shaped(c, s) && Enabled(c, s, step)
    ensures Reached(c, Next(c, s, step)) && Shaped(c, Next(c, s, step))
  {
    var t := Next(c, s, step);
    assert [step][1..] == [] && Run(c, t, []) && After(c, t, []) == t;
    assert Run(c, s, [step]) && After(c, s, [step]) == t;
    var steps :| Run(c, Initial(c), steps) && After(c, Initial(c), steps) == s;
    RunAppend(c, Initial(c), steps, [step]);
    assert Run(c, Initial(c), steps + [step]);
    ReachedInv(c, t);
  }

  /** All workers idle, all results read, and the main thread about to send or wait. */
  ghost predicate Idle(c: Setup, s: State)
    requires c.Valid()
  {
    && Reached(c, s) && Shaped(c, s) && s.phase == Filling && s.completed == []
    && forall w :: 0 <= w < c.workers ==> s.running[w] == None
  }

  /** With everything idle, the worker whose next batch is `id`. */
  lemma FindWorker(c: Setup, s: State, id: nat) returns (w: nat)
    requires c.Valid() && Idle(c, s) && s.retired <= id < s.sent && id < s.retired + c.workers && id !in s.pending
    ensures w < c.workers && s.queues[w] != [] && s.queues[w][0].id == id
  {
    ReachedInv(c, s);
    w := OwnerOf(c, s, id);
    assert Todo(s, w) == s.queues[w];
  }

  lemma OwnerOf(c: Setup, s: State, id: nat) returns (w: nat)
    requires 1 <= c.workers == |s.queues| == |s.running| && LanesInv(c, s) && CoverInv(s) && s.completed == []
    requires s.retired <= id < s.sent && id < s.retired + c.workers && id !in s.pending
    ensures w < c.workers && Todo(s, w) != [] && Todo(s, w)[0].id == id
  {
    assert Held(s, id);
    w :| 0 <= w < |s.queues| && Owes(Todo(s, w), id);
    assert LaneInv(c, Todo(s, w), w, s.retired, s.sent);
  }

  function Served(c: Setup, s: State, w: nat): State
    requires w < |s.queues| && s.queues[w] != []
  {
    var work := s.queues[w][0];
    s.(queues := s.queues[w := s.queues[w][1..]], completed := s.completed + [Done(work.id, c.evaluate(work.batch))])
  }

  lemma Serve(c: Setup, s: State, w: nat)
    requires c.Valid() && Idle(c, s) && w < c.workers && s.queues[w] != []
    ensures Reached(c, Served(c, s, w)) && Shaped(c, Served(c, s, w))
  {
    ReachedNext(c, s, Take(w));
    var t := Next(c, s, Take(w));
    ReachedNext(c, t, Finish(w));
    assert Next(c, t, Finish(w)).running == s.running;
    assert Next(c, t, Finish(w)) == Served(c, s, w);
  }

  /** The state after worker `w` alone has finished its next batch and the result was read. */
  function Fetched(c: Setup, s: State, w: nat): State
    requires w < |s.queues| && s.queues[w] != [] && c.evaluate(s.queues[w][0].batch).Ok?
  {
    var work := s.queues[w][0];
    s.(queues := s.queues[w := s.queues[w][1..]],
       pending := s.pending[work.id := c.evaluate(work.batch).value], phase := Draining)
  }

  lemma Fetch(c: Setup, s: State, w: nat)
    requires c.Valid() && Idle(c, s) && s.sent == s.retired + 2 * c.workers && w < c.workers && s.queues[w] != []
    requires c.evaluate(s.queues[w][0].batch).Ok?
    ensures Reached(c, Fetched(c, s, w)) && Shaped(c, Fetched(c, s, w))
  {
    Serve(c, s, w);
    var t := Served(c, s, w);
    ReachedNext(c, t, Receive);
    assert Next(c, t, Receive) == Fetched(c, s, w);
  }

  /** Nothing was dealt or drawn in between. */
  ghost predicate SameFront(s: State, t: State) {
    s.sent == t.sent && s.cursor == t.cursor && s.drawn == t.drawn
  }

  ghost predicate NeverFails(c: Setup) {
    forall batch :: c.evaluate(batch).Ok?
  }

  /** The batches after the oldest come back first, and are put aside. */
  lemma {:induction false} SetAside(c: Setup, s: State, j: nat) returns (t: State)
    requires c.Valid() && NeverFails(c) && Idle(c, s) && s.sent == s.retired + 2 * c.workers && s.pending == map[]
    requires j < c.workers
    ensures Idle(c, t) && SameFront(s, t) && t.retired == s.retired
    ensures forall id :: id in t.pending <==> s.retired < id <= s.retired + j
  {
    if j == 0 {
      t := s;
    } else {
      var u := SetAside(c, s, j - 1);
      var w := FindWorker(c, u, s.retired + j);
      Fetch(c, u, w);
      var v := Fetched(c, u, w);
      ReachedNext(c, v, Resume);
      t := Next(c, v, Resume);
    }
  }

  lemma RetireOne(c: Setup, s: State) returns (t: State)
    requires c.Valid() && Reached(c, s) && Shaped(c, s) && s.phase == Draining && s.retired in s.pending
    ensures Reached(c, t) && Shaped(c, t) && t.phase == Draining
    ensures SameFront(s, t) && t.retired == s.retired + 1 && t.running == s.running && t.completed == s.completed
    ensures t.pending == s.pending - {s.retired}
  {
    ReachedNext(c, s, Retire(false));
    t := Next(c, s, Retire(false));
    if (s.retired + 1) % c.PerGeneration() == 0 {
      NoMismatch(c, s, false);
    }
  }

  lemma NoMismatch(c: Setup, s: State, late: bool)
    requires c.Valid() && Reached(c, s) && s.phase == Draining && s.retired in s.pending
    requires (s.retired + 1) % c.PerGeneration() == 0
    ensures EndGeneration(c, Merge(s), late) == ReadClock(HandOver(c, Merge(s)), late)
    ensures !ReadClock(HandOver(c, Merge(s)), late).phase.Failed?
  {
    ReachedInv(c, s);
    RetireKeepsContent(c, s);
    MergedIsUniform(c, Merge(s));
    MergeAtEnd(c, s, late);
  }

  lemma {:induction false} RetireRow(c: Setup, s: State, k: nat) returns (t: State)
    requires c.Valid() && Reached(c, s) && Shaped(c, s) && s.phase == Draining
    requires forall id :: s.retired <= id < s.retired + k ==> id in s.pending
    ensures Reached(c, t) && Shaped(c, t) && t.phase == Draining
    ensures SameFront(s, t) && t.retired == s.retired + k && t.running == s.running && t.completed == s.completed
    ensures forall id :: id in t.pending <==> id in s.pending && !(s.retired <= id < s.retired + k)
    decreases k
  {
    if k == 0 {
      t := s;
    } else {
      var u := RetireOne(c, s);
      t := RetireRow(c, u, k - 1);
    }
  }

  /** The oldest batch comes back and `k` batches retire at once. */
  lemma Release(c: Setup, s: State, k: nat) returns (t: State)
    requires c.Valid() && NeverFails(c) && Idle(c, s) && s.sent == s.retired + 2 * c.workers
    requires 1 <= k && forall id :: id in s.pending <==> s.retired < id < s.retired + k
    ensures Idle(c, t) && SameFront(s, t) && t.retired == s.retired + k && t.pending == map[]
  {
    var w := FindWorker(c, s, s.retired);
    Fetch(c, s, w);
    var v := RetireRow(c, Fetched(c, s, w), k);
    assert v.pending.Keys == {};
    ReachedNext(c, v, Resume);
    t := Next(c, v, Resume);
  }

  lemma SendOne(c: Setup, s: State) returns (t: State)
    requires c.Valid() && Idle(c, s) && s.sent < s.retired + 2 * c.workers
    ensures Idle(c, t) && t.sent == s.sent + 1 && t.retired == s.retired && t.pending == s.pending
    ensures s.cursor == c.generationSize ==> t.drawn == s.drawn + [c.draw(s.history)]
  {
    ReachedInv(c, s);
    CanAct(c, s);
    ReachedNext(c, s, Send);
    t := Next(c, s, Send);
  }

  lemma {:induction false} Fill(c: Setup, n: nat) returns (t: State)
    requires c.Valid() && n <= 2 * c.workers
    ensures Idle(c, t) && t.retired == 0 && t.sent == n && t.pending == map[]
  {
    if n == 0 {
      ReachedInitial(c);
      t := Initial(c);
    } else {
      var s := Fill(c, n - 1);
      t := SendOne(c, s);
    }
  }

  /** Every position of the full window can be reached with everything still queued. */
  lemma {:induction false} FullWindow(c: Setup, r: nat) returns (t: State)
    requires c.Valid() && NeverFails(c)
    ensures Idle(c, t) && t.retired == r && t.sent == r + 2 * c.workers && t.pending == map[]
  {
    if r == 0 {
      t := Fill(c, 2 * c.workers);
    } else {
      var s := FullWindow(c, r - 1);
      var u := Release(c, s, 1);
      t := SendOne(c, u);
    }
  }

  /** What the sampler knows when generation `g` is due. */
  lemma AtBoundary(c: Setup, s: State, g: nat)
    requires c.Valid() && Reached(c, s) && s.sent == g * c.PerGeneration() && c.feedback
    ensures s.cursor == c.generationSize && |s.drawn| == g && |Learned(s.history)| == s.retired / c.PerGeneration()
  {
    ReachedInv(c, s);
    Quotient(s.sent, c.PerGeneration(), g, 0);
  }

  /** Generation `g` can be drawn after `k` batches of the full window have retired at once,
      for any `k` up to the number of workers. */
  lemma DrawAfter(c: Setup, g: nat, k: nat) returns (history: seq<Call>, t: State)
    requires c.Valid() && NeverFails(c) && c.feedback && 1 <= k <= c.workers
    requires g * c.PerGeneration() >= 2 * c.workers
    ensures Reached(c, t) && |t.drawn| == g + 1 && t.drawn[g] == c.draw(history)
    ensures |Learned(history)| == (g * c.PerGeneration() - 2 * c.workers + k) / c.PerGeneration()
  {
    var n := c.PerGeneration();
    var s := FullWindow(c, g * n - 2 * c.workers);
    var u := SetAside(c, s, k - 1);
    var v := Release(c, u, k);
    AtBoundary(c, v, g);
    history := v.history;
    t := SendOne(c, v);
  }

  /** Two amounts of feedback fit between the extremes exactly when generations are shallow. */
  lemma BoundaryBetween(workers: nat, n: nat, g: nat) returns (l: nat)
    requires 1 <= n < 2 * workers - 1 && g * n >= 2 * workers
    ensures (g * n - 2 * workers + 1) / n < l <= (g * n - workers) / n
  {
    var m := if n >= workers then 1 else (workers + n - 1) / n;
    assert workers <= m * n < 2 * workers - 1;
    l := g - m;
    assert l * n == g * n - m * n;
    AtMostQuotient(g * n - workers, n, l);
    BelowQuotient(g * n - 2 * workers + 1, n, l);
  }

  lemma AtMostQuotient(a: int, d: nat, q: int)
    requires d >= 1 && a >= 0 && q * d <= a
    ensures q <= a / d
  {
    ProductSteps(d, a / d - q);
    assert d * (a / d - q) == a - a % d - q * d;
  }

  lemma BelowQuotient(a: int, d: nat, q: int)
    requires d >= 1 && a >= 0 && a < q * d
    ensures a / d < q && q >= 0
  {
    ProductSteps(d, a / d - q);
    ProductSteps(d, q);
    assert d * (a / d - q) == a - a % d - q * d;
  }

  /** Two runs that have drawn equally many generations, but not the same ones. */
  ghost predicate Disagree(c: Setup, a: seq<Step>, b: seq<Step>) {
    && c.Valid() && Run(c, Initial(c), a) && Run(c, Initial(c), b)
    && |After(c, Initial(c), a).drawn| == |After(c, Initial(c), b).drawn|
    && After(c, Initial(c), a).drawn != After(c, Initial(c), b).drawn
  }

  lemma DeepAgrees(c: Setup, a: seq<Step>, b: seq<Step>)
    requires c.Valid() && c.feedback && Deep(c)
    ensures !Disagree(c, a, b)
  {
    if Run(c, Initial(c), a) && Run(c, Initial(c), b) {
      EqualsLookahead(c, a);
      EqualsLookahead(c, b);
    }
  }

  /** A sampler that changes its mind after `l` feedbacks. */
  function Switch(l: nat, x: seq<Point>, y: seq<Point>): seq<Call> -> seq<Point> {
    history => if |Learned(history)| < l then x else y
  }

  lemma ShallowDisagrees(c: Setup, x: seq<Point>, y: seq<Point>)
    requires c.Valid() && c.feedback && NeverFails(c) && !Deep(c)
    requires |x| == |y| == c.generationSize && x != y
    ensures exists l: nat, a, b :: Disagree(c.(draw := Switch(l, x, y)), a, b)
  {
    var n := c.PerGeneration();
    c.GenerationIsWhole();
    var g := 2 * c.workers;
    ProductSteps(g, n);
    var l := BoundaryBetween(c.workers, n, g);
    var d := c.(draw := Switch(l, x, y));
    assert d.Valid();
    var early, s := DrawAfter(d, g, 1);
    var late, t := DrawAfter(d, g, c.workers);
    assert s.drawn[g] == x && t.drawn[g] == y;
    var a :| Run(d, Initial(d), a) && After(d, Initial(d), a) == s;
    var b :| Run(d, Initial(d), b) && After(d, Initial(d), b) == t;
    assert Disagree(d, a, b);
  }

  /** For a configuration with feedback: no sampler can tell in which order the workers
      finished, exactly when a generation has at least 2 * workers - 1 batches. */
  lemma OrderIsInvisibleExactlyWhenDeep(c: Setup, x: seq<Point>, y: seq<Point>)
    requires c.Valid() && c.feedback && NeverFails(c) && |x| == |y| == c.generationSize && x != y
    ensures Deep(c) <==> forall draw, a, b :: c.(draw := draw).Valid() ==> !Disagree(c.(draw := draw), a, b)
  {
    if Deep(c) {
      forall draw, a, b | c.(draw := draw).Valid() ensures !Disagree(c.(draw := draw), a, b) {
        DeepAgrees(c.(draw := draw), a, b);
      }
    } else {
      ShallowDisagrees(c, x, y);
      var l, a, b :| Disagree(c.(draw := Switch(l, x, y)), a, b);
    }
  }
}
