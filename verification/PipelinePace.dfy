/**
 A sampler that does learn between draws: when a generation has at least 2 * workers - 1
 batches, every run computes what the sequential loop with one generation in hand computes.
 */
module PipelinePace {
  import opened Arithmetic
  import opened Pipeline
  import opened PipelineInvariant
  import opened PipelineOrder
  import opened PipelineRuns
  import opened PipelineSteps

  /** Every generation is drawn right after the feedback of the last but one. */
  predicate Paced(history: seq<Call>) {
    history == [] ||
    var before := history[..|history| - 1];
    && Paced(before)
    && match history[|history| - 1]
       case Generate => |Learned(before)| == if Draws(before) == 0 then 0 else Draws(before) - 1
       case Learn(_) => |Learned(before)| + 2 == Draws(before)
  }

  predicate Deep(c: Setup)
    requires 1 <= c.batchSize
  {
    c.PerGeneration() >= 2 * c.workers - 1
  }

  lemma PacedAfter(history: seq<Call>, call: Call)
    requires Paced(history)
    requires call.Generate? ==> |Learned(history)| == if Draws(history) == 0 then 0 else Draws(history) - 1
    requires call.Learn? ==> |Learned(history)| + 2 == Draws(history)
    ensures Paced(history + [call])
  {
    assert (history + [call])[..|history|] == history;
  }

  /** When generation `g` is due, all but the last generation drawn have been retired. */
  lemma LearnedByDraw(c: Setup, sent: nat, retired: nat, g: nat)
    requires c.Valid() && Deep(c) && sent == g * c.PerGeneration() && retired <= sent < retired + 2 * c.workers
    requires retired == 0 || retired + c.workers <= sent
    ensures retired / c.PerGeneration() == if g == 0 then 0 else g - 1
  {
    var n := c.PerGeneration();
    if g > 0 {
      assert (g - 1) * n == sent - n;
      ProductSteps(n, g);
      Quotient(retired, n, g - 1, retired - (g - 1) * n);
    }
  }

  /** When a generation is complete, exactly the one after it has been drawn. */
  lemma DrawnByLearn(c: Setup, drawn: seq<seq<Point>>, cursor: nat, sent: nat, retired: nat, l: nat)
    requires c.Valid() && Deep(c) && DrawnInv(c, drawn, cursor, sent)
    requires retired == l * c.PerGeneration() + c.PerGeneration()
    requires retired + c.workers <= sent < retired + 2 * c.workers
    ensures |drawn| == l + 2
  {
    var n := c.PerGeneration();
    assert (l + 1) * n == retired && (l + 2) * n == retired + n;
    if sent == retired + n {
      Quotient(sent, n, l + 2, 0);
    } else {
      Quotient(sent, n, l + 1, sent - retired);
    }
  }

  lemma SendKeepsPace(c: Setup, s: State)
    requires c.Valid() && c.feedback && Deep(c) && Inv(c, s) && Shaped(c, s) && Enabled(c, s, Send) && Paced(s.history)
    ensures Paced(Next(c, s, Send).history)
  {
    if s.cursor == c.generationSize {
      CursorAtEnd(c, s.drawn, s.cursor, s.sent);
      DrawnCount(c, s.history);
      LearnedByDraw(c, s.sent, s.retired, |s.drawn|);
      PacedAfter(s.history, Generate);
    }
  }

  lemma DrawsByLearn(c: Setup, s: State)
    requires c.Valid() && c.feedback && Deep(c) && Inv(c, s) && s.phase == Draining && s.retired in s.pending
    requires (s.retired + 1) % c.PerGeneration() == 0
    ensures |Learned(s.history)| + 2 == Draws(s.history)
  {
    DrawnCount(c, s.history);
    EndOfBlock(s.retired, c.PerGeneration());
    DrawnByLearn(c, s.drawn, s.cursor, s.sent, s.retired + 1, s.retired / c.PerGeneration());
  }

  lemma RetireKeepsPace(c: Setup, s: State, late: bool)
    requires c.Valid() && c.feedback && Deep(c) && Inv(c, s) && s.phase == Draining && s.retired in s.pending
    requires (s.retired + 1) % c.PerGeneration() == 0 && Paced(s.history)
    ensures Paced(EndGeneration(c, Merge(s), late).history)
  {
    DrawsByLearn(c, s);
    PacedAfter(s.history, Learn(Merge(s).feedback));
  }

  lemma StepKeepsPace(c: Setup, s: State, step: Step)
    requires c.Valid() && c.feedback && Deep(c) && Inv(c, s) && Shaped(c, s) && Enabled(c, s, step) && Paced(s.history)
    ensures Paced(Next(c, s, step).history)
  {
    if step.Send? {
      SendKeepsPace(c, s);
    } else if step.Retire? && (s.retired + 1) % c.PerGeneration() == 0 {
      RetireKeepsPace(c, s, step.late);
    } else {
      OthersAskNothing(c, s, step);
    }
  }

  /** Only sends and ends of generations involve the sampler. */
  lemma OthersAskNothing(c: Setup, s: State, step: Step)
    requires c.Valid() && Shaped(c, s) && Enabled(c, s, step) && !step.Send?
    requires step.Retire? ==> (s.retired + 1) % c.PerGeneration() != 0
    ensures Next(c, s, step).history == s.history
  {}

  lemma {:induction false} RunKeepsPace(c: Setup, s: State, steps: seq<Step>)
    requires c.Valid() && c.feedback && Deep(c) && Inv(c, s) && Run(c, s, steps) && Paced(s.history)
    ensures Paced(After(c, s, steps).history)
    decreases |steps|
  {
    if steps != [] {
      StepKeepsInv(c, s, steps[0]);
      StepKeepsPace(c, s, steps[0]);
      RunKeepsPace(c, Next(c, s, steps[0]), steps[1..]);
    }
  }

  /** Paced calls with the sequential loop's feedback are the sequential loop's calls. */
  lemma {:induction false} PacedIsSequential(c: Setup, history: seq<Call>, g: nat)
    requires 1 <= c.batchSize && c.feedback && Paced(history) && Draws(history) == g
    requires |Learned(history)| == if g == 0 then 0 else g - 1
    requires forall j :: 0 <= j < |Learned(history)| ==>
      Learned(history)[j] == SequentialFeedback(c, 1, j, c.PerGeneration())
    ensures history == SequentialCalls(c, 1, g)
    decreases |history|
  {
    if history != [] {
      var before := history[..|history| - 1];
      if g >= 2 {
        assert history[|history| - 1].Learn? && before != [];
        var earlier := before[..|before| - 1];
        assert before[|before| - 1].Generate? && before == earlier + [Generate];
        PacedIsSequential(c, earlier, g - 1);
        assert history == earlier + [Generate] + [Learn(Learned(history)[g - 2])];
      } else {
        PacedIsSequential(c, before, 0);
      }
    }
  }

  lemma {:induction false} PrefixPaced(history: seq<Call>, k: nat)
    requires k < |history| && Paced(history) && history[k].Generate?
    ensures Paced(history[..k]) && Learned(history[..k]) <= Learned(history)
    ensures |Learned(history[..k])| == if Draws(history[..k]) == 0 then 0 else Draws(history[..k]) - 1
  {
    var before := history[..|history| - 1];
    if k < |before| {
      PrefixPaced(before, k);
      assert before[..k] == history[..k];
    }
  }

  /** Generation by generation: same feedback so far, hence the same next draw. */
  lemma {:induction false} DrawnInPace(c: Setup, s: State, g: nat)
    requires c.Valid() && c.feedback && s.drawn == Drawn(c, s.history) && Paced(s.history) && g < |s.drawn|
    requires MergedInv(c, s.drawn, s.merged) && LearnedInv(c, s.history, s.merged)
    ensures s.drawn[g] == c.draw(SequentialCalls(c, 1, g))
  {
    DrawnCount(c, s.history);
    var k := DrawnAt(c, s.history, g);
    PrefixPaced(s.history, k);
    forall j | 0 <= j < g - 1 ensures Learned(s.history)[j] == SequentialFeedback(c, 1, j, c.PerGeneration()) {
      DrawnInPace(c, s, j);
      SameLearned(c, 1, s, j);
    }
    PacedIsSequential(c, s.history[..k], g);
  }

  /** With feedback, in every run: the sequential loop with one generation in hand. */
  lemma EqualsLookahead(c: Setup, steps: seq<Step>)
    requires c.Valid() && Run(c, Initial(c), steps) && c.feedback && Deep(c)
    ensures DrawnLike(c, 1, After(c, Initial(c), steps).drawn) && RunsLike(c, 1, After(c, Initial(c), steps))
  {
    InitialInv(c);
    RunKeepsInv(c, Initial(c), steps);
    RunKeepsPace(c, Initial(c), steps);
    var s := After(c, Initial(c), steps);
    forall g | 0 <= g < |s.drawn| ensures s.drawn[g] == c.draw(SequentialCalls(c, 1, g)) {
      DrawnInPace(c, s, g);
    }
    SameDrawsSameRun(c, 1, s);
  }
}
