/**
 The pipeline against a sequential loop: draw a generation, evaluate its batches one by one,
 return the feedback, repeat. `ahead` is the number of generations the loop draws before the
 first feedback is due: 0 is the plain loop, 1 keeps one generation in hand.
 */
module PipelineOrder {
  import opened Arithmetic
  import opened Basics
  import opened Pipeline
  import opened PipelineInvariant
  import opened PipelineRuns
  import opened PipelineSteps

  /** The sampler calls the sequential loop has made when it is about to draw generation `g`. */
  function SequentialCalls(c: Setup, ahead: nat, g: nat): seq<Call>
    requires 1 <= c.batchSize
    decreases g, 0, 0
  {
    if g == 0 then []
    else
      SequentialCalls(c, ahead, g - 1) + [Generate] +
      if c.feedback && g - 1 >= ahead then [Learn(SequentialFeedback(c, ahead, g - 1 - ahead, c.PerGeneration()))] else []
  }

  function SequentialOutcome(c: Setup, ahead: nat, g: nat, i: nat): Result<Outcome, string>
    requires 1 <= c.batchSize
    decreases g, 1, 0
  {
    c.evaluate(Slice(c.draw(SequentialCalls(c, ahead, g)), i, c.batchSize))
  }

  /** The feedback of the first `n` batches of generation `g`. */
  function SequentialFeedback(c: Setup, ahead: nat, g: nat, n: nat): seq<Value>
    requires 1 <= c.batchSize
    decreases g, 2, n
  {
    if n == 0 then []
    else
      SequentialFeedback(c, ahead, g, n - 1) +
      match SequentialOutcome(c, ahead, g, n - 1)
      case Ok(outcome) => Feedback(outcome)
      case Err(_) => []
  }

  /** What has been merged and returned is what the sequential loop merges and returns. */
  ghost predicate RunsLike(c: Setup, ahead: nat, s: State)
    requires c.Valid()
  {
    var n := c.PerGeneration();
    && (forall id :: 0 <= id < |s.merged| ==> SequentialOutcome(c, ahead, id / n, id % n) == Ok(s.merged[id]))
    && (forall k :: 0 <= k < |Learned(s.history)| ==> Learned(s.history)[k] == SequentialFeedback(c, ahead, k, n))
  }

  function Draws(history: seq<Call>): nat {
    if history == [] then 0 else Draws(history[..|history| - 1]) + if history[|history| - 1].Generate? then 1 else 0
  }

  /** What is drawn depends on how often, not on the feedback in between. */
  ghost predicate Oblivious(c: Setup) {
    forall a, b :: Draws(a) == Draws(b) ==> c.draw(a) == c.draw(b)
  }

  lemma {:induction false} DrawnCount(c: Setup, history: seq<Call>)
    ensures |Drawn(c, history)| == Draws(history)
  {
    if history != [] {
      DrawnCount(c, history[..|history| - 1]);
    }
  }

  lemma {:induction false} DrawnAt(c: Setup, history: seq<Call>, g: nat) returns (k: nat)
    requires g < Draws(history)
    ensures k < |history| && history[k].Generate? && Draws(history[..k]) == g
    ensures g < |Drawn(c, history)| && Drawn(c, history)[g] == c.draw(history[..k])
  {
    DrawnCount(c, history);
    var before := history[..|history| - 1];
    DrawnCount(c, before);
    if g < Draws(before) {
      k := DrawnAt(c, before, g);
      assert before[..k] == history[..k];
    } else {
      k := |history| - 1;
    }
  }

  lemma DrawsAfter(history: seq<Call>, call: Call)
    ensures Draws(history + [call]) == Draws(history) + if call.Generate? then 1 else 0
  {
    assert (history + [call])[..|history|] == history;
  }

  lemma {:induction false} SequentialDraws(c: Setup, ahead: nat, g: nat)
    requires 1 <= c.batchSize
    ensures Draws(SequentialCalls(c, ahead, g)) == g
  {
    if g > 0 {
      var before := SequentialCalls(c, ahead, g - 1);
      SequentialDraws(c, ahead, g - 1);
      DrawsAfter(before, Generate);
      if c.feedback && g - 1 >= ahead {
        DrawsAfter(before + [Generate], Learn(SequentialFeedback(c, ahead, g - 1 - ahead, c.PerGeneration())));
      } else {
        assert SequentialCalls(c, ahead, g) == before + [Generate];
      }
    }
  }

  lemma {:induction false} SequentialGenerates(c: Setup, ahead: nat, g: nat)
    requires 1 <= c.batchSize && !c.feedback
    ensures SequentialCalls(c, ahead, g) == seq(g, _ => Generate)
  {
    if g > 0 {
      SequentialGenerates(c, ahead, g - 1);
      assert SequentialCalls(c, ahead, g) == SequentialCalls(c, ahead, g - 1) + [Generate];
    }
  }

  lemma {:induction false} OnlyGenerates(history: seq<Call>)
    requires Learned(history) == []
    ensures history == seq(Draws(history), _ => Generate)
  {
    if history != [] {
      OnlyGenerates(history[..|history| - 1]);
    }
  }

  lemma {:induction false} LearnedPrefix(history: seq<Call>, k: nat)
    requires k <= |history|
    ensures |Learned(history[..k])| <= |Learned(history)|
  {
    if k < |history| {
      assert history[..|history| - 1][..k] == history[..k];
      LearnedPrefix(history[..|history| - 1], k);
    } else {
      assert history[..k] == history;
    }
  }

  /** The batches of a generation drawn as the sequential loop draws it come out the same. */
  lemma SameOutcome(c: Setup, ahead: nat, s: State, id: nat)
    requires c.Valid() && MergedInv(c, s.drawn, s.merged) && id < |s.merged| && id / c.PerGeneration() < |s.drawn|
    requires s.drawn[id / c.PerGeneration()] == c.draw(SequentialCalls(c, ahead, id / c.PerGeneration()))
    ensures SequentialOutcome(c, ahead, id / c.PerGeneration(), id % c.PerGeneration()) == Ok(s.merged[id])
  {}

  lemma SameOutcomeAt(c: Setup, ahead: nat, s: State, g: nat, i: nat, first: nat)
    requires c.Valid() && MergedInv(c, s.drawn, s.merged) && first == g * c.PerGeneration() && i < c.PerGeneration()
    requires first + i < |s.merged| && g < |s.drawn| && s.drawn[g] == c.draw(SequentialCalls(c, ahead, g))
    ensures SequentialOutcome(c, ahead, g, i) == Ok(s.merged[first + i])
  {
    Quotient(first + i, c.PerGeneration(), g, i);
    SameOutcome(c, ahead, s, first + i);
  }

  lemma {:induction false} Accumulates(f: nat -> seq<Value>, merged: seq<Outcome>, first: nat, n: nat)
    requires first + n <= |merged| && f(0) == []
    requires forall i: nat :: i < n ==> f(i + 1) == f(i) + Feedback(merged[first + i])
    ensures Gather(merged[first..first + n]) == f(n)
    decreases n
  {
    if n > 0 {
      Accumulates(f, merged, first, n - 1);
      GatherNext(merged, first, n - 1);
      assert f(n - 1 + 1) == f(n - 1) + Feedback(merged[first + (n - 1)]);
    } else {
      assert merged[first..first] == [];
    }
  }

  function FeedbackSoFar(c: Setup, ahead: nat, g: nat): nat -> seq<Value>
    requires 1 <= c.batchSize
  {
    (n: nat) => SequentialFeedback(c, ahead, g, n)
  }

  lemma SameGathered(c: Setup, ahead: nat, g: nat, merged: seq<Outcome>, first: nat, n: nat)
    requires 1 <= c.batchSize && first + n <= |merged|
    requires forall i :: 0 <= i < n ==> SequentialOutcome(c, ahead, g, i) == Ok(merged[first + i])
    ensures Gather(merged[first..first + n]) == FeedbackSoFar(c, ahead, g)(n)
  {
    forall i: nat | i < n
      ensures FeedbackSoFar(c, ahead, g)(i + 1) == FeedbackSoFar(c, ahead, g)(i) + Feedback(merged[first + i])
    {
      SequentialFeedbackNext(c, ahead, g, i, merged[first + i]);
    }
    Accumulates(FeedbackSoFar(c, ahead, g), merged, first, n);
  }

  lemma SameFeedback(c: Setup, ahead: nat, s: State, g: nat, n: nat, first: nat)
    requires c.Valid() && MergedInv(c, s.drawn, s.merged) && first == g * c.PerGeneration() && n <= c.PerGeneration()
    requires first + n <= |s.merged| && g < |s.drawn| && s.drawn[g] == c.draw(SequentialCalls(c, ahead, g))
    ensures Gather(s.merged[first..first + n]) == SequentialFeedback(c, ahead, g, n)
  {
    forall i | 0 <= i < n ensures SequentialOutcome(c, ahead, g, i) == Ok(s.merged[first + i]) {
      SameOutcomeAt(c, ahead, s, g, i, first);
    }
    SameGathered(c, ahead, g, s.merged, first, n);
  }

  lemma GatherNext(merged: seq<Outcome>, first: nat, n: nat)
    requires first + n < |merged|
    ensures Gather(merged[first..first + n + 1]) == Gather(merged[first..first + n]) + Feedback(merged[first + n])
  {
    assert merged[first..first + n + 1] == merged[first..first + n] + [merged[first + n]];
    GatherAppend(merged[first..first + n], merged[first + n]);
  }

  lemma SequentialFeedbackNext(c: Setup, ahead: nat, g: nat, n: nat, outcome: Outcome)
    requires 1 <= c.batchSize && SequentialOutcome(c, ahead, g, n) == Ok(outcome)
    ensures SequentialFeedback(c, ahead, g, n + 1) == SequentialFeedback(c, ahead, g, n) + Feedback(outcome)
  {}

  ghost predicate DrawnLike(c: Setup, ahead: nat, drawn: seq<seq<Point>>)
    requires 1 <= c.batchSize
  {
    forall g :: 0 <= g < |drawn| ==> drawn[g] == c.draw(SequentialCalls(c, ahead, g))
  }

  lemma SameOutcomes(c: Setup, ahead: nat, s: State, id: nat)
    requires c.Valid() && MergedInv(c, s.drawn, s.merged) && DrawnInv(c, s.drawn, s.cursor, s.sent)
    requires DrawnLike(c, ahead, s.drawn) && id < |s.merged| <= s.sent
    ensures SequentialOutcome(c, ahead, id / c.PerGeneration(), id % c.PerGeneration()) == Ok(s.merged[id])
  {
    QuotientBelow(id, s.sent, c.PerGeneration());
    SameOutcome(c, ahead, s, id);
  }

  lemma DrawnByThen(c: Setup, drawn: seq<seq<Point>>, cursor: nat, sent: nat, k: nat)
    requires c.Valid() && DrawnInv(c, drawn, cursor, sent) && k * c.PerGeneration() < sent
    ensures k < |drawn|
  {
    Quotient(k * c.PerGeneration(), c.PerGeneration(), k, 0);
    QuotientBelow(k * c.PerGeneration(), sent, c.PerGeneration());
  }

  lemma SameLearned(c: Setup, ahead: nat, s: State, k: nat)
    requires c.Valid() && MergedInv(c, s.drawn, s.merged)
    requires k < |s.drawn| && s.drawn[k] == c.draw(SequentialCalls(c, ahead, k))
    requires LearnedInv(c, s.history, s.merged) && k < |Learned(s.history)|
    ensures Learned(s.history)[k] == SequentialFeedback(c, ahead, k, c.PerGeneration())
  {
    var first := LearnedFrom(c, s.history, s.merged, k);
    SameFeedback(c, ahead, s, k, c.PerGeneration(), first);
  }

  lemma LearnedFrom(c: Setup, history: seq<Call>, merged: seq<Outcome>, k: nat) returns (first: nat)
    requires c.Valid() && LearnedInv(c, history, merged) && k < |Learned(history)|
    ensures first == k * c.PerGeneration() && first + c.PerGeneration() <= |merged|
    ensures Learned(history)[k] == Gather(merged[first..first + c.PerGeneration()])
  {
    first := k * c.PerGeneration();
  }

  lemma SameDrawsSameRun(c: Setup, ahead: nat, s: State)
    requires c.Valid() && MergedInv(c, s.drawn, s.merged) && DrawnInv(c, s.drawn, s.cursor, s.sent)
    requires DrawnLike(c, ahead, s.drawn) && |s.merged| <= s.sent && LearnedInv(c, s.history, s.merged)
    ensures RunsLike(c, ahead, s)
  {
    forall id | 0 <= id < |s.merged|
      ensures SequentialOutcome(c, ahead, id / c.PerGeneration(), id % c.PerGeneration()) == Ok(s.merged[id])
    {
      SameOutcomes(c, ahead, s, id);
    }
    forall k | 0 <= k < |Learned(s.history)|
      ensures Learned(s.history)[k] == SequentialFeedback(c, ahead, k, c.PerGeneration())
    {
      LearnedLike(c, ahead, s, k);
    }
  }

  lemma LearnedLike(c: Setup, ahead: nat, s: State, k: nat)
    requires c.Valid() && MergedInv(c, s.drawn, s.merged) && DrawnInv(c, s.drawn, s.cursor, s.sent)
    requires DrawnLike(c, ahead, s.drawn) && |s.merged| <= s.sent && LearnedInv(c, s.history, s.merged)
    requires k < |Learned(s.history)|
    ensures Learned(s.history)[k] == SequentialFeedback(c, ahead, k, c.PerGeneration())
  {
    var first := LearnedFrom(c, s.history, s.merged, k);
    DrawnByThen(c, s.drawn, s.cursor, s.sent, k);
    SameLearned(c, ahead, s, k);
  }

  lemma SteadyDraws(c: Setup, history: seq<Call>, g: nat)
    requires 1 <= c.batchSize && g < Draws(history)
    requires if c.feedback then Oblivious(c) else Learned(history) == []
    ensures g < |Drawn(c, history)| && Drawn(c, history)[g] == c.draw(SequentialCalls(c, 0, g))
  {
    var k := DrawnAt(c, history, g);
    SequentialDraws(c, 0, g);
    if !c.feedback {
      SequentialGenerates(c, 0, g);
      LearnedPrefix(history, k);
      OnlyGenerates(history[..k]);
    }
  }

  /** Without feedback, or with a sampler that ignores it when drawing, every run computes
      what the plain sequential loop computes. */
  lemma EqualsSequential(c: Setup, steps: seq<Step>)
    requires c.Valid() && Run(c, Initial(c), steps) && (!c.feedback || Oblivious(c))
    ensures RunsLike(c, 0, After(c, Initial(c), steps))
  {
    InitialInv(c);
    RunKeepsInv(c, Initial(c), steps);
    SteadyState(c, After(c, Initial(c), steps));
  }

  lemma SteadyState(c: Setup, s: State)
    requires c.Valid() && Inv(c, s) && (!c.feedback || Oblivious(c))
    ensures RunsLike(c, 0, s)
  {
    DrawnCount(c, s.history);
    forall g | 0 <= g < |s.drawn| ensures s.drawn[g] == c.draw(SequentialCalls(c, 0, g)) {
      SteadyDraws(c, s.history, g);
    }
    SameDrawsSameRun(c, 0, s);
  }
}
