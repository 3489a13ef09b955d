/**
 The bounded evaluation pipeline as a step system: the main thread deals batches round-robin
 into per-worker channels of capacity two, workers take and finish them in any order, and the
 main thread puts results back into id order before it merges them and returns feedback.
 */
module Pipeline {
  import opened Basics

  type Point(!new)
  type Value(!new)
  type Observation(!new)

  /** What was asked of the sampler, in order; everything it can depend on. */
  datatype Call = Generate | Learn(values: seq<Value>)

  datatype Outcome = Outcome(observation: Observation, samples: nat, feedback: Option<seq<Value>>)

  /** The configuration, and the sampler and evaluator as deterministic functions. */
  datatype Setup = Setup(
    workers: nat,
    batchSize: nat,
    generationSize: nat,
    feedback: bool,
    draw: seq<Call> -> seq<Point>,
    evaluate: seq<Point> -> Result<Outcome, string>)
  {
    /** The configuration check, and what `generate` and `eval_batch` promise. */
    ghost predicate Valid() {
      && 1 <= workers && 16 <= batchSize <= generationSize && generationSize % batchSize == 0
      && (forall calls :: |draw(calls)| == generationSize)
      && (forall batch :: evaluate(batch).Ok? ==> Expected(batch, evaluate(batch).value))
    }

    predicate Expected(batch: seq<Point>, outcome: Outcome) {
      && outcome.samples == |batch|
      && outcome.feedback.Some? == feedback
      && (outcome.feedback.Some? ==> |outcome.feedback.value| == |batch|)
    }

    /** Batches per generation. */
    function PerGeneration(): (n: nat)
      requires 1 <= batchSize
    {
      generationSize / batchSize
    }

    lemma GenerationIsWhole()
      requires Valid()
      ensures 1 <= PerGeneration() && PerGeneration() * batchSize == generationSize
    {
    }
  }

  datatype Work = Work(id: nat, batch: seq<Point>)

  datatype Done = Done(id: nat, result: Result<Outcome, string>)

  datatype Failure = EvaluationFailed | IncompleteFeedback | CountMismatch

  datatype Phase = Filling | Draining | Stopped(samples: int) | Failed(why: Failure)

  datatype State = State(
    history: seq<Call>,
    drawn: seq<seq<Point>>,
    cursor: nat,
    sent: nat,
    retired: nat,
    queues: seq<seq<Work>>,
    running: seq<Option<Work>>,
    completed: seq<Done>,
    pending: map<nat, Outcome>,
    merged: seq<Outcome>,
    feedback: seq<Value>,
    accepted: nat,
    // Accepted samples when the clock started, and batches retired since.
    start: Option<nat>,
    batches: nat,
    phase: Phase)

  function Initial(c: Setup): State {
    State([], [], c.generationSize, 0, 0, seq(c.workers, _ => []), seq(c.workers, _ => None), [], map[], [], [], 0, None, 0,
          Filling)
  }

  datatype Step = Send | Take(worker: nat) | Finish(worker: nat) | Receive | Retire(late: bool) | Resume

  predicate Shaped(c: Setup, s: State) {
    && 1 <= c.workers && 1 <= c.batchSize
    && |s.queues| == |s.running| == c.workers && s.retired <= s.sent
    && (s.cursor != c.generationSize ==> s.drawn != [] && s.cursor + c.batchSize <= |s.drawn[|s.drawn| - 1]|)
  }

  /** A worker is free to take work only once it has finished the last; a send waits while
      the channel holds two batches. */
  predicate Enabled(c: Setup, s: State, step: Step)
    requires Shaped(c, s)
  {
    match step
    case Send => s.phase == Filling && s.sent - s.retired < 2 * c.workers && |s.queues[s.sent % c.workers]| < 2
    case Take(w) => w < c.workers && s.running[w].None? && s.queues[w] != []
    case Finish(w) => w < c.workers && s.running[w].Some?
    case Receive => s.phase == Filling && s.sent - s.retired >= 2 * c.workers && s.completed != []
    case Retire(_) => s.phase == Draining && s.retired in s.pending
    case Resume => s.phase == Draining && s.retired !in s.pending
  }

  function Next(c: Setup, s: State, step: Step): State
    requires c.Valid() && Shaped(c, s) && Enabled(c, s, step)
  {
    match step
    case Send => Deal(c, if s.cursor == c.generationSize then DrawNext(c, s) else s)
    case Take(w) => s.(queues := s.queues[w := s.queues[w][1..]], running := s.running[w := Some(s.queues[w][0])])
    case Finish(w) =>
      var work := s.running[w].value;
      s.(running := s.running[w := None], completed := s.completed + [Done(work.id, c.evaluate(work.batch))])
    case Receive => Collect(s)
    case Retire(late) =>
      var merged := Merge(s);
      if merged.retired % c.PerGeneration() != 0 then merged else EndGeneration(c, merged, late)
    case Resume => s.(phase := Filling)
  }

  function DrawNext(c: Setup, s: State): State {
    s.(drawn := s.drawn + [c.draw(s.history)], history := s.history + [Generate], cursor := 0)
  }

  function Deal(c: Setup, s: State): State
    requires Shaped(c, s) && s.drawn != [] && s.cursor + c.batchSize <= |s.drawn[|s.drawn| - 1]|
  {
    var batch := s.drawn[|s.drawn| - 1][s.cursor..s.cursor + c.batchSize];
    var w := s.sent % c.workers;
    s.(queues := s.queues[w := s.queues[w] + [Work(s.sent, batch)]],
       cursor := s.cursor + c.batchSize, sent := s.sent + 1)
  }

  function Collect(s: State): State
    requires s.completed != []
  {
    var done := s.completed[0];
    if done.result.Err? then s.(completed := s.completed[1..], phase := Failed(EvaluationFailed))
    else s.(completed := s.completed[1..], pending := s.pending[done.id := done.result.value], phase := Draining)
  }

  function Merge(s: State): State
    requires s.retired in s.pending
  {
    var outcome := s.pending[s.retired];
    s.(pending := s.pending - {s.retired},
       merged := s.merged + [outcome],
       feedback := s.feedback + Feedback(outcome),
       retired := s.retired + 1,
       batches := s.batches + 1)
  }

  function Feedback(outcome: Outcome): seq<Value> {
    if outcome.feedback.Some? then outcome.feedback.value else []
  }

  function Samples(outcomes: seq<Outcome>): nat {
    if outcomes == [] then 0 else Samples(outcomes[..|outcomes| - 1]) + outcomes[|outcomes| - 1].samples
  }

  /** A whole generation is back: feedback to the sampler, then the clock. */
  function EndGeneration(c: Setup, s: State, late: bool): State {
    if c.feedback && |s.feedback| != c.generationSize then s.(phase := Failed(IncompleteFeedback))
    else ReadClock(HandOver(c, s), late)
  }

  function HandOver(c: Setup, s: State): State {
    var fed := if c.feedback then s.(history := s.history + [Learn(s.feedback)], feedback := []) else s;
    fed.(accepted := fed.accepted + c.generationSize)
  }

  /** The first generation only starts the clock. */
  function ReadClock(s: State, late: bool): State {
    if s.start.None? then s.(start := Some(s.accepted), batches := 0)
    else if !late then s
    else if Samples(s.merged) != s.accepted then s.(phase := Failed(CountMismatch))
    else s.(phase := Stopped(s.accepted - s.start.value))
  }
}
