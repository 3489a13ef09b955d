/** Whole runs of the evaluation pipeline: progress, and what it computes. */
module PipelineRuns {
  import opened Basics
  import opened Pipeline
  import opened PipelineInvariant
  import opened PipelineSteps

  predicate Run(c: Setup, s: State, steps: seq<Step>)
    requires c.Valid()
    decreases |steps|
  {
    steps == [] || (Shaped(c, s) && Enabled(c, s, steps[0]) && Run(c, Next(c, s, steps[0]), steps[1..]))
  }

  function After(c: Setup, s: State, steps: seq<Step>): State
    requires c.Valid() && Run(c, s, steps)
    decreases |steps|
  {
    if steps == [] then s else After(c, Next(c, s, steps[0]), steps[1..])
  }

  lemma {:induction false} RunKeepsInv(c: Setup, s: State, steps: seq<Step>)
    requires c.Valid() && Inv(c, s) && Run(c, s, steps)
    ensures Inv(c, After(c, s, steps))
    decreases |steps|
  {
    if steps != [] {
      StepKeepsInv(c, s, steps[0]);
      RunKeepsInv(c, Next(c, s, steps[0]), steps[1..]);
    }
  }

  /** Every batch is retired exactly once and in id order, whatever order workers finish in;
      each generation's feedback reaches the sampler once, whole and in order. */
  lemma RetiresInOrder(c: Setup, steps: seq<Step>)
    requires c.Valid() && Run(c, Initial(c), steps)
    ensures var s := After(c, Initial(c), steps);
      && |s.merged| == s.retired
      && (forall id :: 0 <= id < s.retired ==> c.evaluate(Batch(c, s.drawn, id)) == Ok(s.merged[id]))
      && s.drawn == Drawn(c, s.history) && LearnedInv(c, s.history, s.merged)
  {
    InitialInv(c);
    RunKeepsInv(c, Initial(c), steps);
  }

  /** No send ever waits, the awaited batch is always on its way, and the main thread or a
      worker can always act. */
  lemma NeverBlocks(c: Setup, steps: seq<Step>)
    requires c.Valid() && Run(c, Initial(c), steps) && Live(After(c, Initial(c), steps))
    ensures var s := After(c, Initial(c), steps);
      && Shaped(c, s) && s.sent - s.retired <= 2 * c.workers
      && (s.phase == Filling && s.sent - s.retired < 2 * c.workers ==> Enabled(c, s, Send))
      && (s.phase == Filling && s.sent - s.retired == 2 * c.workers ==> Held(s, s.retired) || InChannel(s.completed, s.retired))
      && exists step :: Enabled(c, s, step)
  {
    InitialInv(c);
    RunKeepsInv(c, Initial(c), steps);
    var s := After(c, Initial(c), steps);
    InvShaped(c, s);
    CanAct(c, s);
  }

  lemma CanAct(c: Setup, s: State)
    requires Shaped(c, s) && FlowInv(c, s) && Live(s)
    ensures s.phase == Filling && s.sent - s.retired < 2 * c.workers ==> Enabled(c, s, Send)
    ensures s.phase == Filling && s.sent - s.retired == 2 * c.workers ==> Held(s, s.retired) || InChannel(s.completed, s.retired)
    ensures exists step :: Enabled(c, s, step)
  {
    if s.phase == Draining {
      assert Enabled(c, s, if s.retired in s.pending then Retire(false) else Resume);
    } else if s.sent - s.retired < 2 * c.workers {
      var w := s.sent % c.workers;
      SlotFree(c, Todo(s, w), w, s.retired, s.sent);
      assert Enabled(c, s, Send);
    } else if Held(s, s.retired) {
      var w :| 0 <= w < |s.queues| && Owes(Todo(s, w), s.retired);
      assert Enabled(c, s, if s.running[w].Some? then Finish(w) else Take(w));
    } else {
      assert Enabled(c, s, Receive);
    }
  }

  /** The run ends in an error only when an evaluation failed: neither sanity check can fail,
      and what is reported is exactly the batches retired since the first generation. */
  lemma ChecksNeverFail(c: Setup, steps: seq<Step>)
    requires c.Valid() && Run(c, Initial(c), steps)
    ensures var s := After(c, Initial(c), steps);
      && (s.phase.Failed? ==> s.phase.why == EvaluationFailed)
      && (s.phase.Stopped? ==>
            && s.retired % c.PerGeneration() == 0 && s.retired >= 2 * c.PerGeneration()
            && s.batches == s.retired - c.PerGeneration() && s.phase.samples == s.batches * c.batchSize
            && Samples(s.merged) == s.accepted == s.phase.samples + c.generationSize)
  {
    InitialInv(c);
    RunKeepsInv(c, Initial(c), steps);
    var s := After(c, Initial(c), steps);
    MergedIsUniform(c, s);
    UniformTotals(c, s.merged);
  }

  // Progress without any assumption on scheduling

  function Queued(queues: seq<seq<Work>>): nat {
    if queues == [] then 0 else Queued(queues[..|queues| - 1]) + |queues[|queues| - 1]|
  }

  function Busy(running: seq<Option<Work>>): nat {
    if running == [] then 0 else Busy(running[..|running| - 1]) + if running[|running| - 1].Some? then 1 else 0
  }

  lemma {:induction false} QueuedAfter(queues: seq<seq<Work>>, w: nat, queue: seq<Work>)
    requires w < |queues|
    ensures Queued(queues[w := queue]) == Queued(queues) - |queues[w]| + |queue|
  {
    var n := |queues| - 1;
    if w == n {
      assert queues[w := queue][..n] == queues[..n];
    } else {
      assert queues[w := queue][..n] == queues[..n][w := queue];
      QueuedAfter(queues[..n], w, queue);
    }
  }

  lemma {:induction false} BusyAfter(running: seq<Option<Work>>, w: nat, slot: Option<Work>)
    requires w < |running|
    ensures Busy(running[w := slot]) == Busy(running) - (if running[w].Some? then 1 else 0) + if slot.Some? then 1 else 0
  {
    var n := |running| - 1;
    if w == n {
      assert running[w := slot][..n] == running[..n];
    } else {
      assert running[w := slot][..n] == running[..n][w := slot];
      BusyAfter(running[..n], w, slot);
    }
  }

  /** Batches sent, taken, finished, received (twice: receiving and resuming) and retired. */
  function Effort(s: State): int {
    6 * s.sent - 4 * Queued(s.queues) - 3 * Busy(s.running) - 2 * |s.completed| - (s.sent - s.retired)
      - if s.phase == Draining then 1 else 0
  }

  lemma SendIsWork(c: Setup, s: State)
    requires c.Valid() && Shaped(c, s) && Enabled(c, s, Send)
    ensures Effort(Next(c, s, Send)) == Effort(s) + 1
  {
    var w := s.sent % c.workers;
    QueuedAfter(s.queues, w, Next(c, s, Send).queues[w]);
  }

  lemma WorkerStepIsWork(c: Setup, s: State, step: Step)
    requires c.Valid() && Shaped(c, s) && Enabled(c, s, step) && (step.Take? || step.Finish?)
    ensures Effort(Next(c, s, step)) == Effort(s) + 1
  {
    if step.Take? {
      QueuedAfter(s.queues, step.worker, s.queues[step.worker][1..]);
      BusyAfter(s.running, step.worker, Some(s.queues[step.worker][0]));
    } else {
      BusyAfter(s.running, step.worker, None);
    }
  }

  lemma StepIsWork(c: Setup, s: State, step: Step)
    requires c.Valid() && Shaped(c, s) && Enabled(c, s, step)
    ensures Effort(Next(c, s, step)) >= Effort(s) + 1
    ensures s.sent <= s.retired + 2 * c.workers ==> Next(c, s, step).sent <= Next(c, s, step).retired + 2 * c.workers
  {
    if step.Send? {
      SendIsWork(c, s);
    } else if step.Take? || step.Finish? {
      WorkerStepIsWork(c, s, step);
    }
  }

  lemma {:induction false} RunIsWork(c: Setup, s: State, steps: seq<Step>)
    requires c.Valid() && Run(c, s, steps) && s.sent <= s.retired + 2 * c.workers
    ensures Effort(After(c, s, steps)) >= Effort(s) + |steps|
    ensures After(c, s, steps).sent <= After(c, s, steps).retired + 2 * c.workers
    decreases |steps|
  {
    if steps != [] {
      StepIsWork(c, s, steps[0]);
      RunIsWork(c, Next(c, s, steps[0]), steps[1..]);
    }
  }

  /** Steps cannot be wasted: any run of enough steps retires as many batches as you like. */
  lemma EveryStepCounts(c: Setup, steps: seq<Step>)
    requires c.Valid() && Run(c, Initial(c), steps)
    ensures |steps| <= 6 * (After(c, Initial(c), steps).retired + 2 * c.workers)
  {
    InitialInv(c);
    RunKeepsInv(c, Initial(c), steps);
    NothingQueued(c.workers);
    NothingRuns(c.workers);
    RunIsWork(c, Initial(c), steps);
  }

  lemma {:induction false} NothingQueued(n: nat)
    ensures Queued(seq(n, _ => [])) == 0
  {
    if n > 0 {
      var queues: seq<seq<Work>> := seq(n, _ => []);
      assert queues[..n - 1] == seq(n - 1, _ => []);
      NothingQueued(n - 1);
    }
  }

  lemma {:induction false} NothingRuns(n: nat)
    ensures Busy(seq(n, _ => None)) == 0
  {
    if n > 0 {
      var running: seq<Option<Work>> := seq(n, _ => None);
      assert running[..n - 1] == seq(n - 1, _ => None);
      NothingRuns(n - 1);
    }
  }
}
