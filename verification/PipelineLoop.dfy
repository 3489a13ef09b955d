/** The main thread's two inner loops, as runs of its own steps. */
module PipelineLoop {
  import opened Pipeline
  import opened PipelineRace
  import opened PipelineRuns

  lemma RunSnoc(c: Setup, s: State, steps: seq<Step>, step: Step)
    requires c.Valid() && Run(c, s, steps)
    requires Shaped(c, After(c, s, steps)) && Enabled(c, After(c, s, steps), step)
    ensures Run(c, s, steps + [step]) && After(c, s, steps + [step]) == Next(c, After(c, s, steps), step)
  {
    var t := After(c, s, steps);
    var u := Next(c, t, step);
    assert [step][1..] == [] && Run(c, u, []) && After(c, u, []) == u;
    assert Run(c, t, [step]) && After(c, t, [step]) == u;
    RunAppend(c, s, steps, [step]);
  }

  /** Sends until the window is full; no send can block. */
  method FillWindow(c: Setup, before: State) returns (s: State, ghost steps: seq<Step>)
    requires c.Valid() && Reached(c, before) && Shaped(c, before) && before.phase == Filling
    ensures Run(c, before, steps) && s == After(c, before, steps) && Reached(c, s) && Shaped(c, s)
    ensures forall i :: 0 <= i < |steps| ==> steps[i] == Send
    ensures s.phase == Filling && s.retired == before.retired && s.sent == s.retired + 2 * c.workers
    ensures s.sent == before.sent + |steps|
  {
    WindowFits(c, before);
    s, steps := before, [];
    while s.sent - s.retired < 2 * c.workers
      invariant Run(c, before, steps) && s == After(c, before, steps) && Reached(c, s) && Shaped(c, s)
      invariant forall i :: 0 <= i < |steps| ==> steps[i] == Send
      invariant s.phase == Filling && s.retired == before.retired && s.sent <= s.retired + 2 * c.workers
      invariant s.sent == before.sent + |steps|
      decreases s.retired + 2 * c.workers - s.sent
    {
      NoSendBlocks(c, s);
      ReachedNext(c, s, Send);
      RunSnoc(c, before, steps, Send);
      s, steps := Next(c, s, Send), steps + [Send];
    }
  }

  /** Retires every batch whose turn has come, unless the deadline ends the run first. The
      clock is read at the end of each generation. */
  method Drain(c: Setup, before: State, late: nat -> bool) returns (s: State, ghost steps: seq<Step>)
    requires c.Valid() && Reached(c, before) && Shaped(c, before) && before.phase == Draining
    ensures Run(c, before, steps) && s == After(c, before, steps) && Reached(c, s) && Shaped(c, s)
    ensures forall i :: 0 <= i < |steps| ==> steps[i].Retire? || steps[i].Resume?
    ensures s.phase.Stopped? || (s.phase == Filling && s.retired !in s.pending)
    ensures s.retired - before.retired <= |before.pending|
  {
    s, steps := before, [];
    while s.phase == Draining && s.retired in s.pending
      invariant Run(c, before, steps) && s == After(c, before, steps) && Reached(c, s) && Shaped(c, s)
      invariant forall i :: 0 <= i < |steps| ==> steps[i].Retire? || steps[i].Resume?
      invariant s.phase.Stopped? || s.phase == Draining
      invariant s.retired + |s.pending| == before.retired + |before.pending|
      decreases |s.pending|
    {
      var step := Retire(late(s.retired));
      ReachedNext(c, s, step);
      RetireShrinks(c, s, step.late);
      RunSnoc(c, before, steps, step);
      s, steps := Next(c, s, step), steps + [step];
    }
    if s.phase == Draining {
      ReachedNext(c, s, Resume);
      RunSnoc(c, before, steps, Resume);
      s, steps := Next(c, s, Resume), steps + [Resume];
    }
  }

  lemma WindowFits(c: Setup, s: State)
    requires c.Valid() && Reached(c, s) && s.phase == Filling
    ensures s.sent <= s.retired + 2 * c.workers
  {
    ReachedInv(c, s);
  }

  lemma NoSendBlocks(c: Setup, s: State)
    requires c.Valid() && Reached(c, s) && Shaped(c, s) && s.phase == Filling && s.sent - s.retired < 2 * c.workers
    ensures Enabled(c, s, Send)
  {
    ReachedInv(c, s);
    CanAct(c, s);
  }

  lemma RemovedEntry(m: map<nat, Outcome>, key: nat)
    requires key in m
    ensures |m - {key}| == |m| - 1
  {
    assert (m - {key}).Keys == m.Keys - {key};
    assert |(m - {key}).Keys| == |m.Keys| - 1;
  }

  lemma RetireShrinks(c: Setup, s: State, late: bool)
    requires c.Valid() && Reached(c, s) && Shaped(c, s) && s.phase == Draining && s.retired in s.pending
    ensures var t := Next(c, s, Retire(late));
      && t.retired == s.retired + 1 && |t.pending| == |s.pending| - 1
      && (t.phase.Stopped? || t.phase == Draining)
  {
    RemovedEntry(s.pending, s.retired);
    if (s.retired + 1) % c.PerGeneration() == 0 {
      NoMismatch(c, s, late);
    }
  }
}
