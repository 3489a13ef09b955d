/** What every step of the evaluation pipeline keeps. */
module PipelineInvariant {
  import opened Basics
  import opened Pipeline

  function Slice(generation: seq<Point>, i: nat, size: nat): seq<Point> {
    if i * size + size <= |generation| then generation[i * size..i * size + size] else []
  }

  /** The batch a given id carries. */
  function Batch(c: Setup, drawn: seq<seq<Point>>, id: nat): seq<Point>
    requires 1 <= c.batchSize <= c.generationSize
  {
    var g := id / c.PerGeneration();
    if g < |drawn| then Slice(drawn[g], id % c.PerGeneration(), c.batchSize) else []
  }

  /** Generations are drawn when their first batch is due, and cut up in order. */
  ghost predicate DrawnInv(c: Setup, drawn: seq<seq<Point>>, cursor: nat, sent: nat)
    requires c.Valid()
  {
    var n := c.PerGeneration();
    && |drawn| == sent / n + (if sent % n == 0 then 0 else 1)
    && cursor == (if sent % n == 0 then c.generationSize else sent % n * c.batchSize)
    && forall g :: 0 <= g < |drawn| ==> |drawn[g]| == c.generationSize
  }

  /** What one worker still has to do: the batch it runs and those queued behind it. */
  function Todo(s: State, w: nat): seq<Work>
    requires w < |s.queues| == |s.running|
  {
    (if s.running[w].Some? then [s.running[w].value] else []) + s.queues[w]
  }

  /** A worker owes at most two batches, its latest ids, in order. */
  ghost predicate LaneInv(c: Setup, todo: seq<Work>, w: nat, retired: nat, sent: nat)
    requires 1 <= c.workers
  {
    && |todo| <= 2
    && (forall i :: 0 <= i < |todo| ==> retired <= todo[i].id < sent && todo[i].id % c.workers == w)
    && (|todo| > 0 ==> sent <= todo[|todo| - 1].id + c.workers)
    && (|todo| == 2 ==> todo[1].id == todo[0].id + c.workers)
  }

  ghost predicate LanesInv(c: Setup, s: State)
    requires 1 <= c.workers == |s.queues| == |s.running|
  {
    forall w :: 0 <= w < c.workers ==> LaneInv(c, Todo(s, w), w, s.retired, s.sent)
  }

  predicate Owes(todo: seq<Work>, id: nat) {
    (|todo| > 0 && todo[0].id == id) || (|todo| > 1 && todo[1].id == id)
  }

  /** Queued or running. */
  predicate Held(s: State, id: nat)
    requires |s.queues| == |s.running|
  {
    exists w :: 0 <= w < |s.queues| && Owes(Todo(s, w), id)
  }

  predicate InChannel(completed: seq<Done>, id: nat) {
    exists i :: 0 <= i < |completed| && completed[i].id == id
  }

  /** Every dealt batch that is not retired is in exactly one place. */
  ghost predicate CoverInv(s: State)
    requires |s.queues| == |s.running|
  {
    && (forall id :: s.retired <= id < s.sent ==> Held(s, id) || InChannel(s.completed, id) || id in s.pending)
    && (forall i :: 0 <= i < |s.completed| ==>
          && s.retired <= s.completed[i].id < s.sent
          && !Held(s, s.completed[i].id) && s.completed[i].id !in s.pending)
    && (forall i, j :: 0 <= i < j < |s.completed| ==> s.completed[i].id != s.completed[j].id)
    && (forall id :: id in s.pending ==> s.retired <= id < s.sent && !Held(s, id))
  }

  predicate Precedes(completed: seq<Done>, n: nat, id: int)
    requires n <= |completed|
  {
    exists j :: 0 <= j < n && completed[j].id == id
  }

  /** Results of one worker arrive in the order its batches were dealt. */
  ghost predicate ArrivalInv(workers: nat, completed: seq<Done>, pending: map<nat, Outcome>, retired: nat) {
    && (forall i :: 0 <= i < |completed| ==>
          var id := completed[i].id - workers;
          id < retired || id in pending || Precedes(completed, i, id))
    && (forall id :: id in pending ==> id - workers < retired || id - workers in pending)
  }

  predicate Live(s: State) {
    s.phase == Filling || s.phase == Draining
  }

  /** At least one whole round of the workers stays outstanding once the window has filled. */
  ghost predicate WindowInv(workers: nat, phase: Phase, pending: map<nat, Outcome>, sent: nat, retired: nat) {
    && retired <= sent <= retired + 2 * workers
    && (phase == Filling ==> retired !in pending && (retired == 0 || retired + workers <= sent))
    && (phase == Draining ==> retired + workers <= sent && sent - workers !in pending)
  }

  ghost predicate FlowInv(c: Setup, s: State)
    requires 1 <= c.workers == |s.queues| == |s.running|
  {
    LanesInv(c, s) && CoverInv(s) && ArrivalInv(c.workers, s.completed, s.pending, s.retired) &&
    WindowInv(c.workers, s.phase, s.pending, s.sent, s.retired)
  }

  // Contents

  ghost predicate WorkInv(c: Setup, s: State)
    requires c.Valid() && |s.queues| == |s.running| == c.workers
  {
    forall w, i :: 0 <= w < c.workers && 0 <= i < |Todo(s, w)| ==>
      Todo(s, w)[i].batch == Batch(c, s.drawn, Todo(s, w)[i].id)
  }

  ghost predicate ResultInv(c: Setup, drawn: seq<seq<Point>>, completed: seq<Done>, pending: map<nat, Outcome>)
    requires c.Valid()
  {
    && (forall i :: 0 <= i < |completed| ==> completed[i].result == c.evaluate(Batch(c, drawn, completed[i].id)))
    && (forall id :: id in pending ==> c.evaluate(Batch(c, drawn, id)) == Ok(pending[id]))
  }

  /** What has been merged is the outcome of every retired batch, in id order. */
  ghost predicate MergedInv(c: Setup, drawn: seq<seq<Point>>, merged: seq<Outcome>)
    requires c.Valid()
  {
    forall id :: 0 <= id < |merged| ==> c.evaluate(Batch(c, drawn, id)) == Ok(merged[id])
  }

  function Gather(outcomes: seq<Outcome>): seq<Value> {
    if outcomes == [] then [] else Gather(outcomes[..|outcomes| - 1]) + Feedback(outcomes[|outcomes| - 1])
  }

  function Learned(history: seq<Call>): seq<seq<Value>> {
    if history == [] then []
    else
      var before := Learned(history[..|history| - 1]);
      match history[|history| - 1]
      case Generate => before
      case Learn(values) => before + [values]
  }

  /** The generations a sequence of calls produces. */
  function Drawn(c: Setup, history: seq<Call>): seq<seq<Point>> {
    if history == [] then []
    else
      var before := history[..|history| - 1];
      if history[|history| - 1].Generate? then Drawn(c, before) + [c.draw(before)] else Drawn(c, before)
  }

  /** Feedback, counts and the clock follow from what has been retired. */
  ghost predicate TallyInv(c: Setup, merged: seq<Outcome>, feedback: seq<Value>, accepted: nat, start: Option<nat>, batches: nat)
    requires c.Valid()
  {
    var n := c.PerGeneration();
    var g := |merged| / n;
    && g * n <= |merged|
    && feedback == (if c.feedback then Gather(merged[g * n..]) else [])
    && accepted == g * c.generationSize
    && start == (if g == 0 then None else Some(c.generationSize))
    && batches == |merged| - (if g == 0 then 0 else n)
  }

  /** The sampler has been given the feedback of every complete generation, in order. */
  ghost predicate LearnedInv(c: Setup, history: seq<Call>, merged: seq<Outcome>)
    requires c.Valid()
  {
    var n := c.PerGeneration();
    && |Learned(history)| == (if c.feedback then |merged| / n else 0)
    && forall k :: 0 <= k < |Learned(history)| ==>
         k * n + n <= |merged| && Learned(history)[k] == Gather(merged[k * n..k * n + n])
  }

  /** The run ends only by its deadline, on a generation boundary, or by a failed evaluation. */
  ghost predicate EndInv(c: Setup, phase: Phase, merged: seq<Outcome>, accepted: nat, batches: nat)
    requires c.Valid()
  {
    match phase
    case Stopped(samples) =>
      && |merged| % c.PerGeneration() == 0 && |merged| >= 2 * c.PerGeneration()
      && batches == |merged| - c.PerGeneration() && accepted == |merged| * c.batchSize
      && samples == batches * c.batchSize == accepted - c.generationSize
    case Failed(why) => why == EvaluationFailed
    case _ => true
  }

  ghost predicate LedgerInv(c: Setup, s: State)
    requires c.Valid()
  {
    && |s.merged| == s.retired
    && TallyInv(c, s.merged, s.feedback, s.accepted, s.start, s.batches)
    && LearnedInv(c, s.history, s.merged)
    && EndInv(c, s.phase, s.merged, s.accepted, s.batches)
  }

  ghost predicate ContentInv(c: Setup, s: State)
    requires c.Valid() && |s.queues| == |s.running| == c.workers
  {
    && DrawnInv(c, s.drawn, s.cursor, s.sent) && s.drawn == Drawn(c, s.history)
    && WorkInv(c, s) && ResultInv(c, s.drawn, s.completed, s.pending) && MergedInv(c, s.drawn, s.merged)
  }

  ghost predicate Inv(c: Setup, s: State)
    requires c.Valid()
  {
    && |s.queues| == |s.running| == c.workers && s.retired <= s.sent
    && ContentInv(c, s) && LedgerInv(c, s) && (Live(s) ==> FlowInv(c, s))
  }
}
