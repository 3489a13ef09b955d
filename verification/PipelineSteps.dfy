/** Every step of the evaluation pipeline keeps its invariants. */
module PipelineSteps {
  import opened Arithmetic
  import opened Basics
  import opened Pipeline
  import opened PipelineInvariant

  // Flow: where each batch is

  /** The channel a batch is due for holds at most one other batch of this window. */
  lemma SlotFree(c: Setup, todo: seq<Work>, w: nat, retired: nat, sent: nat)
    requires 1 <= c.workers && w == sent % c.workers && LaneInv(c, todo, w, retired, sent)
    requires sent < retired + 2 * c.workers
    ensures |todo| <= 1 && (|todo| == 1 ==> todo[0].id + c.workers == sent)
  {
    if |todo| > 0 {
      SameRemainder(todo[|todo| - 1].id, sent, c.workers);
    }
  }

  lemma OwnLane(c: Setup, todo: seq<Work>, w: nat, retired: nat, sent: nat, work: Work)
    requires 1 <= c.workers && w == sent % c.workers && LaneInv(c, todo, w, retired, sent)
    requires retired <= sent < retired + 2 * c.workers && work.id == sent
    ensures LaneInv(c, todo + [work], w, retired, sent + 1)
  {
    SlotFree(c, todo, w, retired, sent);
  }

  lemma OtherLane(c: Setup, todo: seq<Work>, w: nat, retired: nat, sent: nat)
    requires 1 <= c.workers && w != sent % c.workers && LaneInv(c, todo, w, retired, sent)
    ensures LaneInv(c, todo, w, retired, sent + 1)
  {
    if |todo| > 0 {
      AddDivisor(todo[|todo| - 1].id, c.workers);
    }
  }

  lemma SendKeepsLanes(c: Setup, s: State, work: Work, t: State)
    requires 1 <= c.workers == |s.queues| == |s.running| && LanesInv(c, s)
    requires s.retired <= s.sent < s.retired + 2 * c.workers && work.id == s.sent
    requires var w := s.sent % c.workers;
      t.queues == s.queues[w := s.queues[w] + [work]] && t.running == s.running
    requires t.sent == s.sent + 1 && t.retired == s.retired
    ensures LanesInv(c, t)
  {
    var own := s.sent % c.workers;
    forall w | 0 <= w < c.workers ensures LaneInv(c, Todo(t, w), w, t.retired, t.sent) {
      assert LaneInv(c, Todo(s, w), w, s.retired, s.sent);
      if w == own {
        OwnLane(c, Todo(s, own), own, s.retired, s.sent, work);
        assert Todo(t, own) == Todo(s, own) + [work];
      } else {
        OtherLane(c, Todo(s, w), w, s.retired, s.sent);
      }
    }
  }

  lemma SendKeepsFlow(c: Setup, s: State, work: Work, t: State)
    requires 1 <= c.workers == |s.queues| == |s.running| && FlowInv(c, s)
    requires s.phase == Filling && s.sent - s.retired < 2 * c.workers && work.id == s.sent
    requires var w := s.sent % c.workers;
      t.queues == s.queues[w := s.queues[w] + [work]] && t.running == s.running
    requires t.sent == s.sent + 1 && t.retired == s.retired
    requires t.completed == s.completed && t.pending == s.pending && t.phase == s.phase
    ensures FlowInv(c, t)
  {
    var own := s.sent % c.workers;
    SlotFree(c, Todo(s, own), own, s.retired, s.sent);
    SendKeepsLanes(c, s, work, t);
    assert Todo(t, own) == Todo(s, own) + [work];
    CoverAfterSend(s, t, own, work);
  }

  lemma CoverAfterSend(s: State, t: State, own: nat, work: Work)
    requires |s.queues| == |s.running| == |t.queues| == |t.running| && own < |s.queues| && CoverInv(s)
    requires |Todo(s, own)| <= 1 && Todo(t, own) == Todo(s, own) + [work] && work.id == s.sent
    requires forall w :: 0 <= w < |s.queues| && w != own ==> Todo(t, w) == Todo(s, w)
    requires t.sent == s.sent + 1 && t.retired == s.retired
    requires t.completed == s.completed && t.pending == s.pending
    ensures CoverInv(t)
  {
    assert Owes(Todo(t, own), s.sent);
    forall id: nat | id != s.sent ensures Held(s, id) == Held(t, id) {
      if w :| 0 <= w < |s.queues| && Owes(Todo(s, w), id) {
        assert Owes(Todo(t, w), id);
      }
    }
  }

  lemma SameTodoSameFlow(c: Setup, s: State, t: State)
    requires 1 <= c.workers == |s.queues| == |s.running| == |t.queues| == |t.running| && FlowInv(c, s)
    requires forall w :: 0 <= w < c.workers ==> Todo(t, w) == Todo(s, w)
    requires t.sent == s.sent && t.retired == s.retired
    requires t.completed == s.completed && t.pending == s.pending && t.phase == s.phase
    ensures FlowInv(c, t)
  {
    SameLanes(c, s, t);
    SameTodoSameCover(s, t);
  }

  lemma SameTodoSameCover(s: State, t: State)
    requires |s.queues| == |s.running| == |t.queues| == |t.running| && CoverInv(s)
    requires forall w :: 0 <= w < |s.queues| ==> Todo(t, w) == Todo(s, w)
    requires t.sent == s.sent && t.retired == s.retired && t.completed == s.completed && t.pending == s.pending
    ensures CoverInv(t)
  {
    SameTodoSameHeld(s, t);
  }

  lemma SameTodoSameHeld(s: State, t: State)
    requires |s.queues| == |s.running| == |t.queues| == |t.running|
    requires forall w :: 0 <= w < |s.queues| ==> Todo(t, w) == Todo(s, w)
    ensures forall id: nat :: Held(t, id) == Held(s, id)
  {
    forall id: nat ensures Held(t, id) == Held(s, id) {
      if w :| 0 <= w < |s.queues| && Owes(Todo(s, w), id) {
        assert Owes(Todo(t, w), id);
      }
    }
  }

  lemma LaneOf(c: Setup, s: State, w: nat, id: nat)
    requires 1 <= c.workers == |s.queues| == |s.running| && LanesInv(c, s)
    requires w < c.workers && Owes(Todo(s, w), id)
    ensures id % c.workers == w
  {
    assert LaneInv(c, Todo(s, w), w, s.retired, s.sent);
  }

  /** The batch dealt to a worker before the one it runs is already finished. */
  lemma PredecessorDone(c: Setup, s: State, w: nat)
    requires 1 <= c.workers == |s.queues| == |s.running| && LanesInv(c, s)
    requires w < c.workers && |Todo(s, w)| > 0 && Todo(s, w)[0].id >= c.workers
    ensures !Held(s, Todo(s, w)[0].id - c.workers)
  {
    var id := Todo(s, w)[0].id - c.workers;
    assert LaneInv(c, Todo(s, w), w, s.retired, s.sent);
    AddDivisor(id, c.workers);
    if v :| 0 <= v < c.workers && Owes(Todo(s, v), id) {
      LaneOf(c, s, v, id);
    }
  }

  lemma ShorterLane(c: Setup, todo: seq<Work>, w: nat, retired: nat, sent: nat)
    requires 1 <= c.workers && todo != [] && LaneInv(c, todo, w, retired, sent)
    ensures LaneInv(c, todo[1..], w, retired, sent)
  {}

  lemma FinishKeepsLanes(c: Setup, s: State, w: nat, t: State)
    requires 1 <= c.workers == |s.queues| == |s.running| && LanesInv(c, s)
    requires w < c.workers && s.running[w].Some?
    requires t.running == s.running[w := None] && t.queues == s.queues && t.sent == s.sent && t.retired == s.retired
    ensures LanesInv(c, t)
  {
    forall v | 0 <= v < c.workers ensures LaneInv(c, Todo(t, v), v, t.retired, t.sent) {
      assert LaneInv(c, Todo(s, v), v, s.retired, s.sent);
      assert Todo(t, v) == if v == w then Todo(s, v)[1..] else Todo(s, v);
      if v == w {
        ShorterLane(c, Todo(s, v), v, s.retired, s.sent);
      }
    }
  }

  /** A worker owes no batch twice, and nobody else owes it. */
  lemma FinishReleases(c: Setup, s: State, w: nat, t: State)
    requires 1 <= c.workers == |s.queues| == |s.running| && LanesInv(c, s)
    requires w < c.workers && s.running[w].Some?
    requires t.running == s.running[w := None] && t.queues == s.queues
    ensures s.retired <= s.running[w].value.id < s.sent
    ensures forall id: nat :: Held(t, id) <==> Held(s, id) && id != s.running[w].value.id
    ensures Held(s, s.running[w].value.id)
  {
    var done := s.running[w].value.id;
    assert Owes(Todo(s, w), done) && LaneInv(c, Todo(s, w), w, s.retired, s.sent);
    forall id: nat ensures Held(t, id) <==> Held(s, id) && id != done {
      if v :| 0 <= v < c.workers && Owes(Todo(t, v), id) {
        StillOwed(c, s, w, t, v, id);
      }
      if v :| 0 <= v < c.workers && Owes(Todo(s, v), id) {
        StillOwed(c, s, w, t, v, id);
      }
    }
  }

  lemma StillOwed(c: Setup, s: State, w: nat, t: State, v: nat, id: nat)
    requires 1 <= c.workers == |s.queues| == |s.running| && LanesInv(c, s)
    requires w < c.workers && s.running[w].Some? && v < c.workers
    requires t.running == s.running[w := None] && t.queues == s.queues
    ensures Owes(Todo(t, v), id) <==> Owes(Todo(s, v), id) && id != s.running[w].value.id
  {
    var done := s.running[w].value.id;
    assert LaneInv(c, Todo(s, w), w, s.retired, s.sent) && LaneInv(c, Todo(s, v), v, s.retired, s.sent);
    assert Owes(Todo(s, w), done);
    if v == w {
      assert Todo(t, w) == Todo(s, w)[1..];
    } else {
      assert Todo(t, v) == Todo(s, v);
      if Owes(Todo(s, v), done) {
        LaneOf(c, s, v, done);
        LaneOf(c, s, w, done);
      }
    }
  }

  lemma FinishKeepsCover(s: State, done: nat, result: Result<Outcome, string>, t: State)
    requires |s.queues| == |s.running| == |t.queues| == |t.running| && CoverInv(s)
    requires s.retired <= done < s.sent && Held(s, done)
    requires forall id: nat :: Held(t, id) <==> Held(s, id) && id != done
    requires t.sent == s.sent && t.retired == s.retired
    requires t.completed == s.completed + [Done(done, result)] && t.pending == s.pending
    ensures CoverInv(t)
  {
    assert t.completed[|s.completed|].id == done;
    forall id | InChannel(s.completed, id) ensures InChannel(t.completed, id) {
      var i :| 0 <= i < |s.completed| && s.completed[i].id == id;
      assert t.completed[i].id == id;
    }
  }

  lemma FinishKeepsArrival(c: Setup, s: State, w: nat, result: Result<Outcome, string>)
    requires 1 <= c.workers == |s.queues| == |s.running| && LanesInv(c, s) && CoverInv(s)
    requires ArrivalInv(c.workers, s.completed, s.pending, s.retired)
    requires w < c.workers && s.running[w].Some?
    ensures ArrivalInv(c.workers, s.completed + [Done(s.running[w].value.id, result)], s.pending, s.retired)
  {
    var done := s.running[w].value.id;
    assert LaneInv(c, Todo(s, w), w, s.retired, s.sent);
    if done >= c.workers {
      PredecessorDone(c, s, w);
    }
    ArrivalAfter(c.workers, s.completed, s.pending, s.retired, Done(done, result));
  }

  lemma ArrivalAfter(workers: nat, completed: seq<Done>, pending: map<nat, Outcome>, retired: nat, done: Done)
    requires ArrivalInv(workers, completed, pending, retired)
    requires var id := done.id - workers; id < retired || id in pending || InChannel(completed, id)
    ensures ArrivalInv(workers, completed + [done], pending, retired)
  {
    forall i, id | 0 <= i <= |completed| && Precedes(completed, i, id) ensures Precedes(completed + [done], i, id) {
      var j :| 0 <= j < i && completed[j].id == id;
      assert (completed + [done])[j].id == id;
    }
    var id := done.id - workers;
    if id >= retired && id !in pending {
      assert Precedes(completed, |completed|, id);
    }
  }

  lemma ReceiveKeepsCover(s: State, outcome: Outcome, t: State)
    requires |s.queues| == |s.running| && CoverInv(s) && s.completed != []
    requires t.running == s.running && t.queues == s.queues && t.sent == s.sent && t.retired == s.retired
    requires t.completed == s.completed[1..] && t.pending == s.pending[s.completed[0].id := outcome]
    ensures CoverInv(t)
  {
    assert forall w :: 0 <= w < |s.queues| ==> Todo(t, w) == Todo(s, w);
    SameTodoSameHeld(s, t);
    forall id | InChannel(s.completed, id) && id != s.completed[0].id ensures InChannel(t.completed, id) {
      var i :| 0 <= i < |s.completed| && s.completed[i].id == id;
      assert t.completed[i - 1].id == id;
    }
    assert forall i :: 0 <= i < |t.completed| ==> t.completed[i] == s.completed[i + 1];
  }

  lemma ReceiveKeepsArrival(workers: nat, completed: seq<Done>, pending: map<nat, Outcome>, retired: nat, outcome: Outcome)
    requires ArrivalInv(workers, completed, pending, retired) && completed != []
    ensures ArrivalInv(workers, completed[1..], pending[completed[0].id := outcome], retired)
  {
    forall i | 0 <= i < |completed| - 1
      ensures var id := completed[1..][i].id - workers;
        id < retired || id in pending[completed[0].id := outcome] || Precedes(completed[1..], i, id)
    {
      var id := completed[i + 1].id - workers;
      if j :| 0 <= j < i + 1 && completed[j].id == id && j > 0 {
        assert completed[1..][j - 1].id == id;
      }
    }
    assert !Precedes(completed, 0, completed[0].id - workers);
  }

  /** What opens the next round cannot have come back before the window's oldest batch. */
  lemma ReceiveKeepsWindow(c: Setup, s: State)
    requires WindowInv(c.workers, s.phase, s.pending, s.sent, s.retired) && ArrivalInv(c.workers, s.completed, s.pending, s.retired)
    requires s.phase == Filling && s.sent - s.retired >= 2 * c.workers && s.completed != []
    requires 1 <= c.workers
    ensures s.sent - c.workers !in s.pending && s.completed[0].id != s.sent - c.workers
  {
    assert !Precedes(s.completed, 0, s.completed[0].id - c.workers);
    assert s.sent - c.workers - c.workers == s.retired;
  }

  lemma RetireKeepsLanes(c: Setup, s: State, t: State)
    requires 1 <= c.workers == |s.queues| == |s.running| && LanesInv(c, s) && CoverInv(s) && s.retired in s.pending
    requires t.running == s.running && t.queues == s.queues && t.sent == s.sent && t.retired == s.retired + 1
    ensures LanesInv(c, t)
  {
    forall w | 0 <= w < c.workers ensures LaneInv(c, Todo(t, w), w, t.retired, t.sent) {
      assert LaneInv(c, Todo(s, w), w, s.retired, s.sent);
      assert Todo(t, w) == Todo(s, w);
      assert !Held(s, s.retired) && !Owes(Todo(s, w), s.retired);
    }
  }

  lemma RetireKeepsCover(s: State, t: State)
    requires |s.queues| == |s.running| && CoverInv(s) && s.retired in s.pending
    requires t.running == s.running && t.queues == s.queues && t.sent == s.sent && t.retired == s.retired + 1
    requires t.completed == s.completed && t.pending == s.pending - {s.retired}
    ensures CoverInv(t)
  {
    assert forall w :: 0 <= w < |s.queues| ==> Todo(t, w) == Todo(s, w);
    SameTodoSameHeld(s, t);
  }

  // Contents: what each batch carries

  /** A state between two steps can take the next one. */
  lemma DrawnIsShaped(c: Setup, drawn: seq<seq<Point>>, cursor: nat, sent: nat)
    requires c.Valid() && DrawnInv(c, drawn, cursor, sent) && cursor != c.generationSize
    ensures drawn != [] && cursor + c.batchSize <= |drawn[|drawn| - 1]|
  {
    c.GenerationIsWhole();
    Room(sent % c.PerGeneration(), c.PerGeneration(), c.batchSize);
  }

  lemma Room(i: nat, n: nat, size: nat)
    requires i < n
    ensures i * size + size == (i + 1) * size <= n * size
  {
    ProductSteps(size, n - i);
    assert size * (n - i) == n * size - i * size;
  }

  /** The slice at the cursor is the batch of the next id, and the cursor moves past it. */
  lemma DealKeepsDrawn(c: Setup, drawn: seq<seq<Point>>, cursor: nat, sent: nat)
    requires c.Valid() && |drawn| == sent / c.PerGeneration() + 1 && cursor == sent % c.PerGeneration() * c.batchSize
    requires forall g :: 0 <= g < |drawn| ==> |drawn[g]| == c.generationSize
    ensures cursor + c.batchSize <= c.generationSize
    ensures DrawnInv(c, drawn, cursor + c.batchSize, sent + 1)
    ensures drawn[|drawn| - 1][cursor..cursor + c.batchSize] == Batch(c, drawn, sent)
  {
    c.GenerationIsWhole();
    Room(sent % c.PerGeneration(), c.PerGeneration(), c.batchSize);
    NextQuotient(sent, c.PerGeneration());
  }

  /** Drawing another generation changes no batch already dealt. */
  lemma BatchStable(c: Setup, drawn: seq<seq<Point>>, more: seq<Point>, sent: nat, id: nat)
    requires c.Valid() && |drawn| * c.PerGeneration() >= sent > id
    ensures Batch(c, drawn + [more], id) == Batch(c, drawn, id)
  {
    c.GenerationIsWhole();
    if id / c.PerGeneration() >= |drawn| {
      ProductSteps(c.PerGeneration(), id / c.PerGeneration() - |drawn| + 1);
    }
  }

  lemma CursorAtEnd(c: Setup, drawn: seq<seq<Point>>, cursor: nat, sent: nat)
    requires c.Valid() && DrawnInv(c, drawn, cursor, sent) && cursor == c.generationSize
    ensures sent % c.PerGeneration() == 0 && |drawn| * c.PerGeneration() == sent
  {
    c.GenerationIsWhole();
    var left := c.PerGeneration() - sent % c.PerGeneration();
    assert c.batchSize * left == c.PerGeneration() * c.batchSize - sent % c.PerGeneration() * c.batchSize;
    ProductSteps(c.batchSize, left);
  }

  lemma LearnedAfterGenerate(history: seq<Call>)
    ensures Learned(history + [Generate]) == Learned(history)
  {
    assert (history + [Generate])[..|history|] == history;
  }

  lemma DrawnAfter(c: Setup, history: seq<Call>, call: Call)
    ensures Drawn(c, history + [call]) == if call.Generate? then Drawn(c, history) + [c.draw(history)] else Drawn(c, history)
  {
    assert (history + [call])[..|history|] == history;
  }

  lemma DrawKeepsWork(c: Setup, s: State)
    requires c.Valid() && |s.queues| == |s.running| == c.workers && LanesInv(c, s) && WorkInv(c, s)
    requires |s.drawn| * c.PerGeneration() >= s.sent
    ensures WorkInv(c, DrawNext(c, s))
  {
    var t := DrawNext(c, s);
    forall w, i | 0 <= w < c.workers && 0 <= i < |Todo(t, w)| ensures Todo(t, w)[i].batch == Batch(c, t.drawn, Todo(t, w)[i].id) {
      assert Todo(t, w) == Todo(s, w) && LaneInv(c, Todo(s, w), w, s.retired, s.sent);
      BatchStable(c, s.drawn, c.draw(s.history), s.sent, Todo(s, w)[i].id);
    }
  }

  lemma DrawKeepsResults(c: Setup, s: State)
    requires c.Valid() && |s.queues| == |s.running| && CoverInv(s)
    requires ResultInv(c, s.drawn, s.completed, s.pending) && MergedInv(c, s.drawn, s.merged)
    requires |s.drawn| * c.PerGeneration() >= s.sent >= |s.merged|
    ensures var t := DrawNext(c, s); ResultInv(c, t.drawn, s.completed, s.pending) && MergedInv(c, t.drawn, s.merged)
  {
    forall id: nat | id < s.sent ensures Batch(c, s.drawn + [c.draw(s.history)], id) == Batch(c, s.drawn, id) {
      BatchStable(c, s.drawn, c.draw(s.history), s.sent, id);
    }
  }

  lemma DealKeepsWork(c: Setup, s: State, work: Work, t: State)
    requires c.Valid() && |s.queues| == |s.running| == c.workers && WorkInv(c, s)
    requires work.id == s.sent && work.batch == Batch(c, s.drawn, s.sent)
    requires var w := s.sent % c.workers;
      t.queues == s.queues[w := s.queues[w] + [work]] && t.running == s.running
    requires t.drawn == s.drawn
    ensures WorkInv(c, t)
  {
    var own := s.sent % c.workers;
    forall w, i | 0 <= w < c.workers && 0 <= i < |Todo(t, w)| ensures Todo(t, w)[i].batch == Batch(c, t.drawn, Todo(t, w)[i].id) {
      assert Todo(t, w) == if w == own then Todo(s, w) + [work] else Todo(s, w);
    }
  }

  /** The next batch lies at the cursor of the last generation drawn. */
  ghost predicate Cut(c: Setup, drawn: seq<seq<Point>>, cursor: nat, sent: nat)
    requires c.Valid()
  {
    && |drawn| == sent / c.PerGeneration() + 1 && cursor == sent % c.PerGeneration() * c.batchSize
    && (forall g :: 0 <= g < |drawn| ==> |drawn[g]| == c.generationSize)
  }

  /** Between drawing and dealing. */
  ghost predicate Ready(c: Setup, s: State)
    requires c.Valid()
  {
    && |s.queues| == |s.running| == c.workers && s.phase == Filling && FlowInv(c, s) && LedgerInv(c, s)
    && Cut(c, s.drawn, s.cursor, s.sent) && s.drawn == Drawn(c, s.history)
    && WorkInv(c, s) && ResultInv(c, s.drawn, s.completed, s.pending) && MergedInv(c, s.drawn, s.merged)
  }

  lemma DrawReadies(c: Setup, s: State)
    requires c.Valid() && Inv(c, s) && s.phase == Filling && s.cursor == c.generationSize
    ensures Ready(c, DrawNext(c, s))
  {
    CursorAtEnd(c, s.drawn, s.cursor, s.sent);
    DrawKeepsWork(c, s);
    DrawKeepsResults(c, s);
    LearnedAfterGenerate(s.history);
    DrawnAfter(c, s.history, Generate);
    SameTodoSameFlow(c, s, DrawNext(c, s));
  }

  lemma DealKeepsContent(c: Setup, s: State)
    requires c.Valid() && |s.queues| == |s.running| == c.workers && s.retired <= s.sent
    requires Cut(c, s.drawn, s.cursor, s.sent) && s.drawn == Drawn(c, s.history)
    requires WorkInv(c, s) && ResultInv(c, s.drawn, s.completed, s.pending) && MergedInv(c, s.drawn, s.merged)
    ensures s.drawn != [] && s.cursor + c.batchSize <= |s.drawn[|s.drawn| - 1]|
    ensures ContentInv(c, Deal(c, s))
  {
    DealKeepsDrawn(c, s.drawn, s.cursor, s.sent);
    DealKeepsWork(c, s, Work(s.sent, Batch(c, s.drawn, s.sent)), Deal(c, s));
  }

  lemma DealKeepsFlow(c: Setup, s: State)
    requires 1 <= c.workers == |s.queues| == |s.running| && 1 <= c.batchSize && FlowInv(c, s)
    requires s.phase == Filling && s.sent - s.retired < 2 * c.workers
    requires s.drawn != [] && s.cursor + c.batchSize <= |s.drawn[|s.drawn| - 1]| && s.cursor != c.generationSize
    ensures FlowInv(c, Deal(c, s))
  {
    var batch := s.drawn[|s.drawn| - 1][s.cursor..s.cursor + c.batchSize];
    SendKeepsFlow(c, s, Work(s.sent, batch), Deal(c, s));
  }

  lemma DealKeepsInv(c: Setup, s: State)
    requires c.Valid() && Ready(c, s) && s.sent - s.retired < 2 * c.workers
    ensures s.drawn != [] && s.cursor + c.batchSize <= |s.drawn[|s.drawn| - 1]|
    ensures Inv(c, Deal(c, s))
  {
    DealKeepsContent(c, s);
    DealKeepsFlow(c, s);
  }

  lemma SendKeepsInv(c: Setup, s: State)
    requires c.Valid() && Inv(c, s) && Shaped(c, s) && Enabled(c, s, Send)
    ensures Inv(c, Next(c, s, Send))
  {
    if s.cursor == c.generationSize {
      DrawReadies(c, s);
      DealKeepsInv(c, DrawNext(c, s));
    } else {
      c.GenerationIsWhole();
      DealKeepsInv(c, s);
    }
  }

  lemma TakeKeepsInv(c: Setup, s: State, w: nat)
    requires c.Valid() && Inv(c, s) && Shaped(c, s) && Enabled(c, s, Take(w))
    ensures Inv(c, Next(c, s, Take(w)))
  {
    var t := Next(c, s, Take(w));
    TakeMoves(c, s, w);
    SameTodoSameContent(c, s, t);
    if Live(s) {
      SameTodoSameFlow(c, s, t);
    }
  }

  /** A batch moves from the channel to the worker. */
  lemma TakeMoves(c: Setup, s: State, w: nat)
    requires c.Valid() && Shaped(c, s) && Enabled(c, s, Take(w))
    ensures var t := Next(c, s, Take(w));
      && t == s.(queues := t.queues, running := t.running) && |t.queues| == |t.running| == c.workers
      && forall v :: 0 <= v < c.workers ==> Todo(t, v) == Todo(s, v)
  {}

  lemma SameTodoSameContent(c: Setup, s: State, t: State)
    requires c.Valid() && |s.queues| == |s.running| == c.workers == |t.queues| == |t.running| && ContentInv(c, s)
    requires t == s.(queues := t.queues, running := t.running) && forall v :: 0 <= v < c.workers ==> Todo(t, v) == Todo(s, v)
    ensures ContentInv(c, t)
  {
    SameTodoSameWork(c, s, t);
  }

  lemma SameTodoSameWork(c: Setup, s: State, t: State)
    requires c.Valid() && |s.queues| == |s.running| == c.workers == |t.queues| == |t.running| && WorkInv(c, s)
    requires t.drawn == s.drawn && forall v :: 0 <= v < c.workers ==> Todo(t, v) == Todo(s, v)
    ensures WorkInv(c, t)
  {
    forall v, i | 0 <= v < c.workers && 0 <= i < |Todo(t, v)| ensures Todo(t, v)[i].batch == Batch(c, t.drawn, Todo(t, v)[i].id) {
      assert Todo(t, v) == Todo(s, v);
    }
  }

  lemma FinishKeepsContent(c: Setup, s: State, w: nat)
    requires c.Valid() && |s.queues| == |s.running| == c.workers && ContentInv(c, s) && w < c.workers && s.running[w].Some?
    ensures var work := s.running[w].value;
      var t := s.(running := s.running[w := None], completed := s.completed + [Done(work.id, c.evaluate(work.batch))]);
      ContentInv(c, t)
  {
    var work := s.running[w].value;
    var t := s.(running := s.running[w := None], completed := s.completed + [Done(work.id, c.evaluate(work.batch))]);
    assert work == Todo(s, w)[0];
    forall v, i | 0 <= v < c.workers && 0 <= i < |Todo(t, v)| ensures Todo(t, v)[i].batch == Batch(c, t.drawn, Todo(t, v)[i].id) {
      assert Todo(t, v) == if v == w then Todo(s, v)[1..] else Todo(s, v);
    }
  }

  lemma FinishKeepsPlaces(c: Setup, s: State, w: nat, result: Result<Outcome, string>, t: State)
    requires 1 <= c.workers == |s.queues| == |s.running| && LanesInv(c, s) && CoverInv(s) && w < c.workers && s.running[w].Some?
    requires t.running == s.running[w := None] && t.queues == s.queues && t.sent == s.sent && t.retired == s.retired
    requires t.completed == s.completed + [Done(s.running[w].value.id, result)] && t.pending == s.pending
    ensures LanesInv(c, t) && CoverInv(t)
  {
    FinishKeepsLanes(c, s, w, t);
    FinishReleases(c, s, w, t);
    FinishKeepsCover(s, s.running[w].value.id, result, t);
  }

  lemma FinishKeepsFlow(c: Setup, s: State, w: nat, result: Result<Outcome, string>, t: State)
    requires 1 <= c.workers == |s.queues| == |s.running| && FlowInv(c, s) && w < c.workers && s.running[w].Some?
    requires t.running == s.running[w := None] && t.queues == s.queues && t.sent == s.sent && t.retired == s.retired
    requires t.completed == s.completed + [Done(s.running[w].value.id, result)] && t.pending == s.pending && t.phase == s.phase
    ensures FlowInv(c, t)
  {
    FinishKeepsPlaces(c, s, w, result, t);
    FinishKeepsArrival(c, s, w, result);
    assert WindowInv(c.workers, t.phase, t.pending, t.sent, t.retired);
  }

  lemma FinishKeepsInv(c: Setup, s: State, w: nat)
    requires c.Valid() && Inv(c, s) && Shaped(c, s) && Enabled(c, s, Finish(w))
    ensures Inv(c, Next(c, s, Finish(w)))
  {
    FinishKeepsContent(c, s, w);
    if Live(s) {
      FinishKeepsFlow(c, s, w, c.evaluate(s.running[w].value.batch), Next(c, s, Finish(w)));
    }
  }

  lemma SameLanes(c: Setup, s: State, t: State)
    requires 1 <= c.workers == |s.queues| == |s.running| == |t.queues| == |t.running| && LanesInv(c, s)
    requires forall w :: 0 <= w < c.workers ==> Todo(t, w) == Todo(s, w)
    requires t.sent == s.sent && t.retired == s.retired
    ensures LanesInv(c, t)
  {
    forall w | 0 <= w < c.workers ensures LaneInv(c, Todo(t, w), w, t.retired, t.sent) {
      assert LaneInv(c, Todo(s, w), w, s.retired, s.sent);
    }
  }

  lemma ReceiveKeepsContent(c: Setup, s: State)
    requires c.Valid() && |s.queues| == |s.running| == c.workers && ContentInv(c, s) && s.completed != []
    ensures ContentInv(c, Collect(s))
  {
    var t := Collect(s);
    assert forall w :: 0 <= w < c.workers ==> Todo(t, w) == Todo(s, w);
    assert forall i :: 0 <= i < |t.completed| ==> t.completed[i] == s.completed[i + 1];
  }

  lemma ReceiveKeepsFlow(c: Setup, s: State)
    requires 1 <= c.workers == |s.queues| == |s.running| && FlowInv(c, s)
    requires s.phase == Filling && s.sent - s.retired >= 2 * c.workers && s.completed != []
    ensures Live(Collect(s)) ==> FlowInv(c, Collect(s))
  {
    var t := Collect(s);
    var done := s.completed[0];
    if done.result.Ok? {
      assert forall w :: 0 <= w < c.workers ==> Todo(t, w) == Todo(s, w);
      SameLanes(c, s, t);
      ReceiveKeepsCover(s, done.result.value, t);
      ReceiveKeepsArrival(c.workers, s.completed, s.pending, s.retired, done.result.value);
      ReceiveKeepsWindow(c, s);
    }
  }

  lemma ReceiveKeepsInv(c: Setup, s: State)
    requires c.Valid() && Inv(c, s) && Shaped(c, s) && Enabled(c, s, Receive)
    ensures Inv(c, Next(c, s, Receive))
  {
    ReceiveKeepsContent(c, s);
    ReceiveKeepsFlow(c, s);
  }

  lemma ResumeKeepsInv(c: Setup, s: State)
    requires c.Valid() && Inv(c, s) && Shaped(c, s) && Enabled(c, s, Resume)
    ensures Inv(c, Next(c, s, Resume))
  {
    var t := Next(c, s, Resume);
    assert forall w :: 0 <= w < c.workers ==> Todo(t, w) == Todo(s, w);
    SameLanes(c, s, t);
    SameTodoSameCover(s, t);
  }

  // Retiring

  lemma RetireKeepsFlow(c: Setup, s: State, t: State)
    requires 1 <= c.workers == |s.queues| == |s.running| && FlowInv(c, s) && s.phase == Draining && s.retired in s.pending
    requires t.running == s.running && t.queues == s.queues && t.sent == s.sent && t.retired == s.retired + 1
    requires t.completed == s.completed && t.pending == s.pending - {s.retired} && t.phase == s.phase
    ensures FlowInv(c, t)
  {
    RetireKeepsPlaces(c, s, t);
    RetireKeepsArrival(c.workers, s.completed, s.pending, s.retired);
    assert WindowInv(c.workers, t.phase, t.pending, t.sent, t.retired);
  }

  lemma RetireKeepsPlaces(c: Setup, s: State, t: State)
    requires 1 <= c.workers == |s.queues| == |s.running| && LanesInv(c, s) && CoverInv(s) && s.retired in s.pending
    requires t.running == s.running && t.queues == s.queues && t.sent == s.sent && t.retired == s.retired + 1
    requires t.completed == s.completed && t.pending == s.pending - {s.retired}
    ensures LanesInv(c, t) && CoverInv(t)
  {
    RetireKeepsLanes(c, s, t);
    RetireKeepsCover(s, t);
  }

  lemma RetireKeepsArrival(workers: nat, completed: seq<Done>, pending: map<nat, Outcome>, retired: nat)
    requires ArrivalInv(workers, completed, pending, retired)
    ensures ArrivalInv(workers, completed, pending - {retired}, retired + 1)
  {}

  lemma SliceLength(generation: seq<Point>, i: nat, n: nat, size: nat)
    requires i < n && |generation| == n * size
    ensures |Slice(generation, i, size)| == size
  {
    Room(i, n, size);
  }

  lemma BatchLength(c: Setup, drawn: seq<seq<Point>>, cursor: nat, sent: nat, id: nat)
    requires c.Valid() && DrawnInv(c, drawn, cursor, sent) && id < sent
    ensures |Batch(c, drawn, id)| == c.batchSize
  {
    var n := c.PerGeneration();
    QuotientBelow(id, sent, n);
    var generation := drawn[id / n];
    c.GenerationIsWhole();
    SliceLength(generation, id % n, n, c.batchSize);
  }

  /** Merged outcomes are what the evaluator promises for a whole batch. */
  ghost predicate Uniform(c: Setup, outcomes: seq<Outcome>) {
    forall i :: 0 <= i < |outcomes| ==>
      && outcomes[i].samples == c.batchSize && outcomes[i].feedback.Some? == c.feedback
      && (c.feedback ==> |outcomes[i].feedback.value| == c.batchSize)
  }

  lemma MergedIsUniform(c: Setup, s: State)
    requires c.Valid() && DrawnInv(c, s.drawn, s.cursor, s.sent) && MergedInv(c, s.drawn, s.merged) && |s.merged| <= s.sent
    ensures Uniform(c, s.merged)
  {
    forall i | 0 <= i < |s.merged| ensures |Batch(c, s.drawn, i)| == c.batchSize {
      BatchLength(c, s.drawn, s.cursor, s.sent, i);
    }
  }

  lemma {:induction false} UniformTotals(c: Setup, outcomes: seq<Outcome>)
    requires Uniform(c, outcomes)
    ensures Samples(outcomes) == |outcomes| * c.batchSize
    ensures |Gather(outcomes)| == if c.feedback then |outcomes| * c.batchSize else 0
  {
    if outcomes != [] {
      UniformTotals(c, outcomes[..|outcomes| - 1]);
      assert |outcomes| * c.batchSize == (|outcomes| - 1) * c.batchSize + c.batchSize;
    }
  }

  lemma GatherAppend(outcomes: seq<Outcome>, last: Outcome)
    ensures Gather(outcomes + [last]) == Gather(outcomes) + Feedback(last)
  {
    assert (outcomes + [last])[..|outcomes|] == outcomes;
  }

  /** Inside a generation, the outcome's feedback joins what is gathered. */
  lemma GatherInside(c: Setup, merged: seq<Outcome>, first: nat, last: Outcome, feedback: seq<Value>)
    requires first <= |merged| && (last.feedback.Some? == c.feedback)
    requires feedback == if c.feedback then Gather(merged[first..]) else []
    ensures feedback + Feedback(last) == if c.feedback then Gather((merged + [last])[first..]) else []
  {
    assert (merged + [last])[first..] == merged[first..] + [last];
    GatherAppend(merged[first..], last);
  }

  lemma TallyInside(c: Setup, merged: seq<Outcome>, last: Outcome, feedback: seq<Value>, accepted: nat, start: Option<nat>, batches: nat)
    requires c.Valid() && TallyInv(c, merged, feedback, accepted, start, batches)
    requires (|merged| + 1) % c.PerGeneration() != 0 && (last.feedback.Some? == c.feedback)
    ensures TallyInv(c, merged + [last], feedback + Feedback(last), accepted, start, batches + 1)
    ensures (|merged| + 1) / c.PerGeneration() == |merged| / c.PerGeneration()
  {
    var n := c.PerGeneration();
    NextQuotient(|merged|, n);
    GatherInside(c, merged, |merged| / n * n, last, feedback);
  }

  /** At the end of one, exactly its own feedback is handed over. */
  lemma GenerationFeedback(c: Setup, merged: seq<Outcome>, first: nat, last: Outcome, feedback: seq<Value>)
    requires c.Valid() && first + c.PerGeneration() == |merged| + 1 && first <= |merged|
    requires feedback == if c.feedback then Gather(merged[first..]) else []
    requires Uniform(c, merged + [last])
    ensures feedback + Feedback(last) == if c.feedback then Gather((merged + [last])[first..]) else []
    ensures c.feedback ==> |feedback + Feedback(last)| == c.generationSize
  {
    assert last == (merged + [last])[|merged|];
    GatherInside(c, merged, first, last, feedback);
    GatheredWhole(c, merged + [last], first);
  }

  lemma GatheredWhole(c: Setup, outcomes: seq<Outcome>, first: nat)
    requires c.Valid() && Uniform(c, outcomes) && first + c.PerGeneration() == |outcomes|
    ensures c.feedback ==> |Gather(outcomes[first..])| == c.generationSize
  {
    var generation := outcomes[first..];
    assert Uniform(c, generation) by {
      assert forall i :: 0 <= i < |generation| ==> generation[i] == outcomes[first + i];
    }
    UniformTotals(c, generation);
    c.GenerationIsWhole();
  }

  lemma LearnedAfterLearn(history: seq<Call>, values: seq<Value>)
    ensures Learned(history + [Learn(values)]) == Learned(history) + [values]
  {
    assert (history + [Learn(values)])[..|history|] == history;
  }

  /** What the sampler has learned grows by that generation's feedback. */
  lemma LearnedGrows(c: Setup, history: seq<Call>, merged: seq<Outcome>, last: Outcome, first: nat)
    requires c.Valid() && LearnedInv(c, history, merged) && first == |merged| / c.PerGeneration() * c.PerGeneration()
    requires first + c.PerGeneration() == |merged| + 1 && (|merged| + 1) / c.PerGeneration() == |merged| / c.PerGeneration() + 1
    ensures !c.feedback ==> LearnedInv(c, history, merged + [last])
    ensures c.feedback ==> LearnedInv(c, history + [Learn(Gather((merged + [last])[first..]))], merged + [last])
  {
    var n := c.PerGeneration();
    LearnedAfterLearn(history, Gather((merged + [last])[first..]));
    LearnedStays(c, history, merged, last);
    assert (merged + [last])[first..] == (merged + [last])[first..first + n];
  }

  lemma EarlierSlice(merged: seq<Outcome>, last: Outcome, from: nat, to: nat)
    requires from <= to <= |merged|
    ensures (merged + [last])[from..to] == merged[from..to]
  {}

  lemma LearnedStays(c: Setup, history: seq<Call>, merged: seq<Outcome>, last: Outcome)
    requires c.Valid() && LearnedInv(c, history, merged)
    ensures var n := c.PerGeneration();
      forall k :: 0 <= k < |Learned(history)| ==>
        k * n + n <= |merged| + 1 && Learned(history)[k] == Gather((merged + [last])[k * n..k * n + n])
  {
    var n := c.PerGeneration();
    var learned := Learned(history);
    forall k | 0 <= k < |learned|
      ensures k * n + n <= |merged| + 1 && learned[k] == Gather((merged + [last])[k * n..k * n + n])
    {
      var from := k * n;
      assert learned[k] == Gather(merged[from..from + n]);
      EarlierSlice(merged, last, from, from + n);
    }
  }

  lemma RetireKeepsContent(c: Setup, s: State)
    requires c.Valid() && |s.queues| == |s.running| == c.workers && ContentInv(c, s)
    requires s.retired in s.pending && |s.merged| == s.retired
    ensures ContentInv(c, Merge(s))
  {
    assert forall w :: 0 <= w < c.workers ==> Todo(Merge(s), w) == Todo(s, w);
  }

  lemma MergeInside(c: Setup, s: State)
    requires c.Valid() && LedgerInv(c, s) && s.phase == Draining && s.retired in s.pending
    requires (s.retired + 1) % c.PerGeneration() != 0 && Uniform(c, Merge(s).merged)
    ensures LedgerInv(c, Merge(s))
  {
    var last := s.pending[s.retired];
    assert last == Merge(s).merged[s.retired];
    TallyInside(c, s.merged, last, s.feedback, s.accepted, s.start, s.batches);
    LearnedStays(c, s.history, s.merged, last);
  }

  /** The feedback count is always that of a whole generation. */
  lemma HandOverKeeps(c: Setup, s: State, g: nat)
    requires c.Valid() && LedgerInv(c, s) && s.retired in s.pending && Uniform(c, Merge(s).merged)
    requires (s.retired + 1) % c.PerGeneration() == 0 && g == s.retired / c.PerGeneration()
    ensures c.feedback ==> |Merge(s).feedback| == c.generationSize
    ensures var t := HandOver(c, Merge(s));
      t.feedback == [] && t.accepted == g * c.generationSize + c.generationSize && LearnedInv(c, t.history, t.merged)
  {
    var last := s.pending[s.retired];
    var first := g * c.PerGeneration();
    assert last == Merge(s).merged[s.retired];
    EndOfBlock(s.retired, c.PerGeneration());
    GenerationFeedback(c, s.merged, first, last, s.feedback);
    LearnedGrows(c, s.history, s.merged, last, first);
  }

  /** So is the sample count. */
  lemma ReadClockKeeps(c: Setup, s: State, g: nat, late: bool)
    requires c.Valid() && Uniform(c, s.merged) && s.phase == Draining
    requires |s.merged| == g * c.PerGeneration() + c.PerGeneration() && |s.merged| / c.PerGeneration() == g + 1
    requires |s.merged| % c.PerGeneration() == 0
    requires s.feedback == [] && s.accepted == g * c.generationSize + c.generationSize
    requires s.start == if g == 0 then None else Some(c.generationSize)
    requires s.batches == |s.merged| - if g == 0 then 0 else c.PerGeneration()
    ensures var t := ReadClock(s, late);
      TallyInv(c, t.merged, t.feedback, t.accepted, t.start, t.batches) && EndInv(c, t.phase, t.merged, t.accepted, t.batches)
  {
    BoundaryTally(c, s.merged, g);
    if s.start.None? {
      assert g == 0 && s.accepted == c.generationSize && |s.merged| == c.PerGeneration();
    } else if late {
      DeadlineCounts(c, s, g);
      StopOnBoundary(c, s.merged, g);
    }
  }

  /** At the deadline the counts agree, and what is reported leaves the first generation out. */
  lemma DeadlineCounts(c: Setup, s: State, g: nat)
    requires c.Valid() && Uniform(c, s.merged) && s.start == Some(c.generationSize)
    requires |s.merged| == g * c.PerGeneration() + c.PerGeneration()
    requires s.accepted == g * c.generationSize + c.generationSize
    ensures ReadClock(s, true) == s.(phase := Stopped(g * c.generationSize))
  {
    UniformTotals(c, s.merged);
    EndTally(c, g, |s.merged|);
  }

  /** The clock runs from the end of the first generation. */
  lemma BoundaryTally(c: Setup, merged: seq<Outcome>, g: nat)
    requires c.Valid() && |merged| == g * c.PerGeneration() + c.PerGeneration() && |merged| / c.PerGeneration() == g + 1
    ensures TallyInv(c, merged, [], g * c.generationSize + c.generationSize, Some(c.generationSize), |merged| - c.PerGeneration())
  {
    var n := c.PerGeneration();
    EndTally(c, g, |merged|);
    assert (g + 1) * n == |merged|;
    assert merged[|merged|..] == [] && Gather([]) == [];
  }

  lemma StopOnBoundary(c: Setup, merged: seq<Outcome>, g: nat)
    requires c.Valid() && |merged| == g * c.PerGeneration() + c.PerGeneration() && |merged| % c.PerGeneration() == 0 && g >= 1
    ensures EndInv(c, Stopped(g * c.generationSize), merged, g * c.generationSize + c.generationSize, |merged| - c.PerGeneration())
  {
    EndTally(c, g, |merged|);
  }

  lemma EndTally(c: Setup, g: nat, retired: nat)
    requires c.Valid() && retired == g * c.PerGeneration() + c.PerGeneration()
    ensures retired * c.batchSize == (g + 1) * c.generationSize
    ensures g * c.generationSize + c.generationSize == (g + 1) * c.generationSize
    ensures g >= 1 ==> retired >= 2 * c.PerGeneration()
    ensures (retired - c.PerGeneration()) * c.batchSize == g * c.generationSize
  {
    c.GenerationIsWhole();
    assert retired - c.PerGeneration() == g * c.PerGeneration();
    assert (g + 1) * c.PerGeneration() * c.batchSize == (g + 1) * (c.PerGeneration() * c.batchSize);
    assert g * c.PerGeneration() * c.batchSize == g * (c.PerGeneration() * c.batchSize);
    ProductSteps(c.PerGeneration(), g);
  }

  lemma ClockBefore(c: Setup, s: State, g: nat)
    requires c.Valid() && LedgerInv(c, s) && s.retired in s.pending && g == s.retired / c.PerGeneration()
    ensures var t := HandOver(c, Merge(s));
      && t.start == (if g == 0 then None else Some(c.generationSize))
      && t.batches == |t.merged| - (if g == 0 then 0 else c.PerGeneration())
  {}

  lemma MergeAtEnd(c: Setup, s: State, late: bool)
    requires c.Valid() && LedgerInv(c, s) && s.phase == Draining && s.retired in s.pending
    requires (s.retired + 1) % c.PerGeneration() == 0 && Uniform(c, Merge(s).merged)
    ensures EndGeneration(c, Merge(s), late) == ReadClock(HandOver(c, Merge(s)), late)
    ensures LedgerInv(c, ReadClock(HandOver(c, Merge(s)), late))
  {
    var g := s.retired / c.PerGeneration();
    HandOverKeeps(c, s, g);
    ClockBefore(c, s, g);
    EndOfBlock(s.retired, c.PerGeneration());
    MergeCounts(c, s);
    LedgerAfterClock(c, HandOver(c, Merge(s)), g, late);
  }

  lemma MergeCounts(c: Setup, s: State)
    requires c.Valid() && LedgerInv(c, s) && s.retired in s.pending
    ensures var t := HandOver(c, Merge(s));
      |t.merged| == t.retired == s.retired + 1 && t.merged == Merge(s).merged && t.phase == s.phase
  {}

  lemma LedgerAfterClock(c: Setup, s: State, g: nat, late: bool)
    requires c.Valid() && Uniform(c, s.merged) && s.phase == Draining && |s.merged| == s.retired
    requires |s.merged| == g * c.PerGeneration() + c.PerGeneration() && |s.merged| / c.PerGeneration() == g + 1
    requires |s.merged| % c.PerGeneration() == 0 && LearnedInv(c, s.history, s.merged)
    requires s.feedback == [] && s.accepted == g * c.generationSize + c.generationSize
    requires s.start == if g == 0 then None else Some(c.generationSize)
    requires s.batches == |s.merged| - if g == 0 then 0 else c.PerGeneration()
    ensures LedgerInv(c, ReadClock(s, late))
  {
    ReadClockKeeps(c, s, g, late);
  }

  lemma RetireInside(c: Setup, s: State, late: bool)
    requires c.Valid() && Inv(c, s) && s.phase == Draining && s.retired in s.pending
    requires (s.retired + 1) % c.PerGeneration() != 0
    ensures Inv(c, Merge(s))
  {
    RetireKeepsContent(c, s);
    MergedIsUniform(c, Merge(s));
    MergeInside(c, s);
    RetireKeepsFlow(c, s, Merge(s));
  }

  lemma RetireAtEnd(c: Setup, s: State, late: bool)
    requires c.Valid() && Inv(c, s) && s.phase == Draining && s.retired in s.pending
    requires (s.retired + 1) % c.PerGeneration() == 0
    ensures Inv(c, EndGeneration(c, Merge(s), late))
  {
    RetireKeepsContent(c, s);
    MergedIsUniform(c, Merge(s));
    MergeAtEnd(c, s, late);
    EndKeepsContent(c, Merge(s), late);
    EndKeepsFlow(c, s, late);
  }

  lemma RetireKeepsInv(c: Setup, s: State, late: bool)
    requires c.Valid() && Inv(c, s) && s.phase == Draining && s.retired in s.pending
    ensures Inv(c, if (s.retired + 1) % c.PerGeneration() != 0 then Merge(s) else EndGeneration(c, Merge(s), late))
  {
    if (s.retired + 1) % c.PerGeneration() != 0 {
      RetireInside(c, s, late);
    } else {
      RetireAtEnd(c, s, late);
    }
  }

  lemma EndKeepsContent(c: Setup, s: State, late: bool)
    requires c.Valid() && |s.queues| == |s.running| == c.workers && ContentInv(c, s)
    ensures ContentInv(c, ReadClock(HandOver(c, s), late))
  {
    var t := ReadClock(HandOver(c, s), late);
    DrawnAfter(c, s.history, Learn(s.feedback));
    EndFrame(c, s, late);
    assert t.drawn == Drawn(c, t.history);
    assert forall w :: 0 <= w < c.workers ==> Todo(t, w) == Todo(s, w);
    SameTodoSameWork(c, s, t);
  }

  /** The end of a generation touches neither batches nor results. */
  lemma EndFrame(c: Setup, s: State, late: bool)
    ensures var t := ReadClock(HandOver(c, s), late);
      && t.drawn == s.drawn && t.cursor == s.cursor && t.sent == s.sent && t.queues == s.queues && t.running == s.running
      && t.completed == s.completed && t.pending == s.pending && t.merged == s.merged
      && t.history == if c.feedback then s.history + [Learn(s.feedback)] else s.history
  {}

  lemma EndKeepsFlow(c: Setup, s: State, late: bool)
    requires 1 <= c.workers == |s.queues| == |s.running| && FlowInv(c, s) && s.phase == Draining && s.retired in s.pending
    ensures var t := ReadClock(HandOver(c, Merge(s)), late); Live(t) ==> FlowInv(c, t)
  {
    var t := ReadClock(HandOver(c, Merge(s)), late);
    if Live(t) {
      RetireKeepsFlow(c, s, t);
    }
  }

  lemma InvShaped(c: Setup, s: State)
    requires c.Valid() && Inv(c, s)
    ensures Shaped(c, s)
  {
    if s.cursor != c.generationSize {
      DrawnIsShaped(c, s.drawn, s.cursor, s.sent);
    }
  }

  lemma StepKeepsInv(c: Setup, s: State, step: Step)
    requires c.Valid() && Inv(c, s) && Shaped(c, s) && Enabled(c, s, step)
    ensures Inv(c, Next(c, s, step))
  {
    match step
    case Send => SendKeepsInv(c, s);
    case Take(w) => TakeKeepsInv(c, s, w);
    case Finish(w) => FinishKeepsInv(c, s, w);
    case Receive => ReceiveKeepsInv(c, s);
    case Retire(late) => RetireKeepsInv(c, s, late);
    case Resume => ResumeKeepsInv(c, s);
  }

  lemma InitialInv(c: Setup)
    requires c.Valid()
    ensures Inv(c, Initial(c))
  {
    var s := Initial(c);
    assert forall w :: 0 <= w < c.workers ==> Todo(s, w) == [];
    assert 0 / c.PerGeneration() == 0 && 0 % c.PerGeneration() == 0;
  }
}
