/** Appending to a stored queue against validating the whole queue. */
module TaskAppend {
  import opened Basics
  import opened TaskContext
  import opened TaskQueue

  /** The same context, but for which evaluators are known to fit the domain, and for the
      number of the next task. */
  predicate Alike(a: State, b: State) {
    a.(validated := [], next := 0) == b.(validated := [], next := 0)
  }

  /** The number of a task matters only for the name of one that has none. */
  predicate SameName(a: State, b: State, input: Input) {
    a.next == b.next || input.name.Some?
  }

  predicate SameNameAll(a: State, b: State, inputs: seq<Input>) {
    a.next == b.next || forall i :: 0 <= i < |inputs| ==> inputs[i].name.Some?
  }

  /** Only evaluators that fit are remembered. */
  predicate CacheSound(r: Rules, s: State) {
    forall i :: 0 <= i < |s.validated| ==> r.domainOf(s.validated[i]) == Some(s.domain)
  }

  // What the configurations in force depend on

  /** The same as far as later configurations can tell. */
  predicate SameStages(a: State, b: State) {
    && a.accumulators == b.accumulators && a.evaluators == b.evaluators && a.samplings == b.samplings
    && a.accumulator == b.accumulator && a.evaluator == b.evaluator && a.sampling == b.sampling
    && a.havana == b.havana && a.domain == b.domain
  }

  lemma EvaluatorAlike(a: State, b: State, task: Task)
    requires SameStages(a, b)
    ensures EvaluatorFor(a, task) == EvaluatorFor(b, task) && AccumulatorFor(a, task) == AccumulatorFor(b, task)
  {}

  lemma SamplingAlike(a: State, b: State, name: string, sampling: Option<Sampling>)
    requires SameStages(a, b)
    ensures SameStages(NoteSampling(a, name, sampling), NoteSampling(b, name, sampling))
  {}

  lemma KeptAlike(a: State, b: State, name: string, effective: Effective)
    requires SameStages(a, b)
    ensures SameStages(Kept(a, name, effective), Kept(b, name, effective))
  {}

  lemma NotedAlike(a: State, b: State, name: string, effective: Effective, sampling: Option<Sampling>)
    requires SameStages(a, b)
    ensures SameStages(Kept(NoteSampling(a, name, sampling), name, effective), Kept(NoteSampling(b, name, sampling), name, effective))
  {
    SamplingAlike(a, b, name, sampling);
    KeptAlike(NoteSampling(a, name, sampling), NoteSampling(b, name, sampling), name, effective);
  }

  lemma KeptFrame(s: State, name: string, effective: Effective, sampling: Option<Sampling>)
    ensures var t := Kept(NoteSampling(s, name, sampling), name, effective);
      && t.knownNames == s.knownNames && t.sourceable == s.sourceable + {name} && t.next == s.next + 1
      && t.validated == s.validated && t.domain == s.domain
  {}

  /** The cache never changes a verdict, nor what later tasks see. */
  lemma CacheIsInvisible(r: Rules, a: State, b: State, input: Input)
    requires Alike(a, b) && CacheSound(r, a) && CacheSound(r, b) && SameName(a, b, input)
    ensures Validated(r, a, input).Some? == Validated(r, b, input).Some?
    ensures Validated(r, a, input).Some? ==>
      var x, y := Validated(r, a, input).value, Validated(r, b, input).value;
      Alike(x, y) && CacheSound(r, x) && CacheSound(r, y) && x.next == a.next + 1 && y.next == b.next + 1
  {
    ResolvedAlike(r, a, b, input);
    var resolved, name := Resolved(r, a, input), NameOf(input, a.next);
    if resolved.Some? {
      var effective := resolved.value;
      var x, y := Admitted(a, name, effective.evaluator), Admitted(b, name, effective.evaluator);
      AdmittedAlike(r, a, b, name, effective.evaluator);
      SamplingIgnoresEvaluator(r, x, y, input.task, effective.accumulator);
      var sampling := SamplingFor(r, x, input.task, effective.accumulator);
      if sampling.Some? {
        NotedAlike(x, y, name, effective, sampling.value);
        KeptFrame(x, name, effective, sampling.value);
        KeptFrame(y, name, effective, sampling.value);
      }
    }
  }

  lemma AdmittedAlike(r: Rules, a: State, b: State, name: string, evaluator: Option<Evaluator>)
    requires Alike(a, b) && CacheSound(r, a) && CacheSound(r, b)
    requires evaluator.Some? ==> r.domainOf(evaluator.value) == Some(a.domain)
    ensures var x, y := Admitted(a, name, evaluator), Admitted(b, name, evaluator);
      Alike(x, y) && SameStages(x, y) && CacheSound(r, x) && CacheSound(r, y)
  {}

  lemma ResolvedAlike(r: Rules, a: State, b: State, input: Input)
    requires Alike(a, b) && CacheSound(r, a) && CacheSound(r, b) && SameName(a, b, input)
    ensures Resolved(r, a, input) == Resolved(r, b, input)
    ensures Resolved(r, a, input).Some? && Resolved(r, a, input).value.evaluator.Some? ==>
      r.domainOf(Resolved(r, a, input).value.evaluator.value) == Some(a.domain)
  {
    EvaluatorAlike(a, b, input.task);
  }

  lemma {:induction false} CacheIsInvisibleAll(r: Rules, a: State, b: State, inputs: seq<Input>)
    requires Alike(a, b) && CacheSound(r, a) && CacheSound(r, b) && SameNameAll(a, b, inputs)
    ensures ValidatedAll(r, a, inputs).Some? == ValidatedAll(r, b, inputs).Some?
    ensures ValidatedAll(r, a, inputs).Some? ==>
      var x, y := ValidatedAll(r, a, inputs).value, ValidatedAll(r, b, inputs).value;
      Alike(x, y) && CacheSound(r, x) && CacheSound(r, y) && (a.next == b.next ==> x.next == y.next)
  {
    if inputs != [] {
      CacheIsInvisibleAll(r, a, b, inputs[..|inputs| - 1]);
      var x, y := ValidatedAll(r, a, inputs[..|inputs| - 1]), ValidatedAll(r, b, inputs[..|inputs| - 1]);
      if x.Some? {
        CacheIsInvisible(r, x.value, y.value, inputs[|inputs| - 1]);
      }
    }
  }

  // Recording what was validated

  /** How the queue stores validated tasks: under the names they were validated with, and
      under any numbers, since removals leave gaps. */
  predicate StoredAs(tasks: seq<Stored>, inputs: seq<Input>) {
    |tasks| == |inputs| &&
    forall i :: 0 <= i < |tasks| ==> tasks[i].task == inputs[i].task && tasks[i].name == NameOf(inputs[i], i + 1)
  }

  /** Only what stages configure changes. */
  predicate SameNames(a: State, b: State) {
    a.knownNames == b.knownNames && a.sourceable == b.sourceable && a.next == b.next && a.validated == b.validated
  }

  /** Recording a task leaves what validating it left. */
  lemma RecordingFollows(r: Rules, a: State, b: State, input: Input, stored: Stored)
    requires SameStages(a, b) && Validated(r, a, input).Some?
    requires stored.name == NameOf(input, a.next) && stored.task == input.task
    ensures Recorded(r, b, stored).Some? && SameNames(Recorded(r, b, stored).value, b)
    ensures SameStages(Validated(r, a, input).value, Recorded(r, b, stored).value)
    ensures var t := Validated(r, a, input).value;
      t.next == a.next + 1 && t.knownNames == a.knownNames + {stored.name} && t.sourceable == a.sourceable + {stored.name}
  {
    var effective := Resolved(r, a, input).value;
    var admitted := Admitted(a, stored.name, effective.evaluator);
    EvaluatorAlike(a, b, stored.task);
    var later := NoteEvaluator(b, stored.name, effective.evaluator);
    assert AccumulatorFor(later, stored.task) == AccumulatorFor(b, stored.task);
    SamplingIgnoresEvaluator(r, admitted, later, stored.task, effective.accumulator);
    var sampling := SamplingFor(r, admitted, stored.task, effective.accumulator).value;
    KeptFrame(admitted, stored.name, effective, sampling);
    NotedSoon(admitted, b, stored.name, effective, sampling);
  }

  lemma SamplingIgnoresEvaluator(r: Rules, a: State, b: State, task: Task, accumulator: Option<Accumulator>)
    requires a.samplings == b.samplings && a.sampling == b.sampling && a.havana == b.havana && a.domain == b.domain
    ensures SamplingFor(r, a, task, accumulator) == SamplingFor(r, b, task, accumulator)
  {
    if task.Sample? {
      assert AskedSampling(a, task.sampler) == AskedSampling(b, task.sampler);
    }
  }

  /** The order in which a task's configurations are noted does not matter. */
  lemma NotedSoon(a: State, b: State, name: string, effective: Effective, sampling: Option<Sampling>)
    requires SameStages(a, b)
    ensures var t := NoteAccumulator(NoteSampling(NoteEvaluator(b, name, effective.evaluator), name, sampling), name,
                                     effective.accumulator);
      SameStages(Kept(NoteSampling(a, name, sampling), name, effective), t) && SameNames(t, b)
  {}

  lemma {:induction false} RecordingFollowsAll(r: Rules, a: State, b: State, inputs: seq<Input>, tasks: seq<Stored>)
    requires SameStages(a, b) && a.next == 1 && ValidatedAll(r, a, inputs).Some? && StoredAs(tasks, inputs)
    ensures ValidatedAll(r, a, inputs).value.next == |inputs| + 1
    ensures ValidatedAll(r, a, inputs).value.knownNames == a.knownNames + NamesOf(tasks)
    ensures ValidatedAll(r, a, inputs).value.sourceable == a.sourceable + NamesOf(tasks)
    ensures RecordedAll(r, b, tasks).Some? && SameNames(RecordedAll(r, b, tasks).value, b)
    ensures SameStages(ValidatedAll(r, a, inputs).value, RecordedAll(r, b, tasks).value)
  {
    if inputs != [] {
      var n := |inputs| - 1;
      RecordingFollowsAll(r, a, b, inputs[..n], tasks[..n]);
      RecordingFollows(r, ValidatedAll(r, a, inputs[..n]).value, RecordedAll(r, b, tasks[..n]).value, inputs[n], tasks[n]);
      NamesOfAll(tasks);
    } else {
      assert NamesOf([]) == {};
    }
  }

  lemma NamesOfAll(tasks: seq<Stored>)
    requires tasks != []
    ensures NamesOf(tasks) == NamesOf(tasks[..|tasks| - 1]) + {tasks[|tasks| - 1].name}
  {
    assert tasks == tasks[..|tasks| - 1] + [tasks[|tasks| - 1]];
    NamesAfter(tasks[..|tasks| - 1], tasks[|tasks| - 1]);
  }

  lemma NamesAfter(tasks: seq<Stored>, task: Stored)
    ensures NamesOf(tasks + [task]) == NamesOf(tasks) + {task.name}
  {
    var all := tasks + [task];
    assert all[|tasks|] == task;
    forall name | name in NamesOf(tasks) ensures name in NamesOf(all) {
      var i :| 0 <= i < |tasks| && tasks[i].name == name;
      assert all[i] == tasks[i];
    }
  }

  lemma {:induction false} ValidatedAppend(r: Rules, s: State, a: seq<Input>, b: seq<Input>)
    ensures ValidatedAll(r, s, a + b) ==
      if ValidatedAll(r, s, a).None? then None else ValidatedAll(r, ValidatedAll(r, s, a).value, b)
    decreases |b|
  {
    if b == [] {
      assert a + b == a;
    } else {
      assert (a + b)[..|a + b| - 1] == a + b[..|b| - 1];
      ValidatedAppend(r, s, a, b[..|b| - 1]);
    }
  }

  lemma {:induction false} CacheStaysSound(r: Rules, s: State, inputs: seq<Input>)
    requires CacheSound(r, s) && ValidatedAll(r, s, inputs).Some?
    ensures CacheSound(r, ValidatedAll(r, s, inputs).value)
  {
    CacheIsInvisibleAll(r, s, s, inputs);
  }

  /** The context rebuilt from an accepted and stored queue is the one validating it left. */
  lemma RebuiltContext(r: Rules, inputs: seq<Input>, tasks: seq<Stored>, evaluator: Option<Evaluator>, domain: Domain)
    requires ValidatedAll(r, Blank([], evaluator, domain), inputs).Some? && StoredAs(tasks, inputs)
    ensures ContextOf(r, tasks, evaluator, domain).Some?
    ensures var rebuilt := ContextOf(r, tasks, evaluator, domain).value;
      var left := ValidatedAll(r, Blank([], evaluator, domain), inputs).value;
      Alike(rebuilt, left) && rebuilt.next == LastSequence(tasks) + 1 && left.next == |tasks| + 1 && rebuilt.validated == []
  {
    assert NamesOf([]) == {};
    RecordingFollowsAll(r, Blank([], evaluator, domain), Blank(tasks, evaluator, domain), inputs, tasks);
  }

  /** Appending to an accepted queue is accepted exactly when the longer queue as a whole is:
      for named tasks whatever the stored numbers are, for all tasks if they have no gap. */
  lemma AppendAgreesWithWhole(r: Rules, before: seq<Input>, tasks: seq<Stored>, added: seq<Input>,
                              evaluator: Option<Evaluator>, domain: Domain)
    requires ValidatedAll(r, Blank([], evaluator, domain), before).Some? && StoredAs(tasks, before)
    requires LastSequence(tasks) == |tasks| || forall i :: 0 <= i < |added| ==> added[i].name.Some?
    ensures ContextOf(r, tasks, evaluator, domain).Some?
    ensures ValidatedAll(r, ContextOf(r, tasks, evaluator, domain).value, added).Some? <==>
      ValidatedAll(r, Blank([], evaluator, domain), before + added).Some?
  {
    var start := Blank([], evaluator, domain);
    RebuiltContext(r, before, tasks, evaluator, domain);
    CacheStaysSound(r, start, before);
    ValidatedAppend(r, start, before, added);
    CacheIsInvisibleAll(r, ContextOf(r, tasks, evaluator, domain).value, ValidatedAll(r, start, before).value, added);
  }

  // A new run

  /** A run's own evaluator establishes its domain, or else the first one a task configures. */
  function Establishing(evaluator: Option<Evaluator>, inputs: seq<Input>): Option<Evaluator>
    decreases |inputs|
  {
    if evaluator.Some? || inputs == [] then evaluator
    else Establishing(OwnEvaluator(inputs[0].task), inputs[1..])
  }

  /** Nothing if that evaluator's domain cannot be found; `none` if there is no evaluator. */
  function NewDomain(r: Rules, none: Domain, evaluator: Option<Evaluator>, inputs: seq<Input>): Option<Domain> {
    var establishing := Establishing(evaluator, inputs);
    if establishing.None? then Some(none) else r.domainOf(establishing.value)
  }

  method EstablishDomain(r: Rules, none: Domain, evaluator: Option<Evaluator>, inputs: seq<Input>) returns (domain: Option<Domain>)
    ensures domain == NewDomain(r, none, evaluator, inputs)
  {
    var establishing := evaluator;
    var i := 0;
    while establishing.None? && i < |inputs|
      invariant i <= |inputs| && Establishing(establishing, inputs[i..]) == Establishing(evaluator, inputs)
    {
      establishing := OwnEvaluator(inputs[i].task);
      i := i + 1;
    }
    domain := if establishing.None? then Some(none) else r.domainOf(establishing.value);
  }

  /** The run's own evaluator is remembered without being checked. */
  function Seeded(evaluator: Option<Evaluator>, domain: Domain): State {
    Remembered(Blank([], evaluator, domain), evaluator)
  }

  /** It needs no check: the domain is its own. */
  lemma SeedIsHarmless(r: Rules, none: Domain, evaluator: Option<Evaluator>, inputs: seq<Input>, domain: Domain)
    requires NewDomain(r, none, evaluator, inputs) == Some(domain)
    ensures ValidatedAll(r, Seeded(evaluator, domain), inputs).Some? <==>
      ValidatedAll(r, Blank([], evaluator, domain), inputs).Some?
  {
    CacheIsInvisibleAll(r, Seeded(evaluator, domain), Blank([], evaluator, domain), inputs);
  }

  /** Preflight of a new run: accepted exactly when its domain is established and its queue
      as a whole is valid for that domain. */
  method Preflight(r: Rules, none: Domain, evaluator: Option<Evaluator>, inputs: seq<Input>) returns (domain: Option<Domain>)
    ensures domain.Some? ==>
      domain == NewDomain(r, none, evaluator, inputs) &&
      ValidatedAll(r, Blank([], evaluator, domain.value), inputs).Some?
    ensures domain.None? ==>
      forall d :: NewDomain(r, none, evaluator, inputs) == Some(d) ==>
        ValidatedAll(r, Blank([], evaluator, d), inputs).None?
  {
    var established := EstablishDomain(r, none, evaluator, inputs);
    if established.None? {
      return None;
    }
    var context := new Context(r, [], evaluator, established.value);
    context.Remember(evaluator);
    assert context.Now() == Seeded(evaluator, established.value);
    var ok := context.ValidateBatch(inputs);
    SeedIsHarmless(r, none, evaluator, inputs, established.value);
    domain := if ok then established else None;
  }
}
