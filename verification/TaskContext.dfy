/** The context as the code keeps it: updated in place, task by task. */
module TaskContext {
  import opened Basics
  import opened TaskQueue

  class Context {
    const rules: Rules
    const domain: Domain
    var knownNames: set<string>
    var sourceable: set<string>
    var accumulators: map<string, Accumulator>
    var evaluators: map<string, Evaluator>
    var samplings: map<string, Sampling>
    var accumulator: Option<Accumulator>
    var evaluator: Option<Evaluator>
    var sampling: Option<Sampling>
    var havana: Option<Sampling>
    var next: nat
    var validated: seq<Evaluator>

    ghost function Now(): State
      reads this
    {
      State(knownNames, sourceable, accumulators, evaluators, samplings, accumulator, evaluator, sampling, havana, next, domain,
            validated)
    }

    /** No stored tasks yet: names and numbering are all that is known of them. */
    constructor (rules: Rules, tasks: seq<Stored>, evaluator: Option<Evaluator>, domain: Domain)
      ensures this.rules == rules && this.domain == domain && Now() == Blank(tasks, evaluator, domain)
    {
      this.rules, this.domain := rules, domain;
      knownNames, sourceable := NamesOf(tasks), NamesOf(tasks);
      accumulators, evaluators, samplings := map[], map[], map[];
      accumulator, sampling, havana := None, None, None;
      this.evaluator := evaluator;
      next := LastSequence(tasks) + 1;
      validated := [];
    }

    method RecordExistingTasks(tasks: seq<Stored>) returns (ok: bool)
      modifies this
      ensures ok <==> RecordedAll(rules, old(Now()), tasks).Some?
      ensures ok ==> Now() == RecordedAll(rules, old(Now()), tasks).value
    {
      for i := 0 to |tasks|
        invariant RecordedAll(rules, old(Now()), tasks[..i]) == Some(Now())
      {
        assert tasks[..i + 1][..i] == tasks[..i];
        ok := RecordExistingTask(tasks[i]);
        if !ok {
          RecordingStops(rules, old(Now()), tasks, i + 1);
          return false;
        }
      }
      assert tasks[..|tasks|] == tasks;
      return true;
    }

    method RecordExistingTask(task: Stored) returns (ok: bool)
      modifies this
      ensures ok <==> Recorded(rules, old(Now()), task).Some?
      ensures ok ==> Now() == Recorded(rules, old(Now()), task).value
    {
      if OnWorker(task.task) {
        var effective := ResolveEvaluator(task.task);
        if effective.None? {
          return false;
        }
        evaluators := evaluators[task.name := effective.value];
        evaluator := effective;
      }
      var config := ResolveAccumulator(task.task);
      if config.None? {
        return false;
      }
      ok := ValidateSampling(task.task, task.name, config.value);
      if ok && config.value.Some? {
        accumulators := accumulators[task.name := config.value.value];
        accumulator := config.value;
      }
    }

    method ValidateBatch(inputs: seq<Input>) returns (ok: bool)
      modifies this
      ensures ok <==> ValidatedAll(rules, old(Now()), inputs).Some?
      ensures ok ==> Now() == ValidatedAll(rules, old(Now()), inputs).value
    {
      for i := 0 to |inputs|
        invariant ValidatedAll(rules, old(Now()), inputs[..i]) == Some(Now())
      {
        assert inputs[..i + 1][..i] == inputs[..i];
        ok := ValidateTask(inputs[i]);
        if !ok {
          ValidatingStops(rules, old(Now()), inputs, i + 1);
          return false;
        }
      }
      assert inputs[..|inputs|] == inputs;
      return true;
    }

    method ValidateTask(input: Input) returns (ok: bool)
      modifies this
      ensures ok <==> Validated(rules, old(Now()), input).Some?
      ensures ok ==> Now() == Validated(rules, old(Now()), input).value
    {
      var name := NameOf(input, next);
      var effective := Resolve(input);
      if effective.None? {
        return false;
      }
      ok := ValidateSampling(input.task, name, effective.value.accumulator);
      if ok {
        Keep(name, effective.value);
      }
    }

    /** Everything that is checked before the sampling. */
    method Resolve(input: Input) returns (effective: Option<Effective>)
      modifies this`knownNames, this`validated
      ensures effective == Resolved(rules, old(Now()), input)
      ensures effective.Some? ==> Now() == Admitted(old(Now()), NameOf(input, old(next)), effective.value.evaluator)
    {
      var task, name := input.task, NameOf(input, next);
      if !rules.valid(input) || !KnowsSources(task) || name in knownNames {
        return None;
      }
      var config := ResolveAccumulator(task);
      var evaluator: Option<Evaluator> := if OnWorker(task) then ResolveEvaluator(task) else None;
      if config.None? || (OnWorker(task) && evaluator.None?) {
        return None;
      }
      if evaluator.Some? {
        var fits := ValidateEvaluatorDomain(evaluator.value);
        if !fits {
          return None;
        }
      }
      if config.value.Some? && !FitsEvaluator(task, config.value.value, evaluator) {
        return None;
      }
      knownNames := knownNames + {name};
      return Some(Effective(evaluator, config.value));
    }

    /** What an accepted task leaves for those after it. */
    method Keep(name: string, effective: Effective)
      modifies this
      ensures Now() == Kept(old(Now()), name, effective)
    {
      sourceable := sourceable + {name};
      if effective.evaluator.Some? {
        evaluators := evaluators[name := effective.evaluator.value];
        evaluator := effective.evaluator;
      }
      if effective.accumulator.Some? {
        accumulators := accumulators[name := effective.accumulator.value];
        accumulator := effective.accumulator;
      }
      next := next + 1;
    }

    /** The configuration a sample task ends up with is what later tasks refer to. */
    method ValidateSampling(task: Task, name: string, accumulator: Option<Accumulator>) returns (ok: bool)
      modifies this`samplings, this`sampling, this`havana
      ensures ok <==> SamplingFor(rules, old(Now()), task, accumulator).Some?
      ensures ok ==> Now() == NoteSampling(old(Now()), name, SamplingFor(rules, old(Now()), task, accumulator).value)
    {
      if !task.Sample? {
        return true;
      }
      var asked := AskSampling(task.sampler);
      if asked.None? {
        return false;
      }
      var config := asked.value;
      if config.Some? {
        if task.sampler.Some? && task.sampler.value.Config? && config.value.kind == HavanaInference &&
           config.value.partition.None? {
          config := Some(config.value.(partition := if havana.Some? then havana.value.partition else None));
        }
        if config.value.partition.Some? {
          if accumulator.None? || !rules.partitions(config.value.partition.value, accumulator.value) ||
             !rules.sampleable(config.value, domain) {
            return false;
          }
        }
      }
      if task.stratified {
        if config.None? || config.value.partition.None? || task.sampleAccumulator.None? || !task.sampleAccumulator.value.Config? ||
           (accumulator.Some? && rules.projects(accumulator.value)) {
          return false;
        }
      }
      if config.Some? {
        if config.value.kind != OtherSampler {
          havana := config;
        }
        samplings := samplings[name := config.value];
        sampling := config;
      }
      return true;
    }

    function AskSampling(sampler: Option<Source<Sampling>>): (r: Option<Option<Sampling>>)
      reads this
      ensures r == AskedSampling(Now(), sampler)
    {
      match sampler
      case Some(Config(own)) => Some(Some(own))
      case Some(FromStage(own, stage)) =>
        if stage !in samplings then None
        else if own.partition.Some? && own.partition != samplings[stage].partition then None
        else Some(Some(own.(partition := samplings[stage].partition)))
      case Some(FromName(source)) => Some(Find(samplings, source))
      case _ => Some(sampling)
    }

    method ValidateEvaluatorDomain(effective: Evaluator) returns (ok: bool)
      modifies this`validated
      ensures ok <==> DomainFits(rules, old(Now()), effective)
      ensures ok ==> Now() == Cached(old(Now()), effective)
    {
      if effective in validated {
        return true;
      }
      if rules.domainOf(effective) != Some(domain) {
        return false;
      }
      validated := validated + [effective];
      return true;
    }

    /** For an evaluator whose domain has just been established. */
    method Remember(known: Option<Evaluator>)
      modifies this`validated
      ensures Now() == Remembered(old(Now()), known)
    {
      if known.Some? {
        validated := validated + [known.value];
      }
    }

    function KnowsSources(task: Task): bool
      reads this
      ensures KnowsSources(task) == SourcesKnown(Now(), task)
    {
      && Knows(SamplerReference(task)) && Knows(EvaluatorReference(task)) && Knows(SampleAccumulatorReference(task))
    }

    function Knows(reference: Option<Reference>): bool
      reads this
    {
      reference.Some? && reference.value.Named? ==> reference.value.name in sourceable
    }

    function ResolveEvaluator(task: Task): (r: Option<Evaluator>)
      reads this
      ensures r == EvaluatorFor(Now(), task)
    {
      if OwnEvaluator(task).Some? then OwnEvaluator(task)
      else
        match EvaluatorReference(task)
        case Some(Named(name)) => Find(evaluators, name)
        case _ => evaluator
    }

    function ResolveAccumulator(task: Task): (r: Option<Option<Accumulator>>)
      reads this
      ensures r == AccumulatorFor(Now(), task)
    {
      if OwnAccumulator(task).Some? then Some(OwnAccumulator(task))
      else
        match AccumulatorReference(task)
        case None => Some(None)
        case Some(Current) => if accumulator.None? then None else Some(accumulator)
        case Some(Named(name)) => if name in accumulators then Some(Some(accumulators[name])) else None
    }

    function FitsEvaluator(task: Task, config: Accumulator, effective: Option<Evaluator>): (fits: bool)
      reads this
      ensures fits == AccumulatorFits(rules, Now(), task, config, effective)
    {
      if task.Control? then true
      else if task.SetAccumulator? then evaluator.Some? ==> rules.compatible(evaluator.value, config)
      else effective.Some? && rules.compatible(effective.value, config)
    }
  }

  lemma {:induction false} RecordingStops(r: Rules, s: State, tasks: seq<Stored>, n: nat)
    requires n <= |tasks| && RecordedAll(r, s, tasks[..n]).None?
    ensures RecordedAll(r, s, tasks).None?
    decreases |tasks|
  {
    if n == |tasks| {
      assert tasks[..n] == tasks;
    } else {
      assert tasks[..|tasks| - 1][..n] == tasks[..n];
      RecordingStops(r, s, tasks[..|tasks| - 1], n);
    }
  }

  lemma {:induction false} ValidatingStops(r: Rules, s: State, inputs: seq<Input>, n: nat)
    requires n <= |inputs| && ValidatedAll(r, s, inputs[..n]).None?
    ensures ValidatedAll(r, s, inputs).None?
    decreases |inputs|
  {
    if n == |inputs| {
      assert inputs[..n] == inputs;
    } else {
      assert inputs[..|inputs| - 1][..n] == inputs[..n];
      ValidatingStops(r, s, inputs[..|inputs| - 1], n);
    }
  }

  /** Appending to a stored queue. */
  method Append(rules: Rules, tasks: seq<Stored>, evaluator: Option<Evaluator>, domain: Domain, inputs: seq<Input>)
    returns (ok: bool)
    ensures ok <==> (var s := ContextOf(rules, tasks, evaluator, domain); s.Some? && ValidatedAll(rules, s.value, inputs).Some?)
  {
    var context := new Context(rules, tasks, evaluator, domain);
    ok := context.RecordExistingTasks(tasks);
    if ok {
      ok := context.ValidateBatch(inputs);
    }
  }
}
