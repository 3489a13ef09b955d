/**
 Validating a run's task queue: each task may refer to what earlier tasks configured, so a
 context is carried along. Tasks already stored are recorded into a context; new ones are
 validated against it.
 */
module TaskQueue {
  import opened Basics
  import opened Names

  type Evaluator(==, !new)
  type Accumulator(==, !new)
  type Partition(==, !new)
  type Details(==, !new)
  type Domain(==, !new)

  datatype SamplerKind = HavanaTraining | HavanaInference | OtherSampler

  datatype Sampling = Sampling(kind: SamplerKind, details: Details, partition: Option<Partition>)

  datatype Source<T> = Latest | FromName(name: string) | FromStage(handoff: T, stage: string) | Config(config: T)

  datatype Controller = ParameterScan | HyperparameterTuning | IntegrationCampaign

  datatype Task =
    | SetAccumulator(accumulator: Accumulator)
    | Sample(sampler: Option<Source<Sampling>>, stratified: bool, evaluator: Option<Source<Evaluator>>,
             sampleAccumulator: Option<Source<Accumulator>>)
    | Image(evaluator: Option<Source<Evaluator>>, accumulator: Accumulator)
    | PdfImage(sampler: Option<Source<Sampling>>)
    | PdfLine(sampler: Option<Source<Sampling>>)
    | PlotLine(evaluator: Option<Source<Evaluator>>, accumulator: Accumulator)
    | Control(controller: Controller)

  datatype Input = Input(name: Option<string>, task: Task)

  /** A stored task has a name and a place in the queue. */
  datatype Stored = Stored(name: string, sequence: nat, task: Task)

  /** What the configurations themselves decide. */
  datatype Rules = Rules(
    valid: Input -> bool,
    domainOf: Evaluator -> Option<Domain>,
    compatible: (Evaluator, Accumulator) -> bool,
    partitions: (Partition, Accumulator) -> bool,
    sampleable: (Sampling, Domain) -> bool,
    projects: Accumulator -> bool)

  datatype State = State(
    knownNames: set<string>,
    sourceable: set<string>,
    accumulators: map<string, Accumulator>,
    evaluators: map<string, Evaluator>,
    samplings: map<string, Sampling>,
    accumulator: Option<Accumulator>,
    evaluator: Option<Evaluator>,
    sampling: Option<Sampling>,
    havana: Option<Sampling>,
    next: nat,
    domain: Domain,
    validated: seq<Evaluator>)

  function KindName(task: Task): string {
    match task
    case SetAccumulator(_) => "set_accumulator"
    case Sample(_, _, _, _) => "sample"
    case Image(_, _) => "image"
    case PdfImage(_) => "pdf_adaptation_image"
    case PdfLine(_) => "pdf_adaptation_plot_line"
    case PlotLine(_, _) => "plot_line"
    case Control(ParameterScan) => "parameter_scan"
    case Control(HyperparameterTuning) => "hyperparameter_tuning"
    case Control(IntegrationCampaign) => "integration_campaign"
  }

  function NameOf(input: Input, sequence: nat): string {
    if input.name.Some? then input.name.value else KindName(input.task) + "-" + Decimal(sequence)
  }

  predicate OnWorker(task: Task) {
    !task.SetAccumulator? && !task.Control?
  }

  /** A reference to an earlier task, or to whatever is current; nothing for a configuration. */
  datatype Reference = Current | Named(name: string)

  function ReferenceOf<T>(source: Option<Source<T>>): Option<Reference> {
    match source
    case None => Some(Current)
    case Some(Latest) => Some(Current)
    case Some(FromName(name)) => Some(Named(name))
    case Some(_) => None
  }

  function SamplerReference(task: Task): Option<Reference> {
    if !task.Sample? && !task.PdfImage? && !task.PdfLine? then None
    else
      match task.sampler
      case Some(FromStage(_, stage)) => Some(Named(stage))
      case other => ReferenceOf(other)
  }

  function EvaluatorReference(task: Task): Option<Reference> {
    if task.Sample? || task.Image? || task.PlotLine? then ReferenceOf(task.evaluator) else None
  }

  function SampleAccumulatorReference(task: Task): Option<Reference> {
    if task.Sample? then ReferenceOf(task.sampleAccumulator) else None
  }

  /** Where the layout of the task's accumulator comes from, if it has none of its own. */
  function AccumulatorReference(task: Task): Option<Reference> {
    if task.PdfImage? || task.PdfLine? then SamplerReference(task) else SampleAccumulatorReference(task)
  }

  function OwnEvaluator(task: Task): Option<Evaluator> {
    if (task.Sample? || task.Image? || task.PlotLine?) && task.evaluator.Some? && task.evaluator.value.Config?
    then Some(task.evaluator.value.config) else None
  }

  function OwnAccumulator(task: Task): Option<Accumulator> {
    match task
    case SetAccumulator(config) => Some(config)
    case Sample(_, _, _, Some(Config(config))) => Some(config)
    case Image(_, config) => Some(config)
    case PlotLine(_, config) => Some(config)
    case _ => None
  }

  predicate SourceKnown(s: State, reference: Option<Reference>) {
    reference.Some? && reference.value.Named? ==> reference.value.name in s.sourceable
  }

  predicate SourcesKnown(s: State, task: Task) {
    && SourceKnown(s, SamplerReference(task)) && SourceKnown(s, EvaluatorReference(task))
    && SourceKnown(s, SampleAccumulatorReference(task))
  }

  function Find<T>(known: map<string, T>, name: string): Option<T> {
    if name in known then Some(known[name]) else None
  }

  function EvaluatorFor(s: State, task: Task): Option<Evaluator> {
    if OwnEvaluator(task).Some? then OwnEvaluator(task)
    else
      match EvaluatorReference(task)
      case Some(Named(name)) => Find(s.evaluators, name)
      case _ => s.evaluator
  }

  /** An error, no accumulator, or one. */
  function AccumulatorFor(s: State, task: Task): Option<Option<Accumulator>> {
    if OwnAccumulator(task).Some? then Some(OwnAccumulator(task))
    else
      match AccumulatorReference(task)
      case None => Some(None)
      case Some(Current) => if s.accumulator.None? then None else Some(s.accumulator)
      case Some(Named(name)) => if name in s.accumulators then Some(Some(s.accumulators[name])) else None
  }

  /** The sampling a sample task asks for, before a partition is inherited. */
  function AskedSampling(s: State, sampler: Option<Source<Sampling>>): Option<Option<Sampling>> {
    match sampler
    case Some(Config(config)) => Some(Some(config))
    case Some(FromStage(config, stage)) =>
      if stage !in s.samplings then None
      else if config.partition.Some? && config.partition != s.samplings[stage].partition then None
      else Some(Some(config.(partition := s.samplings[stage].partition)))
    case Some(FromName(name)) => Some(Find(s.samplings, name))
    case _ => Some(s.sampling)
  }

  /** Inference from a configuration continues the latest training's partition. */
  function Inherited(s: State, sampler: Option<Source<Sampling>>, config: Sampling): Sampling {
    if sampler.Some? && sampler.value.Config? && config.kind == HavanaInference && config.partition.None?
    then config.(partition := if s.havana.Some? then s.havana.value.partition else None)
    else config
  }

  predicate PartitionFits(r: Rules, s: State, sampling: Sampling, accumulator: Option<Accumulator>) {
    sampling.partition.Some? ==>
      accumulator.Some? && r.partitions(sampling.partition.value, accumulator.value) && r.sampleable(sampling, s.domain)
  }

  predicate StratifiedFits(r: Rules, task: Task, sampling: Option<Sampling>, accumulator: Option<Accumulator>)
    requires task.Sample?
  {
    task.stratified ==>
      && sampling.Some? && sampling.value.partition.Some?
      && task.sampleAccumulator.Some? && task.sampleAccumulator.value.Config?
      && (accumulator.Some? ==> !r.projects(accumulator.value))
  }

  /** An error, no sampling to note, or the sampling of a sample task. */
  function SamplingFor(r: Rules, s: State, task: Task, accumulator: Option<Accumulator>): Option<Option<Sampling>> {
    if !task.Sample? then Some(None)
    else
      var asked := AskedSampling(s, task.sampler);
      if asked.None? then None
      else
        var sampling := if asked.value.None? then None else Some(Inherited(s, task.sampler, asked.value.value));
        if sampling.Some? && !PartitionFits(r, s, sampling.value, accumulator) then None
        else if !StratifiedFits(r, task, sampling, accumulator) then None
        else Some(sampling)
  }

  function NoteSampling(s: State, name: string, sampling: Option<Sampling>): State {
    if sampling.None? then s
    else
      s.(havana := if sampling.value.kind != OtherSampler then sampling else s.havana,
         samplings := s.samplings[name := sampling.value], sampling := sampling)
  }

  function NoteEvaluator(s: State, name: string, evaluator: Option<Evaluator>): State {
    if evaluator.None? then s else s.(evaluators := s.evaluators[name := evaluator.value], evaluator := evaluator)
  }

  function NoteAccumulator(s: State, name: string, accumulator: Option<Accumulator>): State {
    if accumulator.None? then s
    else s.(accumulators := s.accumulators[name := accumulator.value], accumulator := accumulator)
  }

  /** An evaluator is checked against the run's domain once. */
  predicate DomainFits(r: Rules, s: State, evaluator: Evaluator) {
    evaluator in s.validated || r.domainOf(evaluator) == Some(s.domain)
  }

  function Cached(s: State, evaluator: Evaluator): State {
    if evaluator in s.validated then s else s.(validated := s.validated + [evaluator])
  }

  function Remembered(s: State, known: Option<Evaluator>): State {
    if known.None? then s else s.(validated := s.validated + [known.value])
  }

  predicate AccumulatorFits(r: Rules, s: State, task: Task, accumulator: Accumulator, evaluator: Option<Evaluator>) {
    if task.Control? then true
    else if task.SetAccumulator? then s.evaluator.Some? ==> r.compatible(s.evaluator.value, accumulator)
    else evaluator.Some? && r.compatible(evaluator.value, accumulator)
  }

  /** What a task runs with. */
  datatype Effective = Effective(evaluator: Option<Evaluator>, accumulator: Option<Accumulator>)

  /** The configurations in force, if all references and the evaluator's checks are in order. */
  function Resolved(r: Rules, s: State, input: Input): Option<Effective> {
    var task := input.task;
    if !r.valid(input) || !SourcesKnown(s, task) || NameOf(input, s.next) in s.knownNames then None
    else
      var accumulator := AccumulatorFor(s, task);
      var evaluator := if OnWorker(task) then EvaluatorFor(s, task) else None;
      if accumulator.None? || (OnWorker(task) && evaluator.None?) then None
      else if evaluator.Some? && !DomainFits(r, s, evaluator.value) then None
      else if accumulator.value.Some? && !AccumulatorFits(r, s, task, accumulator.value.value, evaluator) then None
      else Some(Effective(evaluator, accumulator.value))
  }

  /** The name is taken and the evaluator's domain checked. */
  function Admitted(s: State, name: string, evaluator: Option<Evaluator>): State {
    var checked := if evaluator.Some? then Cached(s, evaluator.value) else s;
    checked.(knownNames := s.knownNames + {name})
  }

  function Kept(s: State, name: string, effective: Effective): State {
    NoteAccumulator(NoteEvaluator(s, name, effective.evaluator), name, effective.accumulator)
      .(sourceable := s.sourceable + {name}, next := s.next + 1)
  }

  /** One new task: its checks in order, and the context for the next one. */
  function Validated(r: Rules, s: State, input: Input): Option<State> {
    var name, effective := NameOf(input, s.next), Resolved(r, s, input);
    if effective.None? then None
    else
      var admitted := Admitted(s, name, effective.value.evaluator);
      var sampling := SamplingFor(r, admitted, input.task, effective.value.accumulator);
      if sampling.None? then None else Some(Kept(NoteSampling(admitted, name, sampling.value), name, effective.value))
  }

  /** One stored task: only what it leaves behind. */
  function Recorded(r: Rules, s: State, stored: Stored): Option<State> {
    var task, name := stored.task, stored.name;
    var evaluator := if OnWorker(task) then EvaluatorFor(s, task) else None;
    if OnWorker(task) && evaluator.None? then None
    else
      var withEvaluator := NoteEvaluator(s, name, evaluator);
      var accumulator := AccumulatorFor(withEvaluator, task);
      if accumulator.None? then None
      else
        var sampling := SamplingFor(r, withEvaluator, task, accumulator.value);
        if sampling.None? then None
        else Some(NoteAccumulator(NoteSampling(withEvaluator, name, sampling.value), name, accumulator.value))
  }

  function ValidatedAll(r: Rules, s: State, inputs: seq<Input>): Option<State> {
    if inputs == [] then Some(s)
    else
      var before := ValidatedAll(r, s, inputs[..|inputs| - 1]);
      if before.None? then None else Validated(r, before.value, inputs[|inputs| - 1])
  }

  function RecordedAll(r: Rules, s: State, tasks: seq<Stored>): Option<State> {
    if tasks == [] then Some(s)
    else
      var before := RecordedAll(r, s, tasks[..|tasks| - 1]);
      if before.None? then None else Recorded(r, before.value, tasks[|tasks| - 1])
  }

  function NamesOf(tasks: seq<Stored>): set<string> {
    set i | 0 <= i < |tasks| :: tasks[i].name
  }

  function LastSequence(tasks: seq<Stored>): nat {
    if tasks == [] then 0
    else
      var before := LastSequence(tasks[..|tasks| - 1]);
      if before < tasks[|tasks| - 1].sequence then tasks[|tasks| - 1].sequence else before
  }

  function Blank(tasks: seq<Stored>, evaluator: Option<Evaluator>, domain: Domain): State {
    State(NamesOf(tasks), NamesOf(tasks), map[], map[], map[], None, evaluator, None, None, LastSequence(tasks) + 1, domain, [])
  }

  /** The context of the stored tasks, in queue order. */
  function ContextOf(r: Rules, tasks: seq<Stored>, evaluator: Option<Evaluator>, domain: Domain): Option<State> {
    RecordedAll(r, Blank(tasks, evaluator, domain), tasks)
  }
}
