# Verified models of GammaBoard's hard cores

A Dafny 4.11 project that models the parts of GammaBoard whose correctness spans many steps, and
proves properties of them for all inputs, all runs and all interleavings. `dafny verify
dfyconfig.toml` checks everything.

## What is modelled

| modules | part of the system |
|---|---|
| `ClusterProtocol`, `ClusterInvariant`, `ClusterSteps`, `ClusterSafety`, `ClusterDenials` | The Slurm deployment protocol of `ops/ubelix/ubelix.py` as a step system: launchers, `up`, `down`, the control job's cleanup and both repair commands, interleaved at every durable action, with crashes, lost replies and expiring leases. |
| `Pipeline`, `PipelineInvariant`, `PipelineSteps`, `PipelineRuns`, `PipelineLoop` | The bounded evaluation pipeline of `src/benchmark/amortization.rs` as a step system (`Pipeline.Next`), its invariants, progress, and the main thread's two inner loops as methods. |
| `PipelineOrder`, `PipelinePace`, `PipelineRace` | That pipeline against sequential loops, and exactly when the finishing order can be seen. |
| `TextOrder`, `Roles`, `RolePlan` | Role allocation of `src/api/nodes.rs`. |
| `Names` | Fresh-name and root searches of `src/api/nodes.rs` and `src/api/runs.rs`. |
| `TomlValue`, `Overlay`, `Template`, `Expansion` | TOML values, default overlays (`src/api/runs.rs`) and placeholders (`src/api/toml_template.rs`). |
| `Documents`, `Freeze`, `FreezeFacts`, `FreezeAgain`, `RunDefinition` | Run documents and the freezing of child documents (`src/api/run_definition.rs`). |
| `TaskQueue`, `TaskContext`, `TaskAppend` | Task-queue validation with carried state (`src/api/runs.rs`, `src/core/tasks.rs`). |
| `Frames`, `FrameReader`, `FrameWriting`, `FrameSession`, `StderrTail` | The worker protocol of `src/process_worker.rs`. |
| `RaggedBatch` | Row-major batches with offsets (`src/process_runtime.rs`). |
| `Basics`, `Arithmetic` | `Option`, `Result`, division and remainder. |

Code that edits things in place is a method or a class here, proved against a function that says
what it computes; what matters about that function is then a lemma. Concurrency is a step system
whose runs are all sequences of enabled steps.

Where a promised property does not hold of the code, the code is modelled as it is and the exact
condition is proved:

* A stopped deployment can have running jobs after an operator answered "not submitted" too early
  (`ClusterSafety.BlindConfirmationStrandsWorkers`). It has none, then and later, if every such
  answer was given while no job of the deployment was active; and an answer given while one is
  active can always be followed by a stop that leaves it running
  (`ClusterDenials.DenialIsSafeExactlyWhenNothingRuns`).
* The pipeline's draws depend on the order in which workers finish when the sampler learns and a
  generation has fewer than `2 * workers - 1` batches; with at least that many, no sampler can
  tell (`PipelineRace.OrderIsInvisibleExactlyWhenDeep`). A sampler that ignores feedback when
  drawing can never tell.
* A frozen document freezes to itself unless some child document prints as blank text; then it is
  rejected (`FreezeAgain.FreezingIsIdempotentUnlessBlank`). Direct children are checked when a
  document is instantiated, so only a blank document inside a child gets that far
  (`RunDefinition.BlankGrandchild`); creating a run instantiates its children as well, so every
  created run can be instantiated again from what is stored (`RunDefinition.CreatedRunsReload`).
* A header line longer than 8192 bytes is rejected or never finishes, depending on the piece of
  output that holds the first byte past the limit (`FrameReader.OutcomeOfLine`).

Assumptions about the environment. Cluster: the lock excludes, a submission either happens or
not, `active` reports exactly the jobs that have not ended, accounting shows a job only some time
after its end and never loses it, a job is active until its processes are gone, an ended job does
not run again, the server rejects progress
under a stale or expired lease and gives every worker row its own submission key. Pipeline:
`generate` returns as many points as asked for, and an evaluation returns one count and, when
feedback is on, one value per point. Documents: printing a table and reading it back gives the
same table. Frames: plain ASCII is valid UTF-8.

## Model

| member | source | states |
|---|---|---|
| ClusterSteps.StepKeepsInv | ops/ubelix/ubelix.py:147-327 | Every step of every process, repair command and the environment keeps the invariant: lock exclusion, unique latest claims, accurate views, fences, sound records, tags, shutdown order. |
| ClusterSteps.TagsSubmit | ops/ubelix/ubelix.py:212-240 | A submission whose intent is on record is the one allowed job of its key, whatever other processes are doing. |
| ClusterSteps.TagsConfirm | ops/ubelix/ubelix.py:656-715 | An operator's "not submitted" reopens only its own key, and only when nothing is found under it. |
| ClusterSteps.OwnReport | ops/ubelix/ubelix.py:172-183 | A report under the latest lease token leaves every other launcher's view of the rows accurate. |
| ClusterSteps.RunKeepsInv | ops/ubelix/ubelix.py:260-715 | The invariant holds after every run. |
| ClusterSafety.SubmittedAtMostOnce | ops/ubelix/ubelix.py:260-327 | In every run, at most one job per submission key beyond wrong operator confirmations, never two active, and none while nothing is committed (a pending row, a prepared control job). |
| ClusterSafety.RecoveryIsUnambiguous | ops/ubelix/ubelix.py:287-322 | Without wrong confirmations, a search for a key finds at most one job; every recorded job id names a job submitted for exactly that row or manifest. |
| ClusterSafety.FencedStep | ops/ubelix/ubelix.py:243-250 | No step of any process submits a job for a fenced deployment, and a fence is never lifted. |
| ClusterSafety.FenceIsFinal | ops/ubelix/ubelix.py:589-597 | Once `stopping` is saved or the deployment replaced, no later step of any run adds a job for it and none becomes active again. |
| ClusterSafety.ControlCanceledLast | ops/ubelix/ubelix.py:497-501 | When `down` cancels the control job, no worker job of the deployment is active. |
| ClusterSafety.StoppedMeansEmpty | ops/ubelix/ubelix.py:502-512 | `stopped` implies that no job of the deployment is active, then and in every continuation, unless the control submission was wrongly denied. |
| ClusterSafety.BlindConfirmationStrandsWorkers | ops/ubelix/ubelix.py:669-672 | A run reaches a stopped deployment with an active worker: the control job ended, accounting lags, the operator denies it. |
| ClusterDenials.CheckedDenialsStopClean | ops/ubelix/ubelix.py:465-512 | Over every run in which each denial of a control submission was given while no job of the deployment was active, `stopped` implies that none is active, then and in every continuation. |
| ClusterDenials.DenialIsSafeExactlyWhenNothingRuns | ops/ubelix/ubelix.py:656-672 | Whatever went before, some continuation without a further unchecked denial stops the deployment with jobs left if and only if a job of it is active when the denial is given. |
| ClusterDenials.StepKeepsCalm | ops/ubelix/ubelix.py:545-600 | Every step of every process, if it is not an unchecked denial, keeps this: a deployment whose control job is not submitted, or that is stopped, has no active job; launchers live inside a running control job or beside one on record. |
| PipelineSteps.SlotFree | src/benchmark/amortization.rs:64-133 | With the window open, the channel of the next batch holds at most one other batch. |
| PipelineSteps.DealKeepsDrawn | src/benchmark/amortization.rs:122-134 | The slice at the cursor is the batch of the next id, and the cursor follows the ids. |
| PipelineSteps.StepKeepsInv | src/benchmark/amortization.rs:83-184 | Every step keeps: each outstanding batch is in exactly one place, workers deliver in dealing order, results belong to their batches, counts and feedback match what was retired. |
| PipelineRuns.RetiresInOrder | src/benchmark/amortization.rs:136-156 | In every interleaving, outcomes are merged once each in id order and each generation's feedback reaches the sampler once, whole and in order. |
| PipelineRuns.NeverBlocks | src/benchmark/amortization.rs:121-137 | No send waits, the batch the main thread waits for is queued, running or completed, and some step is always possible. |
| PipelineRuns.EveryStepCounts | src/benchmark/amortization.rs:121-184 | Any run of n steps has retired at least n / 6 - 2 * workers batches, whatever the scheduling. |
| PipelineRuns.ChecksNeverFail | src/benchmark/amortization.rs:149-176 | The feedback-length and sample-count checks cannot fail; a run ends on a generation boundary and reports exactly the batches after the first generation. |
| PipelineOrder.EqualsSequential | src/benchmark/amortization.rs:47-184 | Without feedback, or with a sampler whose draws ignore it, every run merges and returns what the plain sequential loop does. |
| PipelinePace.EqualsLookahead | src/benchmark/amortization.rs:121-184 | With at least 2 * workers - 1 batches per generation, for every sampler, every run equals the sequential loop that keeps one generation in hand. |
| PipelinePace.StepKeepsPace | src/benchmark/amortization.rs:122-155 | Then every generation is drawn right after the feedback of the last but one, in every interleaving. |
| PipelineRace.OrderIsInvisibleExactlyWhenDeep | src/benchmark/amortization.rs:109-155 | No sampler can see the finishing order if and only if a generation has at least 2 * workers - 1 batches. |
| PipelineRace.ShallowDisagrees | src/benchmark/amortization.rs:121-155 | With fewer, two runs of the same configuration draw the same generation differently. |
| PipelineLoop.FillWindow | src/benchmark/amortization.rs:122-135 | The send loop is a run of sends that never blocks and ends with the window full. |
| PipelineLoop.Drain | src/benchmark/amortization.rs:138-183 | The retiring loop is a run of retirements that ends at the first missing id or at the deadline. |
| Roles.LeastIsFirst | src/api/nodes.rs:427-438 | Filtering and minimum pick the first of the least keys, or nothing when no node qualifies. |
| Roles.FirstLeast | src/api/nodes.rs:496-510 | The loop computes that choice. |
| Roles.KeyBeforeTotal | src/api/nodes.rs:431-437 | Any two different selection keys are ordered, one way only. |
| RolePlan.TakeBest | src/api/nodes.rs:520-533 | The taking loop computes the repeated choice of the best node left, up to the limit. |
| RolePlan.BestChooses | src/api/nodes.rs:456-465 | The chosen node satisfies the requirements, and nothing is chosen only when no node does. |
| RolePlan.BestSpares | src/api/nodes.rs:431-437 | While a capable node that cannot evaluate is left, no evaluator is chosen as sampler. |
| RolePlan.ChoiceBound | src/api/nodes.rs:412-454 | Any disjoint choice of capable samplers and evaluators obeys the counting bound. |
| RolePlan.Exchange | src/api/nodes.rs:423-451 | No choice with as many samplers leaves more evaluators than the two greedy passes. |
| RolePlan.GreedyDecides | src/api/nodes.rs:423-451 | The greedy choice completes a number of active runs exactly when some choice does. |
| RolePlan.GreedyIsSound | src/api/nodes.rs:424-447 | Chosen samplers and evaluators are disjoint free nodes that satisfy their requirements, within the evaluator limit. |
| RolePlan.Try | src/api/nodes.rs:424-451 | One round succeeds if and only if some choice completes that many runs. |
| RolePlan.Plan | src/api/nodes.rs:414-454 | The plan is for the largest number of active runs any choice completes, adds exactly the missing samplers, has as many evaluators as any such choice, and the search always succeeds. |
| Names.AvailableName | src/api/runs.rs:551-559 | The first candidate that is not taken, found within one try per existing name. |
| Names.CandidatesDiffer | src/api/runs.rs:543-549 | No two copy names of one base are equal. |
| Names.PlanNodes | src/api/nodes.rs:536-567 | Zero is refused; otherwise the requested number of least unused `w-N` names, within existing plus requested tries. |
| Names.UnusedDistinct | src/api/nodes.rs:553-561 | Planned names are new and pairwise different. |
| Names.WorkerPool | src/api/nodes.rs:164-182 | The walk returns the root, the missing run, or the cycle error exactly when the parent chain ends there, ends in a missing run, or never ends. |
| Overlay.MergeInto | src/api/runs.rs:1082-1107 | The entry-by-entry merge computes the recursive overlay. |
| Overlay.OverlaySurvives | src/api/runs.rs:1093-1106 | Every leaf set by the overlay is in the result at its path. |
| Overlay.MergeTwice | src/api/runs.rs:1082-1107 | Merging the same overlay twice equals merging it once. |
| Overlay.ChangedKindReplaces | src/api/runs.rs:1083-1091 | Where the kind changes, nothing of the base is carried over, at any depth. |
| Overlay.LeavesAreAccountedFor | src/api/runs.rs:1082-1107 | Path by path, the base is unchanged where the overlay does not override it, and every leaf elsewhere comes from the overlay. |
| Template.Interpolate | src/api/toml_template.rs:142-170 | One pass over the string inserts the values of its placeholders and reports exactly their names. |
| Template.SegmentsCover | src/api/toml_template.rs:150-169 | The parts of a string cover it, and no literal part holds another opening. |
| Expansion.ExpandValue | src/api/toml_template.rs:80-130 | Walking the tree equals one recursive substitution, fails exactly when some placeholder cannot be read, and reports the names that occur. |
| Expansion.ExpandTemplate | src/api/toml_template.rs:20-32 | The document with its own replacements applied and removed. |
| Expansion.DependsOnUsedNames | src/api/toml_template.rs:80-130 | Replacements that agree on the reported names give the same result. |
| Expansion.UsedNamesMatter | src/api/toml_template.rs:93-104 | Every reported name matters: two values for it give different results. |
| Expansion.SourcesUntouched | src/api/toml_template.rs:116-118 | A `run` entry comes out exactly as it went in, at any depth that is visited. |
| Expansion.UnusedBindingsDoNotMatter | src/api/toml_template.rs:47-65 | Bindings that agree on the names in use give the same effective document. |
| Freeze.Freezer.FreezeSources | src/api/run_definition.rs:222-250 | Freezing computes the recursive function and leaves the stack of open files as it was, on success and on failure. |
| Freeze.Freezer.ResolveChild | src/api/run_definition.rs:266-312 | So does resolving one child, which rejects files already on the stack. |
| FreezeFacts.ChainsAreBoundedAndAcyclic | src/api/run_definition.rs:228-312 | A document that freezes has no chain of children beyond the depth limit and none that reads a file twice. |
| FreezeFacts.FreezingKeepsMeaning | src/api/run_definition.rs:221-264 | Along every chain of children, the frozen document leads to the same document as the original, without reading a file. |
| FreezeFacts.FreezingFreezes | src/api/run_definition.rs:252-264 | Every child of a frozen document is a valid frozen document printed into its parent. |
| FreezeFacts.FrozenHasNoFiles | src/api/run_definition.rs:206-207 | No file reference is left at any depth. |
| FreezeAgain.FreezeTwice | src/api/run_definition.rs:206-312 | Freezing a frozen document, with any file system, base and stack, gives it back if no child is blank, and the blank-text error otherwise. |
| FreezeAgain.FreezingIsIdempotentUnlessBlank | src/api/run_definition.rs:208-264 | The same for whatever freezing produced. |
| FreezeAgain.FailureHasAReason | src/api/run_definition.rs:222-312 | Freezing fails only if the limit is reached, a document is not a table, or a source cannot be read, is cyclic or is invalid, at the end of some chain of children. |
| FreezeAgain.SameVerdict | src/api/run_definition.rs:124-186 | Freezing changes no verdict of document validation. |
| RunDefinition.Instantiate | src/api/run_definition.rs:31-114 | Freeze, bind, print, expand and check, as one function of the document and its bindings, with the first error in the code's order. |
| RunDefinition.InstantiatingAgain | src/api/run_definition.rs:31-114 | The stored document, with no bindings and any file system, gives the same definition, or the blank-text error exactly when a document inside one of its children has a blank child. |
| RunDefinition.ParsingAgain | src/api/run_definition.rs:10-29 | The stored text parses to the same definition and is kept unchanged, under the same condition. |
| RunDefinition.BlankGrandchild | src/core/tasks.rs:552-562 | The rejection happens: a scan of a scan of a document that is only a comment is instantiated and stored, but its stored form is refused. |
| RunDefinition.SameSources | src/api/toml_template.rs:116-118 | The sources the typed body sees are those of the stored document. |
| RunDefinition.CreatedRunsReload | src/preprocess/mod.rs:88-96 | A run whose children instantiate, as creating it requires, is always instantiated again from its stored form to the same definition, on any file system. |
| RunDefinition.SpawningReadsNoFiles | src/api/run_definition.rs:206-219 | Instantiating a frozen child gives the same result on every file system. |
| TaskContext.Context.ValidateTask | src/api/runs.rs:797-860 | Validating a task in place accepts exactly the tasks the specification accepts and leaves its context. |
| TaskContext.Context.ValidateSampling | src/api/runs.rs:883-968 | The same for handoffs, inherited partitions and stratified estimation. |
| TaskContext.Context.ValidateEvaluatorDomain | src/api/runs.rs:1048-1063 | An evaluator passes if it is remembered or its domain is the run's, and is then remembered. |
| TaskContext.Context.RecordExistingTask | src/api/runs.rs:862-881 | Recording a stored task leaves the configurations it established. |
| TaskContext.Append | src/api/runs.rs:711-731 | Appending rebuilds the context from the stored tasks and validates the new ones against it. |
| TaskAppend.RebuiltContext | src/api/runs.rs:749-788 | The context rebuilt from an accepted queue, stored under any sequence numbers, is the one that validating it left, but for the evaluator cache and the number of the next task. |
| TaskAppend.AppendAgreesWithWhole | src/api/runs.rs:697-731 | Appending named tasks N to an accepted queue E is accepted exactly when E followed by N is, whatever the stored sequence numbers; unnamed ones too when the numbers have no gap. |
| TaskAppend.CacheIsInvisible | src/api/runs.rs:1048-1063 | The evaluator cache never changes a verdict or what later tasks see. |
| TaskAppend.EstablishDomain | src/preprocess/mod.rs:97-109 | A new run's domain is that of its own evaluator, or else of the first one a task configures. |
| TaskAppend.Preflight | src/api/runs.rs:167-182 | A new run is accepted exactly when its domain is established and the whole queue is valid for it, although its own evaluator is not checked again. |
| FrameReader.OutcomeOfLine | src/process_worker.rs:294-334 | A header line within the limit is read whatever the chunking; a longer one is rejected, or never finishes when the piece with the first byte past the limit has no newline. |
| FrameReader.Reader.ReadHeaderLine | src/process_worker.rs:299-330 | The loop has that outcome and consumes exactly the line. |
| FrameReader.Reader.ReadFrameHeader | src/process_worker.rs:230-270 | The header found depends only on the bytes, and the log total grows by the skipped lines. |
| FrameReader.Reader.ReadFrameBytes | src/process_worker.rs:336-362 | Exactly the requested bytes, or an error when the output ends first. |
| FrameReader.Reader.ReadFrame | src/process_worker.rs:199-206 | A frame read in any chunking is the one the bytes say, and the rest of the output is left. |
| FrameWriting.FrameRoundTrip | src/process_worker.rs:163-206 | Reading what was written gives payload and binary back exactly and stops right after the frame. |
| FrameSession.Worker.Request | src/process_worker.rs:120-153 | One request takes a fresh, larger id (until the counter saturates), writes one frame and returns the first frame that is not progress. |
| FrameSession.Worker.ReadResponse | src/process_worker.rs:193-226 | Waiting for a response computes that function of the output. |
| FrameSession.ReplyAnswers | src/process_worker.rs:795-829 | A returned response carries the request's own id and exactly one of result or error, as section 5 of the JSON-RPC 2.0 Specification requires. |
| FrameSession.SessionIsAnswered | src/process_worker.rs:193-226 | The answers to consecutive ids on an output mixing log lines, progress and responses are the responses and binary parts printed for them, while the log total is within its bound. |
| FrameSession.Worker.Session | src/process_worker.rs:120-153 | Request after request on one worker: each call gets its own response, ids and frames go out in order, and the output and the log total end where the session ends. |
| StderrTail.Tail.Emit | src/process_worker.rs:649-657 | After every line the kept tail is the longest suffix of the whole history within 40 lines and 8192 bytes. |
| StderrTail.TailOf | src/process_worker.rs:629-659 | Fed a whole history line by line, the window ends as that suffix. |
| StderrTail.TailIsUnique | src/process_worker.rs:649-657 | That suffix is determined by the history. |
| RaggedBatch.ParseOffsets | src/process_runtime.rs:165-224 | Offsets are accepted exactly when they partition the values, or are absent and the fixed width fits. |
| RaggedBatch.DecodeBatch | src/process_runtime.rs:42-154 | Decoding returns the batch the response holds, or fails exactly when it holds none. |
| RaggedBatch.DecodingCovers | src/process_runtime.rs:141-153 | The points' coordinates, concatenated, are the row-major arrays. |
| RaggedBatch.DecodingIsUnique | src/process_runtime.rs:42-154 | A response holds at most one batch. |
| RaggedBatch.BatchRoundTrip | src/process_runtime.rs:42-154 | Encoding and decoding a batch of 64-bit integers, finite doubles and positive finite weights is the identity. |
| RaggedBatch.FixedWidthIsUniform | src/process_runtime.rs:173-181 | Leaving the offsets out is the same as sending uniform ones. |

## Left out

- Real Slurm, HTTP, PostgreSQL, processes, signals, timeouts and clocks: they are steps, parameters or nondeterministic choices.
- Cluster: `Lease`, launchers and commands are states of processes, not objects; the heartbeat thread is lease expiry; an error, an early return or a lost reply is a crash followed by lease expiry.
- Cluster: the scheduler snapshot shared by one reconciliation pass is taken as current; scheduler requeues of ended jobs, resource validation, database resets and file recipes are not modelled; worker rows exist from the request's creation, where the server inserts them at the first claim.
- ClusterSafety.StoppedMeansEmpty: assumes the control submission was never denied while a job of it existed; `ClusterDenials` has the exact condition.
- Cluster: `watch` looks at the control job again before each pass; here it does so once, when it starts.
- Pipeline: thread start-up, worker panics and errors of `generate`, `slice_at`, `feedback` and channels; the numbers accumulated are the sequence of merged outcomes, of which any accumulator is a fold.
- Pipeline: `PipelineRuns.EveryStepCounts` counts steps, not time.
- Roles: sums of capability scores are unbounded, where the code uses 64 bits; the node's other fields are not modelled.
- Overlay and expansion: errors are one value, without the path they report; a placeholder that expands into `children` is not frozen by the code and is not considered.
- RunDefinition.Instantiate: the typed body, including the instantiation of campaign children at submission, is one predicate of the effective document, apart from the check that children have a source that is not blank.
- RunDefinition.CreatedRunsReload: of what creating a run checks in its children, only that they instantiate; the checks repeated inside them are not needed for it.
- TaskQueue: the inside of task, evaluator, accumulator and partition configurations is a set of predicates; stored tasks are taken in queue order, where the code sorts them first.
- Frames: timeouts and killing the worker, JSON text, UTF-8 decoding, and trimming of non-ASCII white space around lengths.
- StderrTail: splitting and redacting of lines; a character stands for a byte.
- RaggedBatch: doubles and their rounding are abstract, and JSON text is not modelled; array lengths are below the word size.
- The dashboard, the CLI, storage, authentication, performance telemetry and generated kernels, which would add only easy members.
