/**
 The cluster control protocol as a step system: launchers, `up`, `down`, the control
 job's own cleanup and the two operator repair commands, interleaved at every durable
 action. Shared state is what survives a crash: deployment manifests and the pointer to
 the current one, the server's request and worker rows, the Slurm job table and the
 workspace lock. A process that crashes, gets an error, or loses the reply to a call that
 did take effect, disappears after any of its steps (`Crash`) and gives its lock back.
 */
module ClusterProtocol {
  import opened Basics

  type Dep = nat
  type JobId = nat
  type Pid = nat

  /** A submission key: the server gives every worker row of every request its own. */
  datatype Key = Key(request: nat, node: string)

  datatype Suffix = Control | Worker(key: Key)

  /** The name and comment a job is submitted under. */
  datatype Tag = Tag(dep: Dep, suffix: Suffix)

  /** A terminal job stays so. `recorded` says that accounting already shows it. */
  datatype Job = Job(tag: Tag, terminal: bool, recorded: bool)

  datatype DepState = Starting | Running | Stopping | Stopped

  datatype Submission = Prepared | Submitting | Submitted

  datatype Manifest = Manifest(state: DepState, submission: Submission, controlJob: Option<JobId>)

  datatype RowState = RowPending | RowSubmitting | RowSubmitted | RowConnected | RowFailed | RowCanceled

  datatype Row = Row(state: RowState, job: Option<JobId>)

  datatype RequestState = Open | Finished | Canceled

  datatype Request = Request(dep: Dep, state: RequestState, token: nat, live: bool)

  /** What one pass over a claimed request still has to look at, as read at the claim. */
  type View = map<string, Row>

  /** A launcher is a thread of a control job, its host, and ends with it; or it is the
      `watch` command, with no host, of a deployment whose control job is on record. */
  datatype Process =
    | Watching(dep: Dep, host: Option<JobId>)
    | Claimed(dep: Dep, host: Option<JobId>, request: nat, token: nat, view: View)
    | Guarded(dep: Dep, host: Option<JobId>, request: nat, token: nat, view: View, node: string)
    | Intent(dep: Dep, host: Option<JobId>, request: nat, token: nat, view: View, node: string)
    | Accepted(dep: Dep, host: Option<JobId>, request: nat, token: nat, view: View, node: string, job: JobId)
    | Repairing(dep: Dep, request: nat, token: nat)
    | UpLocked
    | UpReady(dep: Dep)
    | UpSubmitting(dep: Dep)
    | UpAccepted(dep: Dep, job: JobId)
    | UpWaiting(dep: Dep)
    | Draining(dep: Dep, job: JobId)
    | Drained(dep: Dep, job: JobId)
    | Cancelling(dep: Dep, job: JobId)
    | Finishing(dep: Dep)

  datatype State = State(
    manifests: map<Dep, Manifest>,
    current: Option<Dep>,
    requests: map<nat, Request>,
    rows: map<Key, Row>,
    jobs: map<JobId, Job>,
    lock: Option<Pid>,
    processes: map<Pid, Process>,
    nextToken: nat,
    // How often an operator confirmed "not submitted" although a job existed.
    blind: map<Tag, nat>)

  const INITIAL := State(map[], None, map[], map[], map[], None, map[], 0, map[])

  predicate HoldsLock(p: Process) {
    p.Guarded? || p.Intent? || p.Accepted? || p.Repairing? ||
    p.UpLocked? || p.UpReady? || p.UpSubmitting? || p.UpAccepted?
  }

  /** Processes that act under a lease. */
  predicate HasClaim(p: Process) {
    p.Claimed? || p.Guarded? || p.Intent? || p.Accepted? || p.Repairing?
  }

  predicate HasView(p: Process) {
    HasClaim(p) && !p.Repairing?
  }

  function Blind(blind: map<Tag, nat>, t: Tag): nat {
    if t in blind then blind[t] else 0
  }

  function Tagged(jobs: map<JobId, Job>, t: Tag): set<JobId> {
    set j | j in jobs && jobs[j].tag == t
  }

  function Active(jobs: map<JobId, Job>, t: Tag): set<JobId> {
    set j | j in jobs && jobs[j].tag == t && !jobs[j].terminal
  }

  function ActiveOf(jobs: map<JobId, Job>, d: Dep): set<JobId> {
    set j | j in jobs && jobs[j].tag.dep == d && !jobs[j].terminal
  }

  /** `Slurm.find`: the queue first, accounting only when the queue shows nothing. */
  function Find(jobs: map<JobId, Job>, t: Tag): set<JobId> {
    if Active(jobs, t) != {} then Active(jobs, t)
    else set j | j in jobs && jobs[j].tag == t && jobs[j].recorded
  }

  /** `Slurm.lookup` answers; otherwise the job's status is unknown. */
  predicate Known(jobs: map<JobId, Job>, j: JobId) {
    j in jobs && (!jobs[j].terminal || jobs[j].recorded)
  }

  /** The deployment is stopping, stopped or replaced: `submission_guard` refuses. */
  predicate Fenced(s: State, d: Dep) {
    s.current != Some(d) || d !in s.manifests || Stops(s.manifests[d])
  }

  predicate Stops(m: Manifest) {
    m.state == Stopping || m.state == Stopped
  }

  /** The server accepts a progress update only from the holder of an unexpired lease. */
  predicate LeaseValid(s: State, request: nat, token: nat) {
    request in s.requests && s.requests[request].token == token &&
    s.requests[request].live && s.requests[request].state != Canceled
  }

  /** The server's transition table, without the operator's exception. */
  predicate Allowed(before: RowState, after: RowState) {
    before == after ||
    (before == RowPending && after in {RowSubmitting, RowConnected, RowCanceled, RowFailed}) ||
    (before == RowSubmitting && after in {RowSubmitted, RowConnected, RowFailed, RowCanceled}) ||
    (before == RowSubmitted && after in {RowConnected, RowFailed, RowCanceled})
  }

  /** A connected worker stays connected when a late receipt arrives. */
  function Target(before: RowState, after: RowState): RowState {
    if before == RowConnected && after in {RowSubmitted, RowFailed, RowCanceled} then RowConnected else after
  }

  predicate UpdateAccepted(s: State, request: nat, token: nat, node: string, after: RowState, job: Option<JobId>, confirmed: bool) {
    && LeaseValid(s, request, token)
    && Key(request, node) in s.rows
    && var row := s.rows[Key(request, node)];
       && (job.Some? ==> (row.job.None? || row.job == job) && after != RowPending && after != RowSubmitting)
       && (Allowed(row.state, Target(row.state, after)) ||
           (confirmed && row.state == RowSubmitting && after == RowPending && job.None?))
       && (Target(row.state, after) == RowSubmitted ==> job.Some?)
  }

  /** No row of the request waits for a launcher any more. */
  predicate Settled(rows: map<Key, Row>, request: nat) {
    forall k :: k in rows && k.request == request ==>
      rows[k].state in {RowConnected, RowFailed, RowCanceled}
  }

  function Update(s: State, request: nat, token: nat, node: string, after: RowState, job: Option<JobId>): State
    requires UpdateAccepted(s, request, token, node, after, job, true)
  {
    var row := s.rows[Key(request, node)];
    s.(rows := s.rows[Key(request, node) :=
      Row(Target(row.state, after), if job.Some? then job else row.job)])
  }

  function ClaimRequest(s: State, request: nat): State
    requires request in s.requests
  {
    s.(requests := s.requests[request := s.requests[request].(token := s.nextToken, live := true)],
       nextToken := s.nextToken + 1)
  }

  predicate Claimable(s: State, request: nat) {
    request in s.requests && s.requests[request].state == Open && !s.requests[request].live
  }

  /** Leaving the lease block releases the lease, if it is still this one. */
  function Release(s: State, request: nat, token: nat): State {
    if LeaseValid(s, request, token)
    then s.(requests := s.requests[request := s.requests[request].(live := false)])
    else s
  }

  function ViewOf(rows: map<Key, Row>, request: nat): View {
    map k | k in rows && k.request == request :: k.node := rows[k]
  }

  /** The rows of a new request; the server inserts them when it is first claimed. */
  function AddRows(rows: map<Key, Row>, request: nat, nodes: set<string>): map<Key, Row> {
    rows + (map node | node in nodes :: Key(request, node) := Row(RowPending, None))
  }

  /** The current manifest, as `Deployments.load` reads it. */
  predicate HasCurrent(s: State) {
    s.current.Some? && s.current.value in s.manifests
  }

  function Current(s: State): Manifest
    requires HasCurrent(s)
  {
    s.manifests[s.current.value]
  }

  function SetProcess(s: State, pid: Pid, p: Process): State {
    s.(processes := s.processes[pid := p], lock := if HoldsLock(p) then Some(pid) else s.lock)
  }

  /** The process leaves the critical section and goes on as `p`. */
  function Unlock(s: State, pid: Pid, p: Process): State {
    s.(processes := s.processes[pid := p], lock := None)
  }

  function SetManifest(s: State, d: Dep, m: Manifest): State {
    s.(manifests := s.manifests[d := m])
  }

  function AddJob(s: State, j: JobId, t: Tag): State {
    s.(jobs := s.jobs[j := Job(t, false, false)])
  }

  /** The operator's "not submitted" goes through because `Find` came back empty. */
  function Confirm(s: State, t: Tag): State {
    if Tagged(s.jobs, t) == {} then s else s.(blind := s.blind[t := Blind(s.blind, t) + 1])
  }

  /** Jobs end and reach accounting, leases run out, users create requests, the server
      closes settled ones and cancels those of a replaced deployment, workers register,
      processes die. */
  datatype WorldStep =
    | JobEnds(job: JobId)
    | JobRecorded(job: JobId)
    | LeaseExpires(request: nat)
    | RequestCreated(request: nat, dep: Dep, nodes: set<string>)
    | RequestFinished(request: nat)
    | RequestCanceled(request: nat)
    | WorkerRegisters(key: Key)
    | Crash(pid: Pid)

  predicate WorldEnabled(s: State, step: WorldStep) {
    match step
    case JobEnds(j) => j in s.jobs
    case JobRecorded(j) => j in s.jobs && s.jobs[j].terminal
    case LeaseExpires(r) => r in s.requests
    case RequestCreated(r, d, nodes) => r !in s.requests && d in s.manifests
    case RequestFinished(r) => r in s.requests && s.requests[r].state == Open && Settled(s.rows, r)
    case RequestCanceled(r) => r in s.requests
    case WorkerRegisters(k) => k in s.rows && s.rows[k].state in {RowPending, RowSubmitting, RowSubmitted}
    case Crash(pid) => pid in s.processes
  }

  function WorldNext(s: State, step: WorldStep): State
    requires WorldEnabled(s, step)
  {
    match step
    case JobEnds(j) => s.(jobs := s.jobs[j := s.jobs[j].(terminal := true)])
    case JobRecorded(j) => s.(jobs := s.jobs[j := s.jobs[j].(recorded := true)])
    case LeaseExpires(r) => s.(requests := s.requests[r := s.requests[r].(live := false)])
    case RequestCreated(r, d, nodes) =>
      s.(requests := s.requests[r := Request(d, Open, 0, false)], rows := AddRows(s.rows, r, nodes))
    case RequestFinished(r) => s.(requests := s.requests[r := s.requests[r].(state := Finished)])
    case RequestCanceled(r) => s.(requests := s.requests[r := s.requests[r].(state := Canceled)])
    case WorkerRegisters(k) => s.(rows := s.rows[k := s.rows[k].(state := RowConnected)])
    case Crash(pid) =>
      s.(processes := s.processes - {pid}, lock := if s.lock == Some(pid) then None else s.lock)
  }

  /** One pass of a launcher over the requests of its deployment. */
  datatype LaunchStep =
    | Start(dep: Dep, host: Option<JobId>)
    | Claim(request: nat)
    | Skip(node: string)
    | Guard(node: string)
    | RecordIntent
    | SubmitWorker(job: JobId)
    | RecordJob
    | Adopt(node: string, job: JobId)
    | Fail(node: string, job: JobId)
    | Finish

  /** `j` is a control job of `d` that has not ended. */
  predicate Controls(jobs: map<JobId, Job>, j: JobId, d: Dep) {
    j in jobs && !jobs[j].terminal && jobs[j].tag == Tag(d, Control)
  }

  predicate IsLauncher(p: Process) {
    p.Watching? || HasView(p)
  }

  /** A thread does nothing once its job has ended; its lock and its lease run out. */
  predicate Alive(p: Process, jobs: map<JobId, Job>) {
    IsLauncher(p) && p.host.Some? ==> p.host.value in jobs && !jobs[p.host.value].terminal
  }

  predicate LaunchEnabled(s: State, pid: Pid, step: LaunchStep) {
    match step
    case Start(d, host) =>
      && pid !in s.processes && d in s.manifests
      && match host {
           case Some(j) => Controls(s.jobs, j, d)
           case None => s.current == Some(d) && s.manifests[d].controlJob.Some? && Controls(s.jobs, s.manifests[d].controlJob.value, d)
         }
    case _ => pid in s.processes && Alive(s.processes[pid], s.jobs) && PassEnabled(s, s.processes[pid], step)
  }

  predicate PassEnabled(s: State, p: Process, step: LaunchStep) {
    match step
    case Start(_, _) => false
    case Claim(r) => p.Watching? && Claimable(s, r) && s.requests[r].dep == p.dep
    case Skip(node) => p.Claimed? && node in p.view && p.view[node].state != RowPending
    case Guard(node) =>
      p.Claimed? && node in p.view && p.view[node].state == RowPending && s.lock.None? && !Fenced(s, p.dep)
    case RecordIntent => p.Guarded? && UpdateAccepted(s, p.request, p.token, p.node, RowSubmitting, None, false)
    case SubmitWorker(j) => p.Intent? && j !in s.jobs
    case RecordJob => p.Accepted? && UpdateAccepted(s, p.request, p.token, p.node, RowSubmitted, Some(p.job), false)
    case Adopt(node, j) =>
      && p.Claimed? && node in p.view && p.view[node].state == RowSubmitting
      && j in s.jobs && s.jobs[j].tag == Tag(p.dep, Worker(Key(p.request, node)))
      && UpdateAccepted(s, p.request, p.token, node, RowSubmitted, Some(j), false)
    case Fail(node, j) =>
      && p.Claimed? && node in p.view && p.view[node].state == RowSubmitted
      && j in s.jobs && s.jobs[j].terminal && s.jobs[j].tag == Tag(p.dep, Worker(Key(p.request, node)))
      && UpdateAccepted(s, p.request, p.token, node, RowFailed, Some(j), false)
    case Finish => p.Claimed? && p.view == map[]
  }

  function LaunchNext(s: State, pid: Pid, step: LaunchStep): State
    requires LaunchEnabled(s, pid, step)
  {
    if step.Start? then SetProcess(s, pid, Watching(step.dep, step.host))
    else PassNext(s, pid, s.processes[pid], step)
  }

  function PassNext(s: State, pid: Pid, p: Process, step: LaunchStep): State
    requires PassEnabled(s, p, step)
  {
    match step
    case Claim(r) =>
      SetProcess(ClaimRequest(s, r), pid, Claimed(p.dep, p.host, r, s.nextToken, ViewOf(s.rows, r)))
    case Skip(node) => SetProcess(s, pid, Claimed(p.dep, p.host, p.request, p.token, p.view - {node}))
    case Guard(node) => SetProcess(s, pid, Guarded(p.dep, p.host, p.request, p.token, p.view, node))
    case RecordIntent =>
      SetProcess(Update(s, p.request, p.token, p.node, RowSubmitting, None), pid,
                 Intent(p.dep, p.host, p.request, p.token, p.view, p.node))
    case SubmitWorker(j) =>
      SetProcess(AddJob(s, j, Tag(p.dep, Worker(Key(p.request, p.node)))), pid,
                 Accepted(p.dep, p.host, p.request, p.token, p.view, p.node, j))
    case RecordJob =>
      Unlock(Update(s, p.request, p.token, p.node, RowSubmitted, Some(p.job)), pid,
             Claimed(p.dep, p.host, p.request, p.token, p.view - {p.node}))
    case Adopt(node, j) =>
      SetProcess(Update(s, p.request, p.token, node, RowSubmitted, Some(j)), pid,
                 Claimed(p.dep, p.host, p.request, p.token, p.view[node := Row(RowSubmitted, Some(j))]))
    case Fail(node, j) =>
      SetProcess(Update(s, p.request, p.token, node, RowFailed, Some(j)), pid,
                 Claimed(p.dep, p.host, p.request, p.token, p.view - {node}))
    case Finish => SetProcess(Release(s, p.request, p.token), pid, Watching(p.dep, p.host))
  }

  /** `resolve-submission`, inside the workspace lock from start to end. */
  datatype RepairStep =
    | TakeOver(request: nat)
    | Attach(node: string, job: JobId)
    | AttachFailed(node: string, job: JobId)
    | ConfirmAbsent(node: string)

  predicate RepairEnabled(s: State, pid: Pid, step: RepairStep) {
    match step
    case TakeOver(r) =>
      && pid !in s.processes && s.lock.None? && Claimable(s, r) && !Fenced(s, s.requests[r].dep)
      && s.manifests[s.requests[r].dep].controlJob.Some?
      && (var j := s.manifests[s.requests[r].dep].controlJob.value; j in s.jobs && !s.jobs[j].terminal)
    case _ => pid in s.processes && RepairAllowed(s, s.processes[pid], step)
  }

  predicate RepairAllowed(s: State, p: Process, step: RepairStep) {
    match step
    case TakeOver(_) => false
    case Attach(node, j) =>
      && p.Repairing? && Key(p.request, node) in s.rows && s.rows[Key(p.request, node)].state == RowSubmitting
      && Known(s.jobs, j) && s.jobs[j].tag == Tag(p.dep, Worker(Key(p.request, node)))
      && UpdateAccepted(s, p.request, p.token, node, RowSubmitted, Some(j), false)
    case AttachFailed(node, j) =>
      && p.Repairing? && Key(p.request, node) in s.rows && s.rows[Key(p.request, node)].job == Some(j)
      && j in s.jobs && s.jobs[j].terminal
      && UpdateAccepted(s, p.request, p.token, node, RowFailed, Some(j), false)
    case ConfirmAbsent(node) =>
      && p.Repairing? && Key(p.request, node) in s.rows && s.rows[Key(p.request, node)].state == RowSubmitting
      && Find(s.jobs, Tag(p.dep, Worker(Key(p.request, node)))) == {}
      && UpdateAccepted(s, p.request, p.token, node, RowPending, None, true)
  }

  function RepairNext(s: State, pid: Pid, step: RepairStep): State
    requires RepairEnabled(s, pid, step)
  {
    match step
    case TakeOver(r) => SetProcess(ClaimRequest(s, r), pid, Repairing(s.requests[r].dep, r, s.nextToken))
    case _ => RepairEffect(s, s.processes[pid], step)
  }

  function RepairEffect(s: State, p: Process, step: RepairStep): State
    requires RepairAllowed(s, p, step)
  {
    match step
    case Attach(node, j) => Update(s, p.request, p.token, node, RowSubmitted, Some(j))
    case AttachFailed(node, j) => Update(s, p.request, p.token, node, RowFailed, Some(j))
    case ConfirmAbsent(node) =>
      Confirm(Update(s, p.request, p.token, node, RowPending, None), Tag(p.dep, Worker(Key(p.request, node))))
  }

  datatype UpStep =
    | TakeLock
    | AdoptControl(job: JobId)
    | Create(dep: Dep)
    | Reuse
    | IntendControl
    | SubmitControl(job: JobId)
    | RecordControl
    | NothingToSubmit
    | MarkRunning

  predicate UpEnabled(s: State, pid: Pid, step: UpStep) {
    match step
    case TakeLock => pid !in s.processes && s.lock.None?
    case _ => pid in s.processes && UpAllowed(s, s.processes[pid], step)
  }

  predicate UpAllowed(s: State, p: Process, step: UpStep) {
    match step
    case TakeLock => false
    case AdoptControl(j) =>
      && p.UpLocked? && HasCurrent(s) && Current(s).state != Stopped && Current(s).controlJob.None?
      && Current(s).submission == Submitting && Find(s.jobs, Tag(s.current.value, Control)) == {j}
    case Create(d) => p.UpLocked? && d !in s.manifests && Replaceable(s)
    case Reuse =>
      && p.UpLocked? && HasCurrent(s) && !Fenced(s, s.current.value)
      && (Current(s).submission == Prepared ||
          (Current(s).controlJob.Some? && Current(s).controlJob.value in s.jobs &&
           !s.jobs[Current(s).controlJob.value].terminal))
    case IntendControl => p.UpReady? && p.dep in s.manifests && s.manifests[p.dep].submission == Prepared
    case SubmitControl(j) => p.UpSubmitting? && j !in s.jobs
    case RecordControl => p.UpAccepted? && p.dep in s.manifests
    case NothingToSubmit => p.UpReady? && p.dep in s.manifests && s.manifests[p.dep].submission != Prepared
    case MarkRunning => p.UpWaiting? && !Fenced(s, p.dep) && s.lock.None?
  }

  /** The old deployment is out of the way: none, stopped, or its control job has ended
      and nothing of it is queued or running. */
  predicate Replaceable(s: State) {
    s.current.None? ||
    (HasCurrent(s) &&
     (Current(s).state == Stopped ||
      (Current(s).controlJob.Some? && Known(s.jobs, Current(s).controlJob.value) &&
       s.jobs[Current(s).controlJob.value].terminal && ActiveOf(s.jobs, s.current.value) == {})))
  }

  function UpNext(s: State, pid: Pid, step: UpStep): State
    requires UpEnabled(s, pid, step)
  {
    if step.TakeLock? then SetProcess(s, pid, UpLocked) else UpEffect(s, pid, s.processes[pid], step)
  }

  function UpEffect(s: State, pid: Pid, p: Process, step: UpStep): State
    requires UpAllowed(s, p, step)
  {
    match step
    case AdoptControl(j) =>
      SetManifest(s, s.current.value, Current(s).(controlJob := Some(j), submission := Submitted))
    case Create(d) =>
      SetProcess(SetManifest(s, d, Manifest(Starting, Prepared, None)).(current := Some(d)), pid, UpReady(d))
    case Reuse => SetProcess(s, pid, UpReady(s.current.value))
    case IntendControl =>
      SetProcess(SetManifest(s, p.dep, s.manifests[p.dep].(submission := Submitting)), pid, UpSubmitting(p.dep))
    case SubmitControl(j) => SetProcess(AddJob(s, j, Tag(p.dep, Control)), pid, UpAccepted(p.dep, j))
    case RecordControl =>
      Unlock(SetManifest(s, p.dep, s.manifests[p.dep].(controlJob := Some(p.job), submission := Submitted)),
             pid, UpWaiting(p.dep))
    case NothingToSubmit => Unlock(s, pid, UpWaiting(p.dep))
    case MarkRunning =>
      SetManifest(s, p.dep, s.manifests[p.dep].(state := Running)).(processes := s.processes - {pid})
  }

  datatype DownStep =
    | StopPrepared
    | MarkStopping(job: JobId)
    | WorkersGone
    | CancelControl
    | AllGone
    | MarkStopped

  predicate DownEnabled(s: State, pid: Pid, step: DownStep) {
    match step
    case StopPrepared =>
      s.lock.None? && HasCurrent(s) && Current(s).controlJob.None? && Current(s).submission == Prepared
    case MarkStopping(j) =>
      && pid !in s.processes && s.lock.None? && HasCurrent(s) && Known(s.jobs, j)
      && (Current(s).controlJob == Some(j) ||
          (Current(s).controlJob.None? && Current(s).submission != Prepared &&
           Find(s.jobs, Tag(s.current.value, Control)) == {j}))
    case _ => pid in s.processes && DownAllowed(s, s.processes[pid], step)
  }

  predicate DownAllowed(s: State, p: Process, step: DownStep) {
    match step
    case StopPrepared => false
    case MarkStopping(_) => false
    case WorkersGone => p.Draining? && ActiveOf(s.jobs, p.dep) <= {p.job}
    case CancelControl => p.Drained?
    case AllGone => p.Cancelling? && ActiveOf(s.jobs, p.dep) == {} && Known(s.jobs, p.job) && s.jobs[p.job].terminal
    case MarkStopped => p.Finishing? && p.dep in s.manifests && s.lock.None?
  }

  function DownNext(s: State, pid: Pid, step: DownStep): State
    requires DownEnabled(s, pid, step)
  {
    match step
    case StopPrepared => SetManifest(s, s.current.value, Current(s).(state := Stopped))
    case MarkStopping(j) =>
      SetProcess(SetManifest(s, s.current.value, Current(s).(state := Stopping, controlJob := Some(j))),
                 pid, Draining(s.current.value, j))
    case _ => DownEffect(s, pid, s.processes[pid], step)
  }

  function DownEffect(s: State, pid: Pid, p: Process, step: DownStep): State
    requires DownAllowed(s, p, step)
  {
    match step
    case WorkersGone => SetProcess(s, pid, Drained(p.dep, p.job))
    case CancelControl => SetProcess(s, pid, Cancelling(p.dep, p.job))
    case AllGone => SetProcess(s, pid, Finishing(p.dep))
    case MarkStopped =>
      SetManifest(s, p.dep, s.manifests[p.dep].(state := Stopped)).(processes := s.processes - {pid})
  }

  /** Short critical sections with a single save: the control job's own cleanup, and the
      two answers of `resolve-control`. */
  datatype ControlStep =
    | Fence(job: JobId)
    | ResolveJob(job: JobId)
    | ResolveAbsent

  predicate ControlEnabled(s: State, step: ControlStep) {
    s.lock.None? &&
    match step
    case Fence(j) =>
      && j in s.jobs && !s.jobs[j].terminal && s.jobs[j].tag.suffix == Control && s.jobs[j].tag.dep in s.manifests
    case ResolveJob(j) =>
      && HasCurrent(s) && Current(s).controlJob.None?
      && Known(s.jobs, j) && s.jobs[j].tag == Tag(s.current.value, Control)
    case ResolveAbsent =>
      HasCurrent(s) && Current(s).controlJob.None? && Find(s.jobs, Tag(s.current.value, Control)) == {}
  }

  function ControlNext(s: State, step: ControlStep): State
    requires ControlEnabled(s, step)
  {
    match step
    case Fence(j) => SetManifest(s, s.jobs[j].tag.dep, s.manifests[s.jobs[j].tag.dep].(state := Stopping))
    case ResolveJob(j) =>
      SetManifest(s, s.current.value, Current(s).(controlJob := Some(j), submission := Submitted))
    case ResolveAbsent =>
      Confirm(SetManifest(s, s.current.value, Current(s).(submission := Prepared)), Tag(s.current.value, Control))
  }

  datatype Step =
    | World(world: WorldStep)
    | Launch(pid: Pid, launch: LaunchStep)
    | Repair(pid: Pid, repair: RepairStep)
    | Up(pid: Pid, up: UpStep)
    | Down(pid: Pid, down: DownStep)
    | ControlAction(control: ControlStep)

  predicate Enabled(s: State, step: Step) {
    match step
    case World(w) => WorldEnabled(s, w)
    case Launch(pid, l) => LaunchEnabled(s, pid, l)
    case Repair(pid, r) => RepairEnabled(s, pid, r)
    case Up(pid, u) => UpEnabled(s, pid, u)
    case Down(pid, d) => DownEnabled(s, pid, d)
    case ControlAction(c) => ControlEnabled(s, c)
  }

  function Next(s: State, step: Step): State
    requires Enabled(s, step)
  {
    match step
    case World(w) => WorldNext(s, w)
    case Launch(pid, l) => LaunchNext(s, pid, l)
    case Repair(pid, r) => RepairNext(s, pid, r)
    case Up(pid, u) => UpNext(s, pid, u)
    case Down(pid, d) => DownNext(s, pid, d)
    case ControlAction(c) => ControlNext(s, c)
  }

  /** A run is any sequence of steps, each enabled where it is taken. */
  predicate Run(s: State, steps: seq<Step>)
    decreases |steps|
  {
    steps == [] || (Enabled(s, steps[0]) && Run(Next(s, steps[0]), steps[1..]))
  }

  function After(s: State, steps: seq<Step>): State
    requires Run(s, steps)
    decreases |steps|
  {
    if steps == [] then s else After(Next(s, steps[0]), steps[1..])
  }
}
