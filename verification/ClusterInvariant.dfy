/**
 What holds in every reachable state of the cluster protocol. Each invariant is stated over
 the parts of the state it reads, so that a step which writes none of them keeps it for free.
 */
module ClusterInvariant {
  import opened Basics
  import opened ClusterProtocol

  type Processes = map<Pid, Process>
  type Manifests = map<Dep, Manifest>
  type Requests = map<nat, Request>
  type Rows = map<Key, Row>
  type Jobs = map<JobId, Job>

  /** Mutual exclusion: whoever is in a critical section is the lock's holder. */
  ghost predicate LockInv(ps: Processes, lock: Option<Pid>) {
    forall pid :: pid in ps && HoldsLock(ps[pid]) ==> lock == Some(pid)
  }

  /** A claim names a request of the process's own deployment and a token already issued. */
  ghost predicate ClaimValid(p: Process, rs: Requests, nextToken: nat)
    requires HasClaim(p)
  {
    p.request in rs && rs[p.request].dep == p.dep && p.token < nextToken
  }

  predicate SameClaim(p: Process, q: Process)
    requires HasClaim(p) && HasClaim(q)
  {
    p.request == q.request && p.token == q.token
  }

  /** No two processes hold claims on one request under the same token. */
  ghost predicate ClaimInv(ps: Processes, rs: Requests, nextToken: nat) {
    && (forall pid :: pid in ps && HasClaim(ps[pid]) ==> ClaimValid(ps[pid], rs, nextToken))
    && (forall a, b :: a in ps && b in ps && HasClaim(ps[a]) && HasClaim(ps[b]) ==>
          SameClaim(ps[a], ps[b]) ==> a == b)
  }

  /** The row a process works on has moved on from what its view says. */
  predicate Working(p: Process, node: string) {
    (p.Intent? || p.Accepted?) && p.node == node
  }

  ghost predicate ViewCurrent(p: Process, rows: Rows)
    requires HasView(p)
  {
    forall node :: node in p.view && !Working(p, node) ==>
      && Key(p.request, node) in rows
      && rows[Key(p.request, node)].state in {RowConnected, p.view[node].state}
  }

  predicate Latest(p: Process, rs: Requests)
    requires HasClaim(p)
  {
    p.request in rs && rs[p.request].token == p.token
  }

  /** While its token is the request's latest, a launcher's view is still accurate up to
      workers that have registered in the meantime. */
  ghost predicate ViewInv(ps: Processes, rs: Requests, rows: Rows) {
    forall pid :: pid in ps && HasView(ps[pid]) && Latest(ps[pid], rs) ==> ViewCurrent(ps[pid], rows)
  }

  ghost predicate RowSound(k: Key, row: Row, rs: Requests, jobs: Jobs) {
    && k.request in rs
    && (row.state in {RowPending, RowSubmitting} ==> row.job.None?)
    && (row.job.Some? ==> row.job.value in jobs && jobs[row.job.value].tag == Tag(rs[k.request].dep, Worker(k)))
  }

  ghost predicate RowsSound(rows: Rows, rs: Requests, jobs: Jobs) {
    forall k :: k in rows ==> RowSound(k, rows[k], rs, jobs)
  }

  ghost predicate ManifestSound(d: Dep, m: Manifest, jobs: Jobs) {
    && (m.submission == Submitted ==> m.controlJob.Some?)
    && (m.controlJob.Some? ==>
          m.submission != Prepared && m.controlJob.value in jobs && jobs[m.controlJob.value].tag == Tag(d, Control))
  }

  ghost predicate ManifestsSound(ms: Manifests, jobs: Jobs) {
    forall d :: d in ms ==> ManifestSound(d, ms[d], jobs)
  }

  /** A job's tag belongs to a deployment and, for workers, to a row on record. */
  ghost predicate TagKnown(t: Tag, ms: Manifests, rows: Rows, rs: Requests) {
    && t.dep in ms
    && (t.suffix.Worker? ==>
          t.suffix.key in rows && t.suffix.key.request in rs && rs[t.suffix.key.request].dep == t.dep)
  }

  ghost predicate JobsSound(jobs: Jobs, ms: Manifests, rows: Rows, rs: Requests) {
    forall j :: j in jobs ==> TagKnown(jobs[j].tag, ms, rows, rs)
  }

  predicate CarriesTag(j: JobId, t: Tag, jobs: Jobs) {
    j in jobs && jobs[j].tag == t
  }

  /** The job a process is about to record carries the tag it was submitted under. */
  ghost predicate ProcessSound(p: Process, ms: Manifests, rows: Rows, jobs: Jobs) {
    && (p.Guarded? ==> p.node in p.view && p.view[p.node].state == RowPending)
    && (p.Intent? || p.Accepted? ==> Key(p.request, p.node) in rows)
    && (p.Accepted? ==> CarriesTag(p.job, Tag(p.dep, Worker(Key(p.request, p.node))), jobs))
    && (p.UpAccepted? || p.Draining? || p.Drained? || p.Cancelling? ==> CarriesTag(p.job, Tag(p.dep, Control), jobs))
    && (!p.UpLocked? ==> p.dep in ms)
  }

  ghost predicate ProcessesSound(ps: Processes, ms: Manifests, rows: Rows, jobs: Jobs) {
    forall pid :: pid in ps ==> ProcessSound(ps[pid], ms, rows, jobs)
  }

  ghost predicate RequestsSound(rs: Requests, ms: Manifests) {
    forall r :: r in rs ==> rs[r].dep in ms
  }

  /** Requests and rows, and the jobs they name or that were submitted for them. */
  ghost predicate LedgerInv(ms: Manifests, rs: Requests, rows: Rows, jobs: Jobs) {
    RequestsSound(rs, ms) && RowsSound(rows, rs, jobs) && JobsSound(jobs, ms, rows, rs)
  }

  /** Manifests, the pointer and running processes, and the jobs they name. */
  ghost predicate HolderInv(current: Option<Dep>, ms: Manifests, ps: Processes, rows: Rows, jobs: Jobs) {
    && (current.Some? ==> current.value in ms)
    && ManifestsSound(ms, jobs) && ProcessesSound(ps, ms, rows, jobs)
  }

  /** Processes that have passed the guard act for a deployment that is not fenced. */
  predicate PastGuard(p: Process) {
    p.Guarded? || p.Intent? || p.UpReady? || p.UpSubmitting? || p.UpAccepted?
  }

  predicate Downing(p: Process) {
    p.Draining? || p.Drained? || p.Cancelling? || p.Finishing?
  }

  ghost predicate FenceInv(ps: Processes, ms: Manifests, current: Option<Dep>) {
    forall pid :: pid in ps ==>
      && (PastGuard(ps[pid]) ==> current == Some(ps[pid].dep) && ps[pid].dep in ms && !Stops(ms[ps[pid].dep]))
      && (Downing(ps[pid]) ==> ps[pid].dep in ms && Stops(ms[ps[pid].dep]))
  }

  // Tags

  /** Nothing has been committed to a submission under this tag. */
  predicate Uncommitted(t: Tag, ms: Manifests, rows: Rows) {
    match t.suffix
    case Control => t.dep in ms && ms[t.dep].submission == Prepared
    case Worker(k) => k in rows && rows[k].state == RowPending
  }

  /** Intent is on record and the submission itself is the next action. */
  predicate InFlight(p: Process) {
    p.Intent? || p.UpSubmitting?
  }

  function Submits(p: Process): Tag
    requires InFlight(p)
  {
    if p.Intent? then Tag(p.dep, Worker(Key(p.request, p.node))) else Tag(p.dep, Control)
  }

  /** At most one job beyond the operator's blind confirmations, and at most one active. */
  ghost predicate Once(t: Tag, jobs: Jobs, blind: map<Tag, nat>) {
    && |Tagged(jobs, t)| <= Blind(blind, t) + 1
    && (forall i, j :: i in Active(jobs, t) && j in Active(jobs, t) ==> i == j)
  }

  ghost predicate Unused(t: Tag, jobs: Jobs, blind: map<Tag, nat>) {
    |Tagged(jobs, t)| <= Blind(blind, t) && Active(jobs, t) == {}
  }

  ghost predicate AllOnce(jobs: Jobs, blind: map<Tag, nat>) {
    forall t :: Once(t, jobs, blind)
  }

  ghost predicate UncommittedUnused(ms: Manifests, rows: Rows, jobs: Jobs, blind: map<Tag, nat>) {
    forall t :: Uncommitted(t, ms, rows) ==> Unused(t, jobs, blind)
  }

  ghost predicate InFlightUnused(ps: Processes, ms: Manifests, rows: Rows, jobs: Jobs, blind: map<Tag, nat>) {
    forall pid :: pid in ps && InFlight(ps[pid]) ==>
      Unused(Submits(ps[pid]), jobs, blind) && !Uncommitted(Submits(ps[pid]), ms, rows)
  }

  ghost predicate TagInv(s: State) {
    && AllOnce(s.jobs, s.blind)
    && UncommittedUnused(s.manifests, s.rows, s.jobs, s.blind)
    && InFlightUnused(s.processes, s.manifests, s.rows, s.jobs, s.blind)
  }

  // Shutdown

  /** What a process relies on: `down` moves on only when the jobs it waited for are gone,
      and launchers run only where a control job was submitted. */
  ghost predicate Waits(p: Process, jobs: Jobs) {
    && (p.Drained? || p.Cancelling? ==> ActiveOf(jobs, p.dep) <= {p.job})
    && (p.Finishing? ==> ActiveOf(jobs, p.dep) == {})
    && (p.Watching? || HasClaim(p) ==> Tagged(jobs, Tag(p.dep, Control)) != {})
  }

  ghost predicate WaitInv(ps: Processes, jobs: Jobs) {
    forall pid :: pid in ps ==> Waits(ps[pid], jobs)
  }

  ghost predicate StopInv(ms: Manifests, jobs: Jobs, blind: map<Tag, nat>) {
    forall d :: d in ms && ms[d].state == Stopped ==>
      ActiveOf(jobs, d) == {} || Blind(blind, Tag(d, Control)) > 0
  }

  ghost predicate OriginInv(jobs: Jobs) {
    forall j :: j in jobs ==> Tagged(jobs, Tag(jobs[j].tag.dep, Control)) != {}
  }

  ghost predicate OrderInv(s: State) {
    && LockInv(s.processes, s.lock)
    && ClaimInv(s.processes, s.requests, s.nextToken)
    && ViewInv(s.processes, s.requests, s.rows)
    && FenceInv(s.processes, s.manifests, s.current)
    && LedgerInv(s.manifests, s.requests, s.rows, s.jobs)
    && HolderInv(s.current, s.manifests, s.processes, s.rows, s.jobs)
  }

  ghost predicate ShutdownInv(s: State) {
    WaitInv(s.processes, s.jobs) && StopInv(s.manifests, s.jobs, s.blind) && OriginInv(s.jobs)
  }

  /** Threads run inside control jobs of their deployment; `watch` found one on record. */
  ghost predicate HostSound(p: Process, ms: Manifests, jobs: Jobs)
    requires IsLauncher(p)
  {
    match p.host
    case Some(j) => CarriesTag(j, Tag(p.dep, Control), jobs)
    case None => p.dep in ms && ms[p.dep].controlJob.Some?
  }

  ghost predicate HostInv(ps: Processes, ms: Manifests, jobs: Jobs) {
    forall pid :: pid in ps && IsLauncher(ps[pid]) ==> HostSound(ps[pid], ms, jobs)
  }

  ghost predicate Inv(s: State) {
    OrderInv(s) && TagInv(s) && ShutdownInv(s) && HostInv(s.processes, s.manifests, s.jobs)
  }
}
