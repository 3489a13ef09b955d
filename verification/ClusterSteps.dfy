/** Every step of every actor keeps the cluster protocol's invariant. */
module ClusterSteps {
  import opened ClusterProtocol
  import opened ClusterInvariant

  lemma TaggedAfterAdd(jobs: Jobs, j: JobId, job: Job, t: Tag)
    requires j !in jobs
    ensures Tagged(jobs[j := job], t) == if job.tag == t then Tagged(jobs, t) + {j} else Tagged(jobs, t)
    ensures job.tag != t ==> Active(jobs[j := job], t) == Active(jobs, t)
    ensures |Tagged(jobs[j := job], t)| == |Tagged(jobs, t)| + if job.tag == t then 1 else 0
  {
    assert j !in Tagged(jobs, t);
  }

  /** Ending or being recorded never adds a job to a tag and never revives one. */
  lemma TaggedAfterUpdate(jobs: Jobs, j: JobId, job: Job, t: Tag)
    requires j in jobs && jobs[j].tag == job.tag && (jobs[j].terminal ==> job.terminal)
    ensures Tagged(jobs[j := job], t) == Tagged(jobs, t)
    ensures Active(jobs[j := job], t) <= Active(jobs, t)
  {}

  // Which steps keep what

  /** Launcher steps that report to the server, against those that only read or submit. */
  predicate Reports(l: LaunchStep) {
    l.RecordIntent? || l.RecordJob? || l.Adopt? || l.Fail?
  }

  /** A process that writes a row under the latest token leaves every other view accurate. */
  lemma OwnReport(s: State, pid: Pid, node: string, row: Row, q: Process)
    requires ClaimInv(s.processes, s.requests, s.nextToken) && ViewInv(s.processes, s.requests, s.rows)
    requires pid in s.processes && HasClaim(s.processes[pid]) && Latest(s.processes[pid], s.requests)
    requires Key(s.processes[pid].request, node) in s.rows
    requires HasView(q) ==> ViewCurrent(q, s.rows[Key(s.processes[pid].request, node) := row])
    ensures ViewInv(s.processes[pid := q], s.requests, s.rows[Key(s.processes[pid].request, node) := row])
  {
    var p := s.processes[pid];
    forall other | other in s.processes && other != pid && HasView(s.processes[other]) && Latest(s.processes[other], s.requests)
      ensures ViewCurrent(s.processes[other], s.rows[Key(p.request, node) := row])
    {
      assert !SameClaim(s.processes[other], p);
    }
  }

  lemma WorldKeepsLock(s: State, w: WorldStep)
    requires LockInv(s.processes, s.lock)
    requires WorldEnabled(s, w)
    ensures var t := WorldNext(s, w); LockInv(t.processes, t.lock)
  {}

  lemma PassKeepsLock(s: State, pid: Pid, l: LaunchStep)
    requires LockInv(s.processes, s.lock)
    requires LaunchEnabled(s, pid, l) && !Reports(l)
    ensures var t := LaunchNext(s, pid, l); LockInv(t.processes, t.lock)
  {}

  lemma ReportKeepsLock(s: State, pid: Pid, l: LaunchStep)
    requires LockInv(s.processes, s.lock)
    requires LaunchEnabled(s, pid, l) && Reports(l)
    ensures var t := LaunchNext(s, pid, l); LockInv(t.processes, t.lock)
  {}

  lemma RepairKeepsLock(s: State, pid: Pid, r: RepairStep)
    requires LockInv(s.processes, s.lock)
    requires RepairEnabled(s, pid, r)
    ensures var t := RepairNext(s, pid, r); LockInv(t.processes, t.lock)
  {}

  lemma UpKeepsLock(s: State, pid: Pid, u: UpStep)
    requires LockInv(s.processes, s.lock)
    requires UpEnabled(s, pid, u)
    ensures var t := UpNext(s, pid, u); LockInv(t.processes, t.lock)
  {}

  lemma DownKeepsLock(s: State, pid: Pid, d: DownStep)
    requires LockInv(s.processes, s.lock)
    requires DownEnabled(s, pid, d)
    ensures var t := DownNext(s, pid, d); LockInv(t.processes, t.lock)
  {}

  lemma ControlKeepsLock(s: State, c: ControlStep)
    requires LockInv(s.processes, s.lock)
    requires ControlEnabled(s, c)
    ensures var t := ControlNext(s, c); LockInv(t.processes, t.lock)
  {}

  lemma WorldKeepsClaim(s: State, w: WorldStep)
    requires ClaimInv(s.processes, s.requests, s.nextToken)
    requires WorldEnabled(s, w)
    ensures var t := WorldNext(s, w); ClaimInv(t.processes, t.requests, t.nextToken)
  {}

  lemma PassKeepsClaim(s: State, pid: Pid, l: LaunchStep)
    requires ClaimInv(s.processes, s.requests, s.nextToken)
    requires LaunchEnabled(s, pid, l) && !Reports(l)
    ensures var t := LaunchNext(s, pid, l); ClaimInv(t.processes, t.requests, t.nextToken)
  {
    if l.Claim? {
      ClaimIsNew(s, pid, l.request);
    }
  }

  /** A claim is under a token nobody has had. */
  lemma ClaimIsNew(s: State, pid: Pid, r: nat)
    requires ClaimInv(s.processes, s.requests, s.nextToken)
    requires LaunchEnabled(s, pid, Claim(r))
    ensures var t := LaunchNext(s, pid, Claim(r)); ClaimInv(t.processes, t.requests, t.nextToken)
  {}

  lemma ReportKeepsClaim(s: State, pid: Pid, l: LaunchStep)
    requires ClaimInv(s.processes, s.requests, s.nextToken)
    requires LaunchEnabled(s, pid, l) && Reports(l)
    ensures var t := LaunchNext(s, pid, l); ClaimInv(t.processes, t.requests, t.nextToken)
  {}

  lemma RepairKeepsClaim(s: State, pid: Pid, r: RepairStep)
    requires ClaimInv(s.processes, s.requests, s.nextToken)
    requires RepairEnabled(s, pid, r)
    ensures var t := RepairNext(s, pid, r); ClaimInv(t.processes, t.requests, t.nextToken)
  {}

  lemma UpKeepsClaim(s: State, pid: Pid, u: UpStep)
    requires ClaimInv(s.processes, s.requests, s.nextToken)
    requires UpEnabled(s, pid, u)
    ensures var t := UpNext(s, pid, u); ClaimInv(t.processes, t.requests, t.nextToken)
  {}

  lemma DownKeepsClaim(s: State, pid: Pid, d: DownStep)
    requires ClaimInv(s.processes, s.requests, s.nextToken)
    requires DownEnabled(s, pid, d)
    ensures var t := DownNext(s, pid, d); ClaimInv(t.processes, t.requests, t.nextToken)
  {}

  lemma ControlKeepsClaim(s: State, c: ControlStep)
    requires ClaimInv(s.processes, s.requests, s.nextToken)
    requires ControlEnabled(s, c)
    ensures var t := ControlNext(s, c); ClaimInv(t.processes, t.requests, t.nextToken)
  {}

  lemma WorldKeepsView(s: State, w: WorldStep)
    requires ClaimInv(s.processes, s.requests, s.nextToken) && ViewInv(s.processes, s.requests, s.rows)
    requires RowsSound(s.rows, s.requests, s.jobs) && ProcessesSound(s.processes, s.manifests, s.rows, s.jobs)
    requires WorldEnabled(s, w)
    ensures var t := WorldNext(s, w); ViewInv(t.processes, t.requests, t.rows)
  {}

  lemma PassKeepsView(s: State, pid: Pid, l: LaunchStep)
    requires ClaimInv(s.processes, s.requests, s.nextToken) && ViewInv(s.processes, s.requests, s.rows)
    requires RowsSound(s.rows, s.requests, s.jobs) && ProcessesSound(s.processes, s.manifests, s.rows, s.jobs)
    requires LaunchEnabled(s, pid, l) && !Reports(l)
    ensures var t := LaunchNext(s, pid, l); ViewInv(t.processes, t.requests, t.rows)
  {}

  /** The row a report is about. */
  function ReportedNode(p: Process, l: LaunchStep): string
  {
    if l.Adopt? || l.Fail? then l.node else if p.Guarded? || p.Accepted? then p.node else ""
  }

  /** A report is made under the latest token, and writes one row. */
  lemma ReportWritesOneRow(s: State, pid: Pid, l: LaunchStep)
    requires LaunchEnabled(s, pid, l) && Reports(l)
    ensures var p, t := s.processes[pid], LaunchNext(s, pid, l);
      && HasClaim(p) && Latest(p, s.requests)
      && var k := Key(p.request, ReportedNode(p, l));
         && k in s.rows && k in t.rows && t.rows == s.rows[k := t.rows[k]]
         && t.requests == s.requests && t.processes == s.processes[pid := t.processes[pid]]
  {}

  lemma ReporterSees(s: State, pid: Pid, l: LaunchStep)
    requires ViewInv(s.processes, s.requests, s.rows) && ProcessesSound(s.processes, s.manifests, s.rows, s.jobs)
    requires LaunchEnabled(s, pid, l) && Reports(l)
    ensures var t := LaunchNext(s, pid, l); HasView(t.processes[pid]) ==> ViewCurrent(t.processes[pid], t.rows)
  {
    assert ViewCurrent(s.processes[pid], s.rows);
  }

  lemma ReportKeepsView(s: State, pid: Pid, l: LaunchStep)
    requires ClaimInv(s.processes, s.requests, s.nextToken) && ViewInv(s.processes, s.requests, s.rows)
    requires RowsSound(s.rows, s.requests, s.jobs) && ProcessesSound(s.processes, s.manifests, s.rows, s.jobs)
    requires LaunchEnabled(s, pid, l) && Reports(l)
    ensures var t := LaunchNext(s, pid, l); ViewInv(t.processes, t.requests, t.rows)
  {
    ReporterSees(s, pid, l);
    ReportWritesOneRow(s, pid, l);
    var p, t := s.processes[pid], LaunchNext(s, pid, l);
    var node := ReportedNode(p, l);
    OwnReport(s, pid, node, t.rows[Key(p.request, node)], t.processes[pid]);
  }

  lemma RepairKeepsView(s: State, pid: Pid, r: RepairStep)
    requires ClaimInv(s.processes, s.requests, s.nextToken) && ViewInv(s.processes, s.requests, s.rows)
    requires RowsSound(s.rows, s.requests, s.jobs) && ProcessesSound(s.processes, s.manifests, s.rows, s.jobs)
    requires RepairEnabled(s, pid, r)
    ensures var t := RepairNext(s, pid, r); ViewInv(t.processes, t.requests, t.rows)
  {}

  lemma UpKeepsView(s: State, pid: Pid, u: UpStep)
    requires ClaimInv(s.processes, s.requests, s.nextToken) && ViewInv(s.processes, s.requests, s.rows)
    requires RowsSound(s.rows, s.requests, s.jobs) && ProcessesSound(s.processes, s.manifests, s.rows, s.jobs)
    requires UpEnabled(s, pid, u)
    ensures var t := UpNext(s, pid, u); ViewInv(t.processes, t.requests, t.rows)
  {}

  lemma DownKeepsView(s: State, pid: Pid, d: DownStep)
    requires ClaimInv(s.processes, s.requests, s.nextToken) && ViewInv(s.processes, s.requests, s.rows)
    requires RowsSound(s.rows, s.requests, s.jobs) && ProcessesSound(s.processes, s.manifests, s.rows, s.jobs)
    requires DownEnabled(s, pid, d)
    ensures var t := DownNext(s, pid, d); ViewInv(t.processes, t.requests, t.rows)
  {}

  lemma ControlKeepsView(s: State, c: ControlStep)
    requires ClaimInv(s.processes, s.requests, s.nextToken) && ViewInv(s.processes, s.requests, s.rows)
    requires RowsSound(s.rows, s.requests, s.jobs) && ProcessesSound(s.processes, s.manifests, s.rows, s.jobs)
    requires ControlEnabled(s, c)
    ensures var t := ControlNext(s, c); ViewInv(t.processes, t.requests, t.rows)
  {}

  lemma WorldKeepsFence(s: State, w: WorldStep)
    requires FenceInv(s.processes, s.manifests, s.current) && LockInv(s.processes, s.lock)
    requires ManifestsSound(s.manifests, s.jobs) && ProcessesSound(s.processes, s.manifests, s.rows, s.jobs)
    requires WorldEnabled(s, w)
    ensures var t := WorldNext(s, w); FenceInv(t.processes, t.manifests, t.current)
  {}

  lemma PassKeepsFence(s: State, pid: Pid, l: LaunchStep)
    requires FenceInv(s.processes, s.manifests, s.current) && LockInv(s.processes, s.lock)
    requires ManifestsSound(s.manifests, s.jobs) && ProcessesSound(s.processes, s.manifests, s.rows, s.jobs)
    requires LaunchEnabled(s, pid, l) && !Reports(l)
    ensures var t := LaunchNext(s, pid, l); FenceInv(t.processes, t.manifests, t.current)
  {}

  lemma ReportKeepsFence(s: State, pid: Pid, l: LaunchStep)
    requires FenceInv(s.processes, s.manifests, s.current) && LockInv(s.processes, s.lock)
    requires ManifestsSound(s.manifests, s.jobs) && ProcessesSound(s.processes, s.manifests, s.rows, s.jobs)
    requires LaunchEnabled(s, pid, l) && Reports(l)
    ensures var t := LaunchNext(s, pid, l); FenceInv(t.processes, t.manifests, t.current)
  {}

  lemma RepairKeepsFence(s: State, pid: Pid, r: RepairStep)
    requires FenceInv(s.processes, s.manifests, s.current) && LockInv(s.processes, s.lock)
    requires ManifestsSound(s.manifests, s.jobs) && ProcessesSound(s.processes, s.manifests, s.rows, s.jobs)
    requires RepairEnabled(s, pid, r)
    ensures var t := RepairNext(s, pid, r); FenceInv(t.processes, t.manifests, t.current)
  {}

  lemma UpKeepsFence(s: State, pid: Pid, u: UpStep)
    requires FenceInv(s.processes, s.manifests, s.current) && LockInv(s.processes, s.lock)
    requires ManifestsSound(s.manifests, s.jobs) && ProcessesSound(s.processes, s.manifests, s.rows, s.jobs)
    requires UpEnabled(s, pid, u)
    ensures var t := UpNext(s, pid, u); FenceInv(t.processes, t.manifests, t.current)
  {}

  lemma DownKeepsFence(s: State, pid: Pid, d: DownStep)
    requires FenceInv(s.processes, s.manifests, s.current) && LockInv(s.processes, s.lock)
    requires ManifestsSound(s.manifests, s.jobs) && ProcessesSound(s.processes, s.manifests, s.rows, s.jobs)
    requires DownEnabled(s, pid, d)
    ensures var t := DownNext(s, pid, d); FenceInv(t.processes, t.manifests, t.current)
  {}

  lemma ControlKeepsFence(s: State, c: ControlStep)
    requires FenceInv(s.processes, s.manifests, s.current) && LockInv(s.processes, s.lock)
    requires ManifestsSound(s.manifests, s.jobs) && ProcessesSound(s.processes, s.manifests, s.rows, s.jobs)
    requires ControlEnabled(s, c)
    ensures var t := ControlNext(s, c); FenceInv(t.processes, t.manifests, t.current)
  {}

  lemma WorldKeepsLedger(s: State, w: WorldStep)
    requires LedgerInv(s.manifests, s.requests, s.rows, s.jobs) && WorldEnabled(s, w)
    ensures var t := WorldNext(s, w); LedgerInv(t.manifests, t.requests, t.rows, t.jobs)
  {
    if w.RequestCreated? {
      CreationKeepsLedger(s, w.request, w.dep, w.nodes);
    }
  }

  lemma CreationKeepsLedger(s: State, r: nat, d: Dep, nodes: set<string>)
    requires LedgerInv(s.manifests, s.requests, s.rows, s.jobs) && WorldEnabled(s, RequestCreated(r, d, nodes))
    ensures var t := WorldNext(s, RequestCreated(r, d, nodes)); LedgerInv(t.manifests, t.requests, t.rows, t.jobs)
  {}

  lemma PassKeepsLedger(s: State, pid: Pid, l: LaunchStep)
    requires LedgerInv(s.manifests, s.requests, s.rows, s.jobs) && ClaimInv(s.processes, s.requests, s.nextToken)
    requires ProcessesSound(s.processes, s.manifests, s.rows, s.jobs)
    requires LaunchEnabled(s, pid, l) && !Reports(l)
    ensures var t := LaunchNext(s, pid, l); LedgerInv(t.manifests, t.requests, t.rows, t.jobs)
  {}

  lemma ReportKeepsLedger(s: State, pid: Pid, l: LaunchStep)
    requires LedgerInv(s.manifests, s.requests, s.rows, s.jobs) && ClaimInv(s.processes, s.requests, s.nextToken)
    requires ProcessesSound(s.processes, s.manifests, s.rows, s.jobs)
    requires LaunchEnabled(s, pid, l) && Reports(l)
    ensures var t := LaunchNext(s, pid, l); LedgerInv(t.manifests, t.requests, t.rows, t.jobs)
  {}

  lemma RepairKeepsLedger(s: State, pid: Pid, r: RepairStep)
    requires LedgerInv(s.manifests, s.requests, s.rows, s.jobs) && ClaimInv(s.processes, s.requests, s.nextToken)
    requires ProcessesSound(s.processes, s.manifests, s.rows, s.jobs)
    requires RepairEnabled(s, pid, r)
    ensures var t := RepairNext(s, pid, r); LedgerInv(t.manifests, t.requests, t.rows, t.jobs)
  {}

  lemma UpKeepsLedger(s: State, pid: Pid, u: UpStep)
    requires LedgerInv(s.manifests, s.requests, s.rows, s.jobs) && ClaimInv(s.processes, s.requests, s.nextToken)
    requires ProcessesSound(s.processes, s.manifests, s.rows, s.jobs)
    requires UpEnabled(s, pid, u)
    ensures var t := UpNext(s, pid, u); LedgerInv(t.manifests, t.requests, t.rows, t.jobs)
  {}

  lemma DownKeepsLedger(s: State, pid: Pid, d: DownStep)
    requires LedgerInv(s.manifests, s.requests, s.rows, s.jobs) && ClaimInv(s.processes, s.requests, s.nextToken)
    requires ProcessesSound(s.processes, s.manifests, s.rows, s.jobs)
    requires DownEnabled(s, pid, d)
    ensures var t := DownNext(s, pid, d); LedgerInv(t.manifests, t.requests, t.rows, t.jobs)
  {}

  lemma ControlKeepsLedger(s: State, c: ControlStep)
    requires LedgerInv(s.manifests, s.requests, s.rows, s.jobs) && ClaimInv(s.processes, s.requests, s.nextToken)
    requires ProcessesSound(s.processes, s.manifests, s.rows, s.jobs)
    requires ControlEnabled(s, c)
    ensures var t := ControlNext(s, c); LedgerInv(t.manifests, t.requests, t.rows, t.jobs)
  {}

  lemma WorldKeepsHolder(s: State, w: WorldStep)
    requires HolderInv(s.current, s.manifests, s.processes, s.rows, s.jobs) && RequestsSound(s.requests, s.manifests)
    requires WorldEnabled(s, w)
    ensures var t := WorldNext(s, w); HolderInv(t.current, t.manifests, t.processes, t.rows, t.jobs)
  {}

  /** A launcher leaves manifests alone, and jobs only get more. */
  lemma LaunchKeepsManifests(s: State, pid: Pid, l: LaunchStep)
    requires ManifestsSound(s.manifests, s.jobs) && LaunchEnabled(s, pid, l)
    ensures var t := LaunchNext(s, pid, l);
      t.manifests == s.manifests && t.current == s.current && ManifestsSound(t.manifests, t.jobs)
  {}

  lemma PassKeepsProcesses(s: State, pid: Pid, l: LaunchStep)
    requires ProcessesSound(s.processes, s.manifests, s.rows, s.jobs) && RequestsSound(s.requests, s.manifests)
    requires LaunchEnabled(s, pid, l) && !Reports(l)
    ensures var t := LaunchNext(s, pid, l); ProcessesSound(t.processes, s.manifests, t.rows, t.jobs)
  {}

  lemma PassKeepsHolder(s: State, pid: Pid, l: LaunchStep)
    requires HolderInv(s.current, s.manifests, s.processes, s.rows, s.jobs) && RequestsSound(s.requests, s.manifests)
    requires LaunchEnabled(s, pid, l) && !Reports(l)
    ensures var t := LaunchNext(s, pid, l); HolderInv(t.current, t.manifests, t.processes, t.rows, t.jobs)
  {
    LaunchKeepsManifests(s, pid, l);
    PassKeepsProcesses(s, pid, l);
  }

  lemma ReportKeepsProcesses(s: State, pid: Pid, l: LaunchStep)
    requires ProcessesSound(s.processes, s.manifests, s.rows, s.jobs)
    requires LaunchEnabled(s, pid, l) && Reports(l)
    ensures var t := LaunchNext(s, pid, l); ProcessesSound(t.processes, s.manifests, t.rows, t.jobs)
  {}

  lemma ReportKeepsHolder(s: State, pid: Pid, l: LaunchStep)
    requires HolderInv(s.current, s.manifests, s.processes, s.rows, s.jobs)
    requires LaunchEnabled(s, pid, l) && Reports(l)
    ensures var t := LaunchNext(s, pid, l); HolderInv(t.current, t.manifests, t.processes, t.rows, t.jobs)
  {
    LaunchKeepsManifests(s, pid, l);
    ReportKeepsProcesses(s, pid, l);
  }

  lemma RepairKeepsHolder(s: State, pid: Pid, r: RepairStep)
    requires HolderInv(s.current, s.manifests, s.processes, s.rows, s.jobs) && RequestsSound(s.requests, s.manifests)
    requires RepairEnabled(s, pid, r)
    ensures var t := RepairNext(s, pid, r); HolderInv(t.current, t.manifests, t.processes, t.rows, t.jobs)
  {}

  lemma UpKeepsHolder(s: State, pid: Pid, u: UpStep)
    requires HolderInv(s.current, s.manifests, s.processes, s.rows, s.jobs) && RequestsSound(s.requests, s.manifests)
    requires UpEnabled(s, pid, u)
    ensures var t := UpNext(s, pid, u); HolderInv(t.current, t.manifests, t.processes, t.rows, t.jobs)
  {}

  lemma DownKeepsHolder(s: State, pid: Pid, d: DownStep)
    requires HolderInv(s.current, s.manifests, s.processes, s.rows, s.jobs) && RequestsSound(s.requests, s.manifests)
    requires DownEnabled(s, pid, d)
    ensures var t := DownNext(s, pid, d); HolderInv(t.current, t.manifests, t.processes, t.rows, t.jobs)
  {}

  lemma ControlKeepsHolder(s: State, c: ControlStep)
    requires HolderInv(s.current, s.manifests, s.processes, s.rows, s.jobs) && RequestsSound(s.requests, s.manifests)
    requires ControlEnabled(s, c)
    ensures var t := ControlNext(s, c); HolderInv(t.current, t.manifests, t.processes, t.rows, t.jobs)
  {}

  /** Steps that submit nothing and confirm nothing: what counts is which tags become
      uncommitted and which processes get in flight. */
  lemma TagsShift(s: State, t: State)
    requires TagInv(s) && t.jobs == s.jobs && t.blind == s.blind
    requires forall u :: Uncommitted(u, t.manifests, t.rows) && !Uncommitted(u, s.manifests, s.rows) ==>
      Unused(u, s.jobs, s.blind) &&
      forall pid :: pid in t.processes && InFlight(t.processes[pid]) ==> Submits(t.processes[pid]) != u
    requires forall pid :: (pid in t.processes && InFlight(t.processes[pid]) &&
                            (pid !in s.processes || s.processes[pid] != t.processes[pid])) ==>
        Unused(Submits(t.processes[pid]), s.jobs, s.blind) &&
        !Uncommitted(Submits(t.processes[pid]), t.manifests, t.rows)
    ensures TagInv(t)
  {}

  lemma NoJobsUnused(u: Tag, jobs: Jobs, blind: map<Tag, nat>)
    requires forall j :: j in jobs ==> jobs[j].tag != u
    ensures Unused(u, jobs, blind)
  {
    assert Tagged(jobs, u) == {};
  }

  /** Ending and being recorded. */
  lemma TagsJobUpdate(s: State, j: JobId, job: Job)
    requires TagInv(s) && j in s.jobs && s.jobs[j].tag == job.tag && (s.jobs[j].terminal ==> job.terminal)
    ensures TagInv(s.(jobs := s.jobs[j := job]))
  {
    var jobs := s.jobs[j := job];
    forall u
      ensures Once(u, jobs, s.blind)
      ensures Unused(u, s.jobs, s.blind) ==> Unused(u, jobs, s.blind)
    {
      TaggedAfterUpdate(s.jobs, j, job, u);
      assert Once(u, s.jobs, s.blind);
    }
  }

  lemma AddedOnce(jobs: Jobs, blind: map<Tag, nat>, j: JobId, tag: Tag, added: Jobs)
    requires AllOnce(jobs, blind) && Unused(tag, jobs, blind) && j !in jobs && added == jobs[j := Job(tag, false, false)]
    ensures AllOnce(added, blind)
    ensures forall u :: u != tag && Unused(u, jobs, blind) ==> Unused(u, added, blind)
  {
    forall u
      ensures Once(u, added, blind)
      ensures u != tag && Unused(u, jobs, blind) ==> Unused(u, added, blind)
    {
      TaggedAfterAdd(jobs, j, Job(tag, false, false), u);
      assert Once(u, jobs, blind);
      assert u == tag ==> Active(added, u) == {j};
    }
  }

  /** The submission itself: intent is on record, so this is the tag's one job. */
  lemma TagsSubmit(s: State, pid: Pid, j: JobId, q: Process)
    requires TagInv(s) && LockInv(s.processes, s.lock)
    requires pid in s.processes && InFlight(s.processes[pid]) && j !in s.jobs && !InFlight(q)
    ensures TagInv(SetProcess(AddJob(s, j, Submits(s.processes[pid])), pid, q))
  {
    var tag := Submits(s.processes[pid]);
    var added := s.jobs[j := Job(tag, false, false)];
    AddedOnce(s.jobs, s.blind, j, tag, added);
    forall u | Uncommitted(u, s.manifests, s.rows) ensures Unused(u, added, s.blind) {
      assert u != tag && Unused(u, s.jobs, s.blind);
    }
    assert forall other :: other in s.processes && other != pid ==> !InFlight(s.processes[other]);
  }

  /** The operator's confirmation reopens a tag that `find` shows nothing for. */
  lemma TagsConfirm(s: State, t: State, u: Tag)
    requires TagInv(s) && Find(s.jobs, u) == {}
    requires t.jobs == s.jobs && t.blind == Confirm(s, u).blind
    requires forall v :: Uncommitted(v, t.manifests, t.rows) ==> Uncommitted(v, s.manifests, s.rows) || v.suffix == u.suffix
    requires forall v: Tag :: v.suffix == u.suffix && v != u && Uncommitted(v, t.manifests, t.rows) ==>
      Uncommitted(v, s.manifests, s.rows) || Unused(v, s.jobs, s.blind)
    requires t.processes == s.processes && forall pid :: pid in s.processes ==> !InFlight(s.processes[pid])
    ensures TagInv(t)
  {
    assert Unused(u, t.jobs, t.blind) by {
      assert Once(u, s.jobs, s.blind);
    }
    forall v ensures Once(v, t.jobs, t.blind) && (Unused(v, s.jobs, s.blind) ==> Unused(v, t.jobs, t.blind)) {
      assert Once(v, s.jobs, s.blind);
    }
  }

  lemma WorldKeepsTags(s: State, w: WorldStep)
    requires OrderInv(s) && TagInv(s) && WorldEnabled(s, w)
    ensures TagInv(WorldNext(s, w))
  {
    match w
    case JobEnds(j) => TagsJobUpdate(s, j, s.jobs[j].(terminal := true));
    case JobRecorded(j) => TagsJobUpdate(s, j, s.jobs[j].(recorded := true));
    case RequestCreated(r, d, nodes) => CreationKeepsTags(s, r, d, nodes);
    case _ => TagsShift(s, WorldNext(s, w));
  }

  /** The rows of a new request are under keys no job has. */
  lemma CreationKeepsTags(s: State, r: nat, d: Dep, nodes: set<string>)
    requires OrderInv(s) && TagInv(s) && WorldEnabled(s, RequestCreated(r, d, nodes))
    ensures TagInv(WorldNext(s, RequestCreated(r, d, nodes)))
  {
    var t := WorldNext(s, RequestCreated(r, d, nodes));
    forall u | Uncommitted(u, t.manifests, t.rows) && !Uncommitted(u, s.manifests, s.rows)
      ensures Unused(u, s.jobs, s.blind)
    {
      assert u.suffix.Worker? && u.suffix.key.request == r;
      NoJobsUnused(u, s.jobs, s.blind);
    }
    TagsShift(s, t);
  }

  lemma PassKeepsTags(s: State, pid: Pid, l: LaunchStep)
    requires LockInv(s.processes, s.lock) && TagInv(s)
    requires LaunchEnabled(s, pid, l) && !Reports(l)
    ensures TagInv(LaunchNext(s, pid, l))
  {
    if l.SubmitWorker? {
      TagsSubmit(s, pid, l.job, LaunchNext(s, pid, l).processes[pid]);
    } else {
      TagsShift(s, LaunchNext(s, pid, l));
    }
  }

  lemma ReportKeepsTags(s: State, pid: Pid, l: LaunchStep)
    requires ViewInv(s.processes, s.requests, s.rows) && TagInv(s)
    requires ProcessesSound(s.processes, s.manifests, s.rows, s.jobs)
    requires LaunchEnabled(s, pid, l) && Reports(l)
    ensures TagInv(LaunchNext(s, pid, l))
  {
    if l.RecordIntent? {
      IntentKeepsTags(s, pid);
    } else {
      TagsShift(s, LaunchNext(s, pid, l));
    }
  }

  /** Intent is recorded for a row that is still pending, so there is no job for it. */
  lemma IntentKeepsTags(s: State, pid: Pid)
    requires ViewInv(s.processes, s.requests, s.rows) && TagInv(s)
    requires ProcessesSound(s.processes, s.manifests, s.rows, s.jobs)
    requires LaunchEnabled(s, pid, RecordIntent)
    ensures TagInv(LaunchNext(s, pid, RecordIntent))
  {
    var p := s.processes[pid];
    assert ViewCurrent(p, s.rows);
    assert Uncommitted(Tag(p.dep, Worker(Key(p.request, p.node))), s.manifests, s.rows);
    TagsShift(s, LaunchNext(s, pid, RecordIntent));
  }

  lemma RepairKeepsTags(s: State, pid: Pid, r: RepairStep)
    requires LockInv(s.processes, s.lock) && ClaimInv(s.processes, s.requests, s.nextToken) && TagInv(s)
    requires JobsSound(s.jobs, s.manifests, s.rows, s.requests)
    requires RepairEnabled(s, pid, r)
    ensures TagInv(RepairNext(s, pid, r))
  {
    if r.ConfirmAbsent? {
      ConfirmKeepsTags(s, pid, r.node);
    } else {
      TagsShift(s, RepairNext(s, pid, r));
    }
  }

  lemma ConfirmKeepsTags(s: State, pid: Pid, node: string)
    requires LockInv(s.processes, s.lock) && ClaimInv(s.processes, s.requests, s.nextToken) && TagInv(s)
    requires JobsSound(s.jobs, s.manifests, s.rows, s.requests)
    requires RepairEnabled(s, pid, ConfirmAbsent(node))
    ensures TagInv(RepairNext(s, pid, ConfirmAbsent(node)))
  {
    var p := s.processes[pid];
    var u := Tag(p.dep, Worker(Key(p.request, node)));
    forall v: Tag | v.suffix == u.suffix && v != u ensures Unused(v, s.jobs, s.blind) {
      NoJobsUnused(v, s.jobs, s.blind);
    }
    TagsConfirm(s, RepairNext(s, pid, ConfirmAbsent(node)), u);
  }

  lemma UpKeepsTags(s: State, pid: Pid, u: UpStep)
    requires LockInv(s.processes, s.lock) && TagInv(s)
    requires JobsSound(s.jobs, s.manifests, s.rows, s.requests)
    requires ProcessesSound(s.processes, s.manifests, s.rows, s.jobs)
    requires UpEnabled(s, pid, u)
    ensures TagInv(UpNext(s, pid, u))
  {
    match u
    case SubmitControl(j) => TagsSubmit(s, pid, j, UpNext(s, pid, u).processes[pid]);
    case Create(d) => CreateKeepsTags(s, pid, d);
    case IntendControl => IntendKeepsTags(s, pid);
    case _ => TagsShift(s, UpNext(s, pid, u));
  }

  lemma IntendKeepsTags(s: State, pid: Pid)
    requires TagInv(s) && UpEnabled(s, pid, IntendControl)
    ensures TagInv(UpNext(s, pid, IntendControl))
  {
    assert Uncommitted(Tag(s.processes[pid].dep, Suffix.Control), s.manifests, s.rows);
    TagsShift(s, UpNext(s, pid, IntendControl));
  }

  lemma CreateKeepsTags(s: State, pid: Pid, d: Dep)
    requires LockInv(s.processes, s.lock) && TagInv(s)
    requires JobsSound(s.jobs, s.manifests, s.rows, s.requests)
    requires ProcessesSound(s.processes, s.manifests, s.rows, s.jobs)
    requires UpEnabled(s, pid, Create(d))
    ensures TagInv(UpNext(s, pid, Create(d)))
  {
    NoJobsUnused(Tag(d, Suffix.Control), s.jobs, s.blind);
    TagsShift(s, UpNext(s, pid, Create(d)));
  }

  lemma DownKeepsTags(s: State, pid: Pid, d: DownStep)
    requires TagInv(s)
    requires DownEnabled(s, pid, d)
    ensures TagInv(DownNext(s, pid, d))
  {
    TagsShift(s, DownNext(s, pid, d));
  }

  lemma ControlKeepsTags(s: State, c: ControlStep)
    requires LockInv(s.processes, s.lock) && TagInv(s)
    requires ControlEnabled(s, c)
    ensures TagInv(ControlNext(s, c))
  {
    if c.ResolveAbsent? {
      TagsConfirm(s, ControlNext(s, c), Tag(s.current.value, Suffix.Control));
    } else {
      TagsShift(s, ControlNext(s, c));
    }
  }

  /** A job ends or reaches accounting. */
  lemma ShutdownJobUpdate(s: State, j: JobId, job: Job)
    requires ShutdownInv(s) && j in s.jobs && s.jobs[j].tag == job.tag && (s.jobs[j].terminal ==> job.terminal)
    ensures ShutdownInv(s.(jobs := s.jobs[j := job]))
  {
    var jobs := s.jobs[j := job];
    assert forall d :: ActiveOf(jobs, d) <= ActiveOf(s.jobs, d);
    assert forall u :: Tagged(jobs, u) == Tagged(s.jobs, u);
  }

  /** What a new job changes: its tag has one more, other deployments are as before. */
  lemma SubmissionFrame(jobs: Jobs, j: JobId, tag: Tag, added: Jobs)
    requires j !in jobs && added == jobs[j := Job(tag, false, false)]
    ensures j in Tagged(added, tag) && forall u :: Tagged(jobs, u) <= Tagged(added, u)
    ensures forall d :: d != tag.dep ==> ActiveOf(added, d) == ActiveOf(jobs, d)
  {}

  lemma SubmissionKeepsOrigin(jobs: Jobs, j: JobId, tag: Tag, added: Jobs)
    requires OriginInv(jobs) && j !in jobs && added == jobs[j := Job(tag, false, false)]
    requires Tagged(added, Tag(tag.dep, Suffix.Control)) != {}
    ensures OriginInv(added)
  {
    SubmissionFrame(jobs, j, tag, added);
  }

  lemma SubmissionKeepsWaits(ps: Processes, jobs: Jobs, pid: Pid, j: JobId, tag: Tag, added: Jobs, q: Process)
    requires WaitInv(ps, jobs) && j !in jobs && added == jobs[j := Job(tag, false, false)]
    requires forall other :: other in ps && Downing(ps[other]) ==> ps[other].dep != tag.dep
    requires Waits(q, added)
    ensures WaitInv(ps[pid := q], added)
  {
    SubmissionFrame(jobs, j, tag, added);
    forall other | other in ps ensures Waits(ps[other], added) {
      assert Waits(ps[other], jobs);
    }
  }

  /** A submission goes to a deployment that is not stopping, so nobody waits for its jobs. */
  lemma ShutdownSubmit(s: State, pid: Pid, j: JobId, q: Process)
    requires ShutdownInv(s) && FenceInv(s.processes, s.manifests, s.current)
    requires pid in s.processes && InFlight(s.processes[pid]) && j !in s.jobs
    requires q.UpAccepted? || (q.Accepted? && s.processes[pid].Intent?)
    requires q.dep == s.processes[pid].dep
    ensures ShutdownInv(SetProcess(AddJob(s, j, Submits(s.processes[pid])), pid, q))
  {
    var tag := Submits(s.processes[pid]);
    var added := s.jobs[j := Job(tag, false, false)];
    SubmissionFrame(s.jobs, j, tag, added);
    assert Waits(s.processes[pid], s.jobs);
    assert Tagged(s.jobs, Tag(tag.dep, Suffix.Control)) <= Tagged(added, Tag(tag.dep, Suffix.Control));
    SubmissionKeepsOrigin(s.jobs, j, tag, added);
    SubmissionKeepsWaits(s.processes, s.jobs, pid, j, tag, added, q);
  }

  lemma WorldKeepsShutdown(s: State, w: WorldStep)
    requires ShutdownInv(s) && WorldEnabled(s, w)
    ensures ShutdownInv(WorldNext(s, w))
  {
    match w
    case JobEnds(j) => ShutdownJobUpdate(s, j, s.jobs[j].(terminal := true));
    case JobRecorded(j) => ShutdownJobUpdate(s, j, s.jobs[j].(recorded := true));
    case _ =>
  }

  lemma PassKeepsWaits(s: State, pid: Pid, l: LaunchStep)
    requires WaitInv(s.processes, s.jobs) && LaunchEnabled(s, pid, l) && !l.SubmitWorker? && !Reports(l)
    ensures var t := LaunchNext(s, pid, l);
      WaitInv(t.processes, s.jobs) && t.jobs == s.jobs && t.manifests == s.manifests && t.blind == s.blind
  {
    if l.Start? {
      var j := if l.host.Some? then l.host.value else s.manifests[l.dep].controlJob.value;
      assert j in Tagged(s.jobs, Tag(l.dep, Suffix.Control));
    }
  }

  lemma PassKeepsShutdown(s: State, pid: Pid, l: LaunchStep)
    requires ShutdownInv(s) && FenceInv(s.processes, s.manifests, s.current)
    requires LaunchEnabled(s, pid, l) && !Reports(l)
    ensures ShutdownInv(LaunchNext(s, pid, l))
  {
    if l.SubmitWorker? {
      ShutdownSubmit(s, pid, l.job, LaunchNext(s, pid, l).processes[pid]);
    } else {
      PassKeepsWaits(s, pid, l);
    }
  }

  lemma ReportKeepsWaits(s: State, pid: Pid, l: LaunchStep)
    requires WaitInv(s.processes, s.jobs) && LaunchEnabled(s, pid, l) && Reports(l)
    ensures var t := LaunchNext(s, pid, l);
      WaitInv(t.processes, s.jobs) && t.jobs == s.jobs && t.manifests == s.manifests && t.blind == s.blind
  {}

  lemma ReportKeepsShutdown(s: State, pid: Pid, l: LaunchStep)
    requires ShutdownInv(s)
    requires LaunchEnabled(s, pid, l) && Reports(l)
    ensures ShutdownInv(LaunchNext(s, pid, l))
  {
    ReportKeepsWaits(s, pid, l);
  }

  lemma RepairKeepsShutdown(s: State, pid: Pid, r: RepairStep)
    requires ShutdownInv(s) && ManifestsSound(s.manifests, s.jobs)
    requires RepairEnabled(s, pid, r)
    ensures ShutdownInv(RepairNext(s, pid, r))
  {
    if r.TakeOver? {
      var d := s.requests[r.request].dep;
      assert s.manifests[d].controlJob.value in Tagged(s.jobs, Tag(d, Suffix.Control));
    }
  }

  lemma UpKeepsShutdown(s: State, pid: Pid, u: UpStep)
    requires ShutdownInv(s) && FenceInv(s.processes, s.manifests, s.current)
    requires UpEnabled(s, pid, u)
    ensures ShutdownInv(UpNext(s, pid, u))
  {
    if u.SubmitControl? {
      ControlSubmitKeepsShutdown(s, pid, u.job);
    } else {
      UpKeepsWaits(s, pid, u);
      UpKeepsStops(s, pid, u);
    }
  }

  lemma UpKeepsWaits(s: State, pid: Pid, u: UpStep)
    requires WaitInv(s.processes, s.jobs) && UpEnabled(s, pid, u) && !u.SubmitControl?
    ensures var t := UpNext(s, pid, u); t.jobs == s.jobs && t.blind == s.blind && WaitInv(t.processes, t.jobs)
  {}

  lemma UpKeepsStops(s: State, pid: Pid, u: UpStep)
    requires StopInv(s.manifests, s.jobs, s.blind) && UpEnabled(s, pid, u) && !u.SubmitControl?
    ensures var t := UpNext(s, pid, u); StopInv(t.manifests, s.jobs, s.blind)
  {}

  lemma ControlSubmitKeepsShutdown(s: State, pid: Pid, j: JobId)
    requires ShutdownInv(s) && FenceInv(s.processes, s.manifests, s.current)
    requires UpEnabled(s, pid, SubmitControl(j))
    ensures ShutdownInv(UpNext(s, pid, SubmitControl(j)))
  {
    ShutdownSubmit(s, pid, j, UpNext(s, pid, SubmitControl(j)).processes[pid]);
  }

  /** A deployment whose control job was never submitted has no jobs at all. */
  lemma PreparedHasNoJobs(s: State, d: Dep)
    requires TagInv(s) && ShutdownInv(s)
    requires d in s.manifests && s.manifests[d].submission == Prepared
    ensures ActiveOf(s.jobs, d) == {} || Blind(s.blind, Tag(d, Control)) > 0
  {
    assert Uncommitted(Tag(d, Control), s.manifests, s.rows);
    if Blind(s.blind, Tag(d, Control)) == 0 {
      assert Tagged(s.jobs, Tag(d, Control)) == {};
    }
  }

  lemma DownKeepsShutdown(s: State, pid: Pid, d: DownStep)
    requires ShutdownInv(s) && (d.StopPrepared? ==> TagInv(s))
    requires DownEnabled(s, pid, d)
    ensures ShutdownInv(DownNext(s, pid, d))
  {
    if d.StopPrepared? {
      PreparedHasNoJobs(s, s.current.value);
    }
  }

  lemma ControlKeepsShutdown(s: State, c: ControlStep)
    requires ShutdownInv(s)
    requires ControlEnabled(s, c)
    ensures ShutdownInv(ControlNext(s, c))
  {}

  lemma WorldKeepsHosts(s: State, w: WorldStep)
    requires HostInv(s.processes, s.manifests, s.jobs) && WorldEnabled(s, w)
    ensures var t := WorldNext(s, w); HostInv(t.processes, t.manifests, t.jobs)
  {}

  lemma PassKeepsHosts(s: State, pid: Pid, l: LaunchStep)
    requires HostInv(s.processes, s.manifests, s.jobs) && LaunchEnabled(s, pid, l) && !Reports(l)
    ensures var t := LaunchNext(s, pid, l); HostInv(t.processes, t.manifests, t.jobs)
  {}

  lemma ReportKeepsHosts(s: State, pid: Pid, l: LaunchStep)
    requires HostInv(s.processes, s.manifests, s.jobs) && LaunchEnabled(s, pid, l) && Reports(l)
    ensures var t := LaunchNext(s, pid, l); HostInv(t.processes, t.manifests, t.jobs)
  {}

  lemma RepairKeepsHosts(s: State, pid: Pid, r: RepairStep)
    requires HostInv(s.processes, s.manifests, s.jobs) && RepairEnabled(s, pid, r)
    ensures var t := RepairNext(s, pid, r); HostInv(t.processes, t.manifests, t.jobs)
  {}

  lemma UpKeepsHosts(s: State, pid: Pid, u: UpStep)
    requires HostInv(s.processes, s.manifests, s.jobs) && UpEnabled(s, pid, u)
    ensures var t := UpNext(s, pid, u); HostInv(t.processes, t.manifests, t.jobs)
  {}

  lemma DownKeepsHosts(s: State, pid: Pid, d: DownStep)
    requires HostInv(s.processes, s.manifests, s.jobs) && DownEnabled(s, pid, d)
    ensures var t := DownNext(s, pid, d); HostInv(t.processes, t.manifests, t.jobs)
  {}

  lemma ControlKeepsHosts(s: State, c: ControlStep)
    requires HostInv(s.processes, s.manifests, s.jobs) && ControlEnabled(s, c)
    ensures var t := ControlNext(s, c); HostInv(t.processes, t.manifests, t.jobs)
  {}

  lemma WorldKeepsInv(s: State, w: WorldStep)
    requires Inv(s) && WorldEnabled(s, w)
    ensures Inv(WorldNext(s, w))
  {
    WorldKeepsLock(s, w);
    WorldKeepsClaim(s, w);
    WorldKeepsView(s, w);
    WorldKeepsFence(s, w);
    WorldKeepsLedger(s, w);
    WorldKeepsHolder(s, w);
    WorldKeepsTags(s, w);
    WorldKeepsShutdown(s, w);
    WorldKeepsHosts(s, w);
  }

  lemma PassKeepsInv(s: State, pid: Pid, l: LaunchStep)
    requires Inv(s) && LaunchEnabled(s, pid, l) && !Reports(l)
    ensures Inv(LaunchNext(s, pid, l))
  {
    PassKeepsLock(s, pid, l);
    PassKeepsClaim(s, pid, l);
    PassKeepsView(s, pid, l);
    PassKeepsFence(s, pid, l);
    PassKeepsLedger(s, pid, l);
    PassKeepsHolder(s, pid, l);
    PassKeepsTags(s, pid, l);
    PassKeepsShutdown(s, pid, l);
    PassKeepsHosts(s, pid, l);
  }

  lemma ReportKeepsInv(s: State, pid: Pid, l: LaunchStep)
    requires Inv(s) && LaunchEnabled(s, pid, l) && Reports(l)
    ensures Inv(LaunchNext(s, pid, l))
  {
    ReportKeepsLock(s, pid, l);
    ReportKeepsClaim(s, pid, l);
    ReportKeepsView(s, pid, l);
    ReportKeepsFence(s, pid, l);
    ReportKeepsLedger(s, pid, l);
    ReportKeepsHolder(s, pid, l);
    ReportKeepsTags(s, pid, l);
    ReportKeepsShutdown(s, pid, l);
    ReportKeepsHosts(s, pid, l);
  }

  lemma RepairKeepsInv(s: State, pid: Pid, r: RepairStep)
    requires Inv(s) && RepairEnabled(s, pid, r)
    ensures Inv(RepairNext(s, pid, r))
  {
    RepairKeepsLock(s, pid, r);
    RepairKeepsClaim(s, pid, r);
    RepairKeepsView(s, pid, r);
    RepairKeepsFence(s, pid, r);
    RepairKeepsLedger(s, pid, r);
    RepairKeepsHolder(s, pid, r);
    RepairKeepsTags(s, pid, r);
    RepairKeepsShutdown(s, pid, r);
    RepairKeepsHosts(s, pid, r);
  }

  lemma UpKeepsInv(s: State, pid: Pid, u: UpStep)
    requires Inv(s) && UpEnabled(s, pid, u)
    ensures Inv(UpNext(s, pid, u))
  {
    UpKeepsLock(s, pid, u);
    UpKeepsClaim(s, pid, u);
    UpKeepsView(s, pid, u);
    UpKeepsFence(s, pid, u);
    UpKeepsLedger(s, pid, u);
    UpKeepsHolder(s, pid, u);
    UpKeepsTags(s, pid, u);
    UpKeepsShutdown(s, pid, u);
    UpKeepsHosts(s, pid, u);
  }

  lemma DownKeepsInv(s: State, pid: Pid, d: DownStep)
    requires Inv(s) && DownEnabled(s, pid, d)
    ensures Inv(DownNext(s, pid, d))
  {
    DownKeepsLock(s, pid, d);
    DownKeepsClaim(s, pid, d);
    DownKeepsView(s, pid, d);
    DownKeepsFence(s, pid, d);
    DownKeepsLedger(s, pid, d);
    DownKeepsHolder(s, pid, d);
    DownKeepsTags(s, pid, d);
    DownKeepsShutdown(s, pid, d);
    DownKeepsHosts(s, pid, d);
  }

  lemma ControlKeepsInv(s: State, c: ControlStep)
    requires Inv(s) && ControlEnabled(s, c)
    ensures Inv(ControlNext(s, c))
  {
    ControlKeepsLock(s, c);
    ControlKeepsClaim(s, c);
    ControlKeepsView(s, c);
    ControlKeepsFence(s, c);
    ControlKeepsLedger(s, c);
    ControlKeepsHolder(s, c);
    ControlKeepsTags(s, c);
    ControlKeepsShutdown(s, c);
    ControlKeepsHosts(s, c);
  }

  /** Every step of every actor keeps the whole invariant. */
  lemma StepKeepsInv(s: State, step: Step)
    requires Inv(s) && Enabled(s, step)
    ensures Inv(Next(s, step))
  {
    match step
    case World(w) => WorldKeepsInv(s, w);
    case Launch(pid, l) => if Reports(l) { ReportKeepsInv(s, pid, l); } else { PassKeepsInv(s, pid, l); }
    case Repair(pid, r) => RepairKeepsInv(s, pid, r);
    case Up(pid, u) => UpKeepsInv(s, pid, u);
    case Down(pid, d) => DownKeepsInv(s, pid, d);
    case ControlAction(c) => ControlKeepsInv(s, c);
  }

  lemma InitialInv()
    ensures Inv(INITIAL)
  {
    forall u: Tag ensures Once(u, INITIAL.jobs, INITIAL.blind) {
      assert Tagged(INITIAL.jobs, u) == {};
    }
  }

  lemma {:induction false} RunKeepsInv(s: State, steps: seq<Step>)
    requires Inv(s) && Run(s, steps)
    ensures Inv(After(s, steps))
    decreases |steps|
  {
    if steps != [] {
      StepKeepsInv(s, steps[0]);
      RunKeepsInv(Next(s, steps[0]), steps[1..]);
    }
  }
}
