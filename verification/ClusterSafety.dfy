/** What the invariant gives over whole runs, from an empty workspace. */
module ClusterSafety {
  import opened Basics
  import opened ClusterProtocol
  import opened ClusterInvariant
  import opened ClusterSteps

  /** Over every interleaving: at most one job per tag beyond the confirmations an operator
      gave although a job existed, never two active ones, and none before intent is on record. */
  lemma SubmittedAtMostOnce(steps: seq<Step>, t: Tag)
    requires Run(INITIAL, steps)
    ensures var s := After(INITIAL, steps);
      && |Tagged(s.jobs, t)| <= Blind(s.blind, t) + 1
      && |Active(s.jobs, t)| <= 1
      && (Uncommitted(t, s.manifests, s.rows) ==> |Tagged(s.jobs, t)| <= Blind(s.blind, t) && Active(s.jobs, t) == {})
  {
    InitialInv();
    RunKeepsInv(INITIAL, steps);
    var s := After(INITIAL, steps);
    assert Once(t, s.jobs, s.blind);
    AtMostOne(Active(s.jobs, t));
  }

  lemma AtMostOne(js: set<JobId>)
    requires forall i, j :: i in js && j in js ==> i == j
    ensures |js| <= 1
  {
    if j :| j in js {
      assert js == {j};
    }
  }

  /** Recovery is never ambiguous unless somebody confirmed blindly: `find` shows at most one
      job, and a row or manifest that names a job names one submitted for it. */
  lemma RecoveryIsUnambiguous(steps: seq<Step>, t: Tag)
    requires Run(INITIAL, steps)
    ensures var s := After(INITIAL, steps);
      && (Blind(s.blind, t) == 0 ==> |Find(s.jobs, t)| <= 1)
      && (forall k :: k in s.rows && s.rows[k].job.Some? ==>
            && s.rows[k].job.value in s.jobs && k.request in s.requests
            && s.jobs[s.rows[k].job.value].tag == Tag(s.requests[k.request].dep, Worker(k)))
      && (forall d :: d in s.manifests && s.manifests[d].controlJob.Some? ==>
            && s.manifests[d].controlJob.value in s.jobs
            && s.jobs[s.manifests[d].controlJob.value].tag == Tag(d, Control))
  {
    InitialInv();
    RunKeepsInv(INITIAL, steps);
    var s := After(INITIAL, steps);
    assert Once(t, s.jobs, s.blind);
    Subset(Find(s.jobs, t), Tagged(s.jobs, t));
  }

  lemma Subset(a: set<JobId>, b: set<JobId>)
    requires a <= b
    ensures |a| <= |b|
  {
    if a != {} {
      var x :| x in a;
      Subset(a - {x}, b - {x});
    }
  }

  function JobsOf(jobs: map<JobId, Job>, d: Dep): set<JobId> {
    set j | j in jobs && jobs[j].tag.dep == d
  }

  /** No job of `d` was added and none came back to life. */
  predicate Quiet(before: map<JobId, Job>, after: map<JobId, Job>, d: Dep) {
    JobsOf(after, d) == JobsOf(before, d) && ActiveOf(after, d) <= ActiveOf(before, d)
  }

  /** One step of any process leaves a fenced deployment fenced and submits nothing for it. */
  lemma FencedStep(s: State, step: Step, d: Dep)
    requires Inv(s) && Enabled(s, step) && d in s.manifests && Fenced(s, d)
    ensures var t := Next(s, step); d in t.manifests && Fenced(t, d) && Quiet(s.jobs, t.jobs, d)
  {
    match step
    case World(w) => FencedWorld(s, w, d);
    case Launch(pid, l) => FencedLaunch(s, pid, l, d);
    case Repair(pid, r) => FencedRepair(s, pid, r, d);
    case Up(pid, u) => FencedUp(s, pid, u, d);
    case Down(pid, e) => FencedDown(s, pid, e, d);
    case ControlAction(c) => FencedControl(s, c, d);
  }

  lemma FencedWorld(s: State, w: WorldStep, d: Dep)
    requires WorldEnabled(s, w) && d in s.manifests && Fenced(s, d)
    ensures var t := WorldNext(s, w); d in t.manifests && Fenced(t, d) && Quiet(s.jobs, t.jobs, d)
  {}

  lemma FencedLaunch(s: State, pid: Pid, l: LaunchStep, d: Dep)
    requires FenceInv(s.processes, s.manifests, s.current)
    requires LaunchEnabled(s, pid, l) && d in s.manifests && Fenced(s, d)
    ensures var t := LaunchNext(s, pid, l); d in t.manifests && Fenced(t, d) && Quiet(s.jobs, t.jobs, d)
  {}

  lemma FencedRepair(s: State, pid: Pid, r: RepairStep, d: Dep)
    requires RepairEnabled(s, pid, r) && d in s.manifests && Fenced(s, d)
    ensures var t := RepairNext(s, pid, r); d in t.manifests && Fenced(t, d) && Quiet(s.jobs, t.jobs, d)
  {}

  lemma FencedUp(s: State, pid: Pid, u: UpStep, d: Dep)
    requires FenceInv(s.processes, s.manifests, s.current)
    requires UpEnabled(s, pid, u) && d in s.manifests && Fenced(s, d)
    ensures var t := UpNext(s, pid, u); d in t.manifests && Fenced(t, d) && Quiet(s.jobs, t.jobs, d)
  {}

  lemma FencedDown(s: State, pid: Pid, e: DownStep, d: Dep)
    requires DownEnabled(s, pid, e) && d in s.manifests && Fenced(s, d)
    ensures var t := DownNext(s, pid, e); d in t.manifests && Fenced(t, d) && Quiet(s.jobs, t.jobs, d)
  {}

  lemma FencedControl(s: State, c: ControlStep, d: Dep)
    requires ControlEnabled(s, c) && d in s.manifests && Fenced(s, d)
    ensures var t := ControlNext(s, c); d in t.manifests && Fenced(t, d) && Quiet(s.jobs, t.jobs, d)
  {}

  /** Once `stopping` is saved, or the deployment is replaced, nothing any process does later
      submits a job for it. */
  lemma {:induction false} FenceIsFinal(s: State, steps: seq<Step>, d: Dep)
    requires Inv(s) && Run(s, steps) && d in s.manifests && Fenced(s, d)
    ensures var t := After(s, steps); d in t.manifests && Fenced(t, d) && Quiet(s.jobs, t.jobs, d)
    decreases |steps|
  {
    if steps != [] {
      FencedStep(s, steps[0], d);
      StepKeepsInv(s, steps[0]);
      FenceIsFinal(Next(s, steps[0]), steps[1..], d);
    }
  }

  /** `down` asks for the control job's cancellation only when no worker is left. */
  lemma ControlCanceledLast(steps: seq<Step>, pid: Pid)
    requires Run(INITIAL, steps) && Enabled(After(INITIAL, steps), Down(pid, CancelControl))
    ensures var s := After(INITIAL, steps);
      forall j :: j in ActiveOf(s.jobs, s.processes[pid].dep) ==> s.jobs[j].tag.suffix == Control
  {
    InitialInv();
    RunKeepsInv(INITIAL, steps);
    var s := After(INITIAL, steps);
    assert Waits(s.processes[pid], s.jobs);
    assert ProcessSound(s.processes[pid], s.manifests, s.rows, s.jobs);
  }

  /** `stopped` means that nothing of the deployment is queued or running, now and later,
      unless `resolve-control --not-submitted` was answered although a control job existed. */
  lemma StoppedMeansEmpty(steps: seq<Step>, more: seq<Step>, d: Dep)
    requires Run(INITIAL, steps) && Run(After(INITIAL, steps), more)
    requires d in After(INITIAL, steps).manifests && After(INITIAL, steps).manifests[d].state == Stopped
    requires Blind(After(INITIAL, steps).blind, Tag(d, Control)) == 0
    ensures ActiveOf(After(INITIAL, steps).jobs, d) == {}
    ensures ActiveOf(After(After(INITIAL, steps), more).jobs, d) == {}
  {
    InitialInv();
    RunKeepsInv(INITIAL, steps);
    FenceIsFinal(After(INITIAL, steps), more, d);
  }

  // The exception is needed: a wrong denial can leave workers running.

  ghost predicate Reachable(s: State) {
    exists steps :: Run(INITIAL, steps) && After(INITIAL, steps) == s
  }

  lemma {:induction false} RunAppend(s: State, a: seq<Step>, b: seq<Step>)
    requires Run(s, a) && Run(After(s, a), b)
    ensures Run(s, a + b) && After(s, a + b) == After(After(s, a), b)
    decreases |a|
  {
    if a == [] {
      assert a + b == b;
    } else {
      assert (a + b)[1..] == a[1..] + b;
      RunAppend(Next(s, a[0]), a[1..], b);
    }
  }

  lemma ReachableAfter(s: State, steps: seq<Step>)
    requires Reachable(s) && Run(s, steps)
    ensures Reachable(After(s, steps))
  {
    var before :| Run(INITIAL, before) && After(INITIAL, before) == s;
    RunAppend(INITIAL, before, steps);
  }

  lemma ReachableNext(s: State, step: Step)
    requires Reachable(s) && Enabled(s, step)
    ensures Reachable(Next(s, step))
  {
    var t := Next(s, step);
    assert [step][1..] == [] && Run(t, []) && After(t, []) == t;
    ReachableAfter(s, [step]);
  }

  lemma ReachablePass(s: State, pid: Pid, l: LaunchStep, t: State)
    requires Reachable(s) && pid in s.processes && Alive(s.processes[pid], s.jobs) && PassEnabled(s, s.processes[pid], l)
    requires t == PassNext(s, pid, s.processes[pid], l)
    ensures Reachable(t)
  {
    ReachableNext(s, Launch(pid, l));
  }

  lemma ReachableControl(s: State, c: ControlStep, t: State)
    requires Reachable(s) && ControlEnabled(s, c) && t == ControlNext(s, c)
    ensures Reachable(t)
  {
    ReachableNext(s, ControlAction(c));
  }

  const ROW := map["w" := Row(RowPending, None)]
  const PENDING_ROW := map[Key(0, "w") := Row(RowPending, None)]
  const SUBMITTING_ROW := map[Key(0, "w") := Row(RowSubmitting, None)]
  const CONTROL_JOB := map[0 := Job(Tag(0, Suffix.Control), false, false)]
  const BOTH_JOBS := CONTROL_JOB[1 := Job(Tag(0, Worker(Key(0, "w"))), false, false)]
  const LOST_REPLY := map[0 := Manifest(Starting, Submitting, None)]
  const OPEN_REQUEST := map[0 := Request(0, Open, 0, false)]
  const HELD_REQUEST := map[0 := Request(0, Open, 0, true)]

  /** `up` died between the submission and its record. */
  const UP_DIED := State(LOST_REPLY, Some(0), map[], map[], CONTROL_JOB, None, map[], 0, map[])

  const WATCHING := State(LOST_REPLY, Some(0), OPEN_REQUEST, PENDING_ROW, CONTROL_JOB, None, map[1 := Watching(0, Some(0))], 0, map[])

  const CLAIMED := State(LOST_REPLY, Some(0), HELD_REQUEST, PENDING_ROW, CONTROL_JOB, None,
    map[1 := Claimed(0, Some(0), 0, 0, ROW)], 1, map[])

  const INTENDED := State(LOST_REPLY, Some(0), HELD_REQUEST, SUBMITTING_ROW, CONTROL_JOB, Some(1),
    map[1 := Intent(0, Some(0), 0, 0, ROW, "w")], 1, map[])

  const LAUNCHED := State(LOST_REPLY, Some(0), HELD_REQUEST, SUBMITTING_ROW, BOTH_JOBS, None, map[], 1, map[])

  const UP_INTENDS := State(LOST_REPLY, Some(0), map[], map[], map[], Some(0), map[0 := UpSubmitting(0)], 0, map[])

  lemma UpIntends()
    ensures Reachable(UP_INTENDS)
  {
    assert Run(INITIAL, []) && After(INITIAL, []) == INITIAL;
    ReachableAfter(INITIAL, [Up(0, TakeLock), Up(0, Create(0)), Up(0, IntendControl)]);
  }

  lemma UpDies()
    ensures Reachable(UP_DIED)
  {
    UpIntends();
    ReachableAfter(UP_INTENDS, [Up(0, SubmitControl(0)), World(Crash(0))]);
  }

  lemma LauncherStarts()
    ensures Reachable(WATCHING)
  {
    UpDies();
    ReachableAfter(UP_DIED, [World(RequestCreated(0, 0, {"w"})), Launch(1, Start(0, Some(0)))]);
  }

  lemma LauncherClaims()
    ensures Reachable(CLAIMED)
  {
    LauncherStarts();
    ClaimReaches(WATCHING, CLAIMED);
  }

  lemma ClaimReaches(s: State, t: State)
    requires s == WATCHING && t == CLAIMED && Reachable(s)
    ensures Reachable(t)
  {
    ClaimEffect(s, t);
    ReachableClaim(s, 1, 0, Some(0), 0, t);
  }

  lemma ClaimEffect(s: State, t: State)
    requires s == WATCHING && t == CLAIMED
    ensures t == State(s.manifests, s.current, s.requests[0 := Request(0, Open, s.nextToken, true)], s.rows, s.jobs, s.lock,
                       s.processes[1 := Claimed(0, Some(0), 0, s.nextToken, ViewOf(s.rows, 0))], s.nextToken + 1, s.blind)
  {
    ClaimedView();
    LeasedRequest();
    ClaimingProcess();
  }

  lemma ClaimedView()
    ensures ViewOf(PENDING_ROW, 0) == ROW
  {
    ViewOfOneRow(0, "w", Row(RowPending, None));
  }

  lemma LeasedRequest()
    ensures OPEN_REQUEST[0 := Request(0, Open, 0, true)] == HELD_REQUEST
  {
    OneEntry(0, Request(0, Open, 0, false), Request(0, Open, 0, true));
  }

  lemma ClaimingProcess()
    ensures WATCHING.processes[1 := Claimed(0, Some(0), 0, 0, ROW)] == CLAIMED.processes
  {
    OneEntry(1, Watching(0, Some(0)), Claimed(0, Some(0), 0, 0, ROW));
  }

  lemma OneEntry<T>(n: nat, a: T, b: T)
    ensures map[n := a][n := b] == map[n := b]
  {}

  lemma ReachableClaim(s: State, pid: Pid, d: Dep, host: Option<JobId>, r: nat, t: State)
    requires Reachable(s) && pid in s.processes && s.processes[pid] == Watching(d, host) && Alive(s.processes[pid], s.jobs)
    requires Claimable(s, r) && s.requests[r].dep == d
    requires t == State(s.manifests, s.current, s.requests[r := Request(d, Open, s.nextToken, true)], s.rows, s.jobs, s.lock,
                        s.processes[pid := Claimed(d, host, r, s.nextToken, ViewOf(s.rows, r))], s.nextToken + 1, s.blind)
    ensures Reachable(t)
  {
    ReachableNext(s, Launch(pid, Claim(r)));
  }

  lemma ViewOfOneRow(request: nat, node: string, row: Row)
    ensures ViewOf(map[Key(request, node) := row], request) == map[node := row]
  {
    var rows := map[Key(request, node) := row];
    assert Key(request, node) in rows;
    assert forall n :: n in ViewOf(rows, request) <==> n == node;
  }

  lemma LauncherIntends()
    ensures Reachable(INTENDED)
  {
    LauncherClaims();
    ReachableAfter(CLAIMED, [Launch(1, Guard("w")), Launch(1, RecordIntent)]);
  }

  lemma LauncherSubmits()
    ensures Reachable(LAUNCHED)
  {
    LauncherIntends();
    var accepted := INTENDED.(processes := map[1 := Accepted(0, Some(0), 0, 0, ROW, "w", 1)], jobs := LAUNCHED.jobs);
    ReachablePass(INTENDED, 1, SubmitWorker(1), accepted);
    assert WorldNext(accepted, Crash(1)) == LAUNCHED;
    ReachableNext(accepted, World(Crash(1)));
  }

  const CONTROL_ENDED := LAUNCHED.(jobs := LAUNCHED.jobs[0 := Job(Tag(0, Control), true, false)])

  const DENIED := CONTROL_ENDED.(manifests := map[0 := Manifest(Starting, Prepared, None)],
    blind := map[Tag(0, Control) := 1])

  /** The control job has ended, accounting does not show it yet, and the operator answers
      that it was never submitted. */
  lemma OperatorDenies()
    ensures Reachable(DENIED)
  {
    LauncherSubmits();
    ReachableNext(LAUNCHED, World(JobEnds(0)));
    DenialEffect();
    ReachableControl(CONTROL_ENDED, ResolveAbsent, DENIED);
  }

  lemma DenialEffect()
    ensures ControlEnabled(CONTROL_ENDED, ResolveAbsent)
    ensures ControlNext(CONTROL_ENDED, ResolveAbsent) == DENIED
  {
    assert 0 in Tagged(CONTROL_ENDED.jobs, Tag(0, Control));
    assert Find(CONTROL_ENDED.jobs, Tag(0, Control)) == {};
  }

  ghost predicate StoppedWithJobs(s: State, d: Dep) {
    d in s.manifests && s.manifests[d].state == Stopped && ActiveOf(s.jobs, d) != {}
  }

  /** A worker runs under a stopped deployment. */
  lemma BlindConfirmationStrandsWorkers()
    ensures exists s :: Reachable(s) && StoppedWithJobs(s, 0)
  {
    OperatorDenies();
    ReachableNext(DENIED, Down(2, StopPrepared));
    var s := DownNext(DENIED, 2, StopPrepared);
    assert 1 in ActiveOf(s.jobs, 0);
    assert StoppedWithJobs(s, 0);
  }
}
