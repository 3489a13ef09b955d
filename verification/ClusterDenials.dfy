/** Exactly when an operator may deny a control submission. */
module ClusterDenials {
  import opened Basics
  import opened ClusterProtocol
  import opened ClusterInvariant
  import opened ClusterSafety
  import opened ClusterSteps

  /** The answer "not submitted" for `d` is given only while no job of `d` is queued or running. */
  predicate Checked(s: State, step: Step, d: Dep) {
    step == ControlAction(ResolveAbsent) && s.current == Some(d) ==> ActiveOf(s.jobs, d) == {}
  }

  predicate AllChecked(s: State, steps: seq<Step>, d: Dep)
    requires Run(s, steps)
    decreases |steps|
  {
    steps == [] || (Checked(s, steps[0], d) && AllChecked(Next(s, steps[0]), steps[1..], d))
  }

  /** Where nothing is submitted, or all is stopped, nothing runs. */
  predicate Calm(d: Dep, ms: Manifests, jobs: Jobs) {
    d in ms && (ms[d].submission == Prepared || ms[d].state == Stopped) ==> ActiveOf(jobs, d) == {}
  }

  lemma WorldKeepsCalm(s: State, w: WorldStep, d: Dep)
    requires Calm(d, s.manifests, s.jobs) && WorldEnabled(s, w)
    ensures var t := WorldNext(s, w); Calm(d, t.manifests, t.jobs)
  {
    assert ActiveOf(WorldNext(s, w).jobs, d) <= ActiveOf(s.jobs, d);
  }

  /** A launcher that submits has a control job: a running one around it, or one on record. */
  lemma LaunchKeepsCalm(s: State, pid: Pid, l: LaunchStep, d: Dep)
    requires Calm(d, s.manifests, s.jobs) && LaunchEnabled(s, pid, l)
    requires HostInv(s.processes, s.manifests, s.jobs) && FenceInv(s.processes, s.manifests, s.current)
    requires ManifestsSound(s.manifests, s.jobs)
    ensures var t := LaunchNext(s, pid, l); Calm(d, t.manifests, t.jobs)
  {
    if l.SubmitWorker? {
      var p := s.processes[pid];
      if p.dep == d {
        assert ManifestSound(d, s.manifests[d], s.jobs);
        assert p.host.Some? ==> p.host.value in ActiveOf(s.jobs, d);
      } else {
        assert ActiveOf(LaunchNext(s, pid, l).jobs, d) == ActiveOf(s.jobs, d);
      }
    }
  }

  lemma RepairKeepsCalm(s: State, pid: Pid, r: RepairStep, d: Dep)
    requires Calm(d, s.manifests, s.jobs) && RepairEnabled(s, pid, r)
    ensures var t := RepairNext(s, pid, r); Calm(d, t.manifests, t.jobs)
  {}

  lemma UpKeepsCalm(s: State, pid: Pid, u: UpStep, d: Dep)
    requires Calm(d, s.manifests, s.jobs) && UpEnabled(s, pid, u)
    requires FenceInv(s.processes, s.manifests, s.current) && JobsSound(s.jobs, s.manifests, s.rows, s.requests)
    requires InFlightUnused(s.processes, s.manifests, s.rows, s.jobs, s.blind)
    ensures var t := UpNext(s, pid, u); Calm(d, t.manifests, t.jobs)
  {
    match u
    case SubmitControl(j) =>
      if s.processes[pid].dep != d {
        assert ActiveOf(UpNext(s, pid, u).jobs, d) == ActiveOf(s.jobs, d);
      }
    case Create(e) => assert d == e ==> ActiveOf(s.jobs, d) == {};
    case _ =>
  }

  lemma DownKeepsCalm(s: State, pid: Pid, e: DownStep, d: Dep)
    requires Calm(d, s.manifests, s.jobs) && DownEnabled(s, pid, e) && WaitInv(s.processes, s.jobs)
    ensures var t := DownNext(s, pid, e); Calm(d, t.manifests, t.jobs)
  {}

  lemma ControlKeepsCalm(s: State, c: ControlStep, d: Dep)
    requires Calm(d, s.manifests, s.jobs) || (c == ResolveAbsent && s.current == Some(d))
    requires ControlEnabled(s, c) && Checked(s, ControlAction(c), d)
    ensures var t := ControlNext(s, c); Calm(d, t.manifests, t.jobs)
  {}

  lemma StepKeepsCalm(s: State, step: Step, d: Dep)
    requires Inv(s) && Calm(d, s.manifests, s.jobs) && Enabled(s, step) && Checked(s, step, d)
    ensures var t := Next(s, step); Calm(d, t.manifests, t.jobs)
  {
    match step
    case World(w) => WorldKeepsCalm(s, w, d);
    case Launch(pid, l) => LaunchKeepsCalm(s, pid, l, d);
    case Repair(pid, r) => RepairKeepsCalm(s, pid, r, d);
    case Up(pid, u) => UpKeepsCalm(s, pid, u, d);
    case Down(pid, e) => DownKeepsCalm(s, pid, e, d);
    case ControlAction(c) => ControlKeepsCalm(s, c, d);
  }

  lemma {:induction false} RunKeepsCalm(s: State, steps: seq<Step>, d: Dep)
    requires Inv(s) && Calm(d, s.manifests, s.jobs) && Run(s, steps) && AllChecked(s, steps, d)
    ensures var t := After(s, steps); Calm(d, t.manifests, t.jobs)
    decreases |steps|
  {
    if steps != [] {
      StepKeepsCalm(s, steps[0], d);
      StepKeepsInv(s, steps[0]);
      RunKeepsCalm(Next(s, steps[0]), steps[1..], d);
    }
  }

  /** If every denial up to then was checked, `stopped` means that nothing of the deployment
      is queued or running, then and in every continuation. */
  lemma CheckedDenialsStopClean(steps: seq<Step>, more: seq<Step>, d: Dep)
    requires Run(INITIAL, steps) && Run(After(INITIAL, steps), more) && AllChecked(INITIAL, steps, d)
    requires d in After(INITIAL, steps).manifests && After(INITIAL, steps).manifests[d].state == Stopped
    ensures ActiveOf(After(INITIAL, steps).jobs, d) == {}
    ensures ActiveOf(After(After(INITIAL, steps), more).jobs, d) == {}
  {
    InitialInv();
    RunKeepsInv(INITIAL, steps);
    RunKeepsCalm(INITIAL, steps, d);
    FenceIsFinal(After(INITIAL, steps), more, d);
  }

  /** Some continuation, with no further unchecked denial, stops the deployment with jobs left. */
  ghost predicate CanStrand(s: State, d: Dep) {
    exists steps :: Run(s, steps) && AllChecked(s, steps, d) && StoppedWithJobs(After(s, steps), d)
  }

  /** Whatever went before, one denial can leave jobs behind in some continuation if and only
      if a job of the deployment is queued or running when it is given. */
  lemma DenialIsSafeExactlyWhenNothingRuns(before: seq<Step>)
    requires Run(INITIAL, before) && ControlEnabled(After(INITIAL, before), ResolveAbsent)
    ensures var s := After(INITIAL, before);
      CanStrand(ControlNext(s, ResolveAbsent), s.current.value) <==> ActiveOf(s.jobs, s.current.value) != {}
  {
    InitialInv();
    RunKeepsInv(INITIAL, before);
    var s := After(INITIAL, before);
    if ActiveOf(s.jobs, s.current.value) != {} {
      UncheckedDenialStrands(s);
    } else {
      CheckedDenialIsSafe(s);
    }
  }

  lemma UncheckedDenialStrands(s: State)
    requires ControlEnabled(s, ResolveAbsent) && ActiveOf(s.jobs, s.current.value) != {}
    ensures CanStrand(ControlNext(s, ResolveAbsent), s.current.value)
  {
    var d, t := s.current.value, ControlNext(s, ResolveAbsent);
    var steps := [Down(0, StopPrepared)];
    assert steps[1..] == [] && Run(Next(t, steps[0]), []);
    assert StoppedWithJobs(After(t, steps), d);
  }

  lemma CheckedDenialIsSafe(s: State)
    requires Inv(s) && ControlEnabled(s, ResolveAbsent) && ActiveOf(s.jobs, s.current.value) == {}
    ensures !CanStrand(ControlNext(s, ResolveAbsent), s.current.value)
  {
    var d, t := s.current.value, ControlNext(s, ResolveAbsent);
    StepKeepsInv(s, ControlAction(ResolveAbsent));
    ControlKeepsCalm(s, ResolveAbsent, d);
    forall steps | Run(t, steps) && AllChecked(t, steps, d) ensures !StoppedWithJobs(After(t, steps), d) {
      RunKeepsCalm(t, steps, d);
    }
  }
}
