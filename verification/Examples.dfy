/** Runs that show what goes wrong where a guarantee stops. */
module Examples {
  import opened Text
  import opened Types
  import opened Workloads
  import opened Conservation
  import opened JobNames
  import opened Protocol
  import opened OneJob
  import opened Exclusion
  import opened Preemption
  import opened Uploading
  import opened Isolation
  import opened Schedule
  import opened Footprint
  import opened Replicas

  const DAY := 86_400

  /** Every day at midnight. */
  const DAILY: int -> int := x => (x / DAY + 1) * DAY

  /** A midnight in November 2023, as a Unix time. */
  const MIDNIGHT := 1_700_006_400

  lemma DailySlots()
    ensures LeastSlot(DAILY) && DAILY(MIDNIGHT - 1) == MIDNIGHT && MIDNIGHT % DAY == 0
  {
    forall x ensures DAILY(x) > x {
      NextDay(x);
    }
    forall x, y | x <= y < DAILY(x) ensures DAILY(y) == DAILY(x) {
      SameDay(x, y);
    }
    ThatMidnight();
  }

  lemma NextDay(x: int)
    ensures (x / DAY + 1) * DAY > x
  {
  }

  lemma ThatMidnight()
    ensures ((MIDNIGHT - 1) / DAY + 1) * DAY == MIDNIGHT && MIDNIGHT % DAY == 0
  {
  }

  lemma SameDay(x: int, y: int)
    requires x <= y < (x / DAY + 1) * DAY
    ensures (y / DAY + 1) * DAY == (x / DAY + 1) * DAY
  {
    assert y / DAY == x / DAY;
  }

  /** A backup of one claim, as submitted. */
  function Submit(key: Key, spec: BackupSpec, created: int, forcePrune: string): PVCBackup {
    PVCBackup(key, spec, Meta(0, created, "", forcePrune, "", map[]), BackupStatus(NoPhase, None, None, "", "", "", ""))
  }

  function Spec(pipeline: seq<string>, targets: seq<Target>, schedule: Types.Schedule, keepLast: Option<int>): BackupSpec {
    BackupSpec("data", [], pipeline, "", false, false, targets, [], [], schedule, keepLast)
  }

  function Calls(jobs: seq<Key>, backups: seq<Key>, restores: seq<Key>, faults: set<Call>): Inputs {
    Inputs(jobs, backups, restores, faults, {})
  }

  // ---------------------------------------------------------------------
  // Single steps

  /** With no other backup and no active restore the session is free. */
  lemma AloneIsFree(w: World, b: PVCBackup, inp: Inputs)
    requires forall i :: i in w.backups ==> i == b.key
    requires forall r :: r in w.restores ==> !RestorePhaseActive(w.restores[r].phase)
    ensures !BackupBusy(w, b, inp)
  {
    var keys, self := BackupPVCKeys(b), OfBackup(b.key);
    NoneHolds(w, inp.backupList, keys, self);
    NoRestoreHolds(w, inp.restoreList, keys, self);
  }

  /** A due backup without quiesce and snapshots, for which both scans find nothing, opens its run at once. */
  lemma OpensPlainly(w: World, k: Key, inp: Inputs)
    requires k in w.backups && w.backups[k].key == k && k !in w.runs && inp.faults == {}
    requires var b := w.backups[k];
             b.spec.pipeline == ["live"] && !b.spec.quiesceEnabled && PvcList(b.spec) != [] &&
             !ForceCancelPending(b) && !ForcePrunePending(b) && !ForceRunPending(b) &&
             !b.status.phase.Uploading? && !b.status.phase.Pruning? &&
             !b.spec.schedule.Unscheduled? && ScheduleDue(b, w.now).DueNow? && !BackupBusy(w, b, inp)
    requires FindPruneJob(w, k, inp).None? && FindBackupJob(w, k, inp).None?
    ensures Reconcile(w, k, inp) == w.(runs := w.runs[k := Run(w.backups[k], Sec(w.now), map[], false, PvcList(w.backups[k].spec))])
  {
    var b := w.backups[k];
    RunBranches(w, k, inp);
    assert Pipeline(b.spec)[..0] == [] && !IsSnapshotStep(Pipeline(b.spec)[0]);
    assert SnapshotSteps(w, b, [], inp) == Snap(Mem(w, b), true);
    assert SnapshotSteps(w, b, Pipeline(b.spec), inp) == Snap(Mem(w, b), true);
    assert Claim(w, b, inp) == Snapshot(w, b, map[], false, inp);
  }

  function Quiesced(b: PVCBackup): PVCBackup {
    b.(meta := b.meta.(rv := b.meta.rv + 1), status := b.status.(phase := Quiescing))
  }

  /** The cluster after a backup has opened its run and quiesced its targets. */
  function Opened(w: World, k: Key): World
    requires k in w.backups
  {
    var b := w.backups[k];
    var q := Quiesce(w.scene, b.spec.targets, b.key.ns, {});
    w.(scene := q.scene, backups := w.backups[k := Quiesced(b)],
       runs := w.runs[k := Run(Quiesced(b), Sec(w.now), q.state, false, PvcList(b.spec))])
  }

  /** A backup that quiesces opens its run where nothing is in its way. */
  lemma OpensQuiesced(w: World, k: Key, inp: Inputs)
    requires k in w.backups && w.backups[k].key == k && k !in w.runs && inp.faults == {} && inp.scaleFaults == {}
    requires var b := w.backups[k];
             b.spec.pipeline == ["quiescedLive"] && PvcList(b.spec) != [] &&
             !ForceCancelPending(b) && !ForcePrunePending(b) && !ForceRunPending(b) && !b.status.phase.Uploading? &&
             Starts(w, b) && !BackupBusy(w, b, inp) && Quiesce(w.scene, b.spec.targets, b.key.ns, {}).ok
    requires FindPruneJob(w, k, inp).None? && FindBackupJob(w, k, inp).None?
    ensures Reconcile(w, k, inp) == Opened(w, k)
  {
    var b := w.backups[k];
    RunBranches(w, k, inp);
    var quiescing := b.(status := b.status.(phase := Quiescing));
    var r := WriteStatus(w, quiescing, WriteQuiescing, inp.faults);
    assert r.ok && r.b == Quiesced(b);
    var q := Quiesce(r.w.scene, b.spec.targets, b.key.ns, inp.scaleFaults);
    var w1 := r.w.(scene := q.scene);
    NoSnapshots(w1, r.b, inp);
    assert Claim(w, b, inp) == AfterQuiesce(w1, r.b, q, false, inp) == Snapshot(w1, r.b, q.state, false, inp);
  }

  lemma NoSnapshots(w: World, b: PVCBackup, inp: Inputs)
    requires Known(w, b) && b.spec.pipeline == ["quiescedLive"]
    ensures SnapshotSteps(w, b, Pipeline(b.spec), inp) == Snap(Mem(w, b), true)
  {
    assert Pipeline(b.spec)[..0] == [] && !IsSnapshotStep(Pipeline(b.spec)[0]);
    assert SnapshotSteps(w, b, [], inp) == Snap(Mem(w, b), true);
  }

  /** Losing the status write of a run without quiesce leaves a Job and an unchanged status. */
  lemma LaunchLost(w: World, k: Key, inp: Inputs)
    requires Wellformed(w) && k in w.runs && w.runs[k].quiesced == map[] && inp.faults == {WriteUploading}
    requires !Aborts(w, k, inp)
    ensures Launch(w, k, inp) == WithJob(w, k)
  {
  }

  lemma NotAborted(w: World, k: Key, inp: Inputs)
    requires Wellformed(w) && k in w.runs && !w.backups[k].status.phase.Failed?
    requires forall i :: i in w.backups ==> i == k
    requires forall r :: r in w.restores ==> !RestorePhaseActive(w.restores[r].phase)
    ensures !Aborts(w, k, inp)
  {
    AloneIsFree(w, w.runs[k].b, inp);
  }

  /** A scan finds nothing where every Job is finished or has another prefix. */
  lemma FindsNothing(jobs: map<Key, Job>, listing: seq<Key>, owner: Key, prefix: string)
    requires forall j :: j in jobs ==> !Matches(jobs, j, owner, prefix)
    ensures FindOwned(jobs, listing, owner, prefix).None?
  {
  }

  /** s leads from w to w'. */
  ghost predicate Leads(w: World, s: Step, w': World) {
    Enabled(w, s) && w' == Apply(w, s)
  }

  lemma LeadsAlong(trace: seq<World>, steps: seq<Step>)
    requires |trace| == |steps| + 1 && Initial(trace[0])
    requires forall i :: 0 <= i < |steps| ==> Leads(trace[i], steps[i], trace[i + 1])
    ensures IsRun(trace, steps)
  {
    forall i | 0 <= i < |steps| ensures Enabled(trace[i], steps[i]) && trace[i + 1] == Apply(trace[i], steps[i]) {
      assert Leads(trace[i], steps[i], trace[i + 1]);
    }
  }

  // ---------------------------------------------------------------------
  // A lost status write starts a slot twice

  const NIGHTLY := Key("ns", "b")

  function NightlyBackup(): PVCBackup {
    Submit(NIGHTLY, Spec(["live"], [], Cron(DAILY), None), MIDNIGHT - 1, "")
  }

  function NightlyJob(at: nat): Key { Key("ns", BackupJobName("b", at)) }

  /** The cluster with this one backup, untouched, at some second. */
  ghost predicate Nightly(w: World, at: nat) {
    w.backups == map[NIGHTLY := NightlyBackup()] && w.restores == map[] && w.now == at * NANOS &&
    (at == MIDNIGHT || at == MIDNIGHT + 1)
  }

  function NightlyRunOpen(at: nat): Run { Run(NightlyBackup(), at, map[], false, ["data"]) }

  lemma NightlyOpens(w: World, at: nat, inp: Inputs)
    requires Nightly(w, at) && w.runs == map[] && inp.faults == {} && Lists(w, inp)
    requires forall j :: j in w.jobs ==> !Unfinished(w.jobs[j])
    ensures Leads(w, ReconcileStep(NIGHTLY, inp), w.(runs := map[NIGHTLY := NightlyRunOpen(at)]))
  {
    DailySlots();
    AloneIsFree(w, w.backups[NIGHTLY], inp);
    FindsNothing(w.jobs, inp.jobList, NIGHTLY, PrunePrefix("b"));
    FindsNothing(w.jobs, inp.jobList, NIGHTLY, BackupPrefix("b"));
    OpensPlainly(w, NIGHTLY, inp);
    assert w.runs[NIGHTLY := NightlyRunOpen(at)] == map[NIGHTLY := NightlyRunOpen(at)];
  }

  lemma NightlyLaunches(w: World, at: nat, inp: Inputs)
    requires Nightly(w, at) && w.runs == map[NIGHTLY := NightlyRunOpen(at)] && inp.faults == {WriteUploading} && Lists(w, inp)
    requires NightlyJob(at) !in w.jobs
    ensures Leads(w, LaunchStep(NIGHTLY, inp), WithJob(w, NIGHTLY))
    ensures Started(w, LaunchStep(NIGHTLY, inp), NIGHTLY) == 1
  {
    NightlyCanLaunch(w, at, inp);
    NotAborted(w, NIGHTLY, inp);
    LaunchLost(w, NIGHTLY, inp);
    WithJobAdds(w, NIGHTLY);
  }

  lemma NightlyCanLaunch(w: World, at: nat, inp: Inputs)
    requires Nightly(w, at) && w.runs == map[NIGHTLY := NightlyRunOpen(at)] && Lists(w, inp)
    ensures Enabled(w, LaunchStep(NIGHTLY, inp)) && !w.backups[NIGHTLY].status.phase.Failed?
  {
  }

  lemma WithJobAdds(w: World, k: Key)
    requires k in w.runs && w.runs[k].b.key == k && Key(k.ns, LaunchName(w.runs[k])) !in w.jobs
    ensures AddsBackup(w, WithJob(w, k), k)
  {
  }

  /** The states of the run: the Job of the first start ends before any reconcile adopts it, and a second later the same
      slot is due again. */
  function NightlyState(i: nat): World {
    var w0 := World(map[NIGHTLY := NightlyBackup()], map[], map[], Scene(map[], {}), map[], MIDNIGHT * NANOS, 0);
    var job := Job(OfBackup(NIGHTLY), BackupJob, MIDNIGHT, MIDNIGHT, 0, 0, ["data"]);
    if i == 0 then w0
    else if i == 1 then w0.(runs := map[NIGHTLY := NightlyRunOpen(MIDNIGHT)])
    else if i == 2 then w0.(jobs := map[NightlyJob(MIDNIGHT) := job])
    else
      var w3 := w0.(jobs := map[NightlyJob(MIDNIGHT) := job.(succeeded := 1)]);
      var w4 := w3.(now := (MIDNIGHT + 1) * NANOS);
      var w5 := w4.(runs := map[NIGHTLY := NightlyRunOpen(MIDNIGHT + 1)]);
      if i == 3 then w3 else if i == 4 then w4 else if i == 5 then w5 else WithJob(w5, NIGHTLY)
  }

  function NightlyStep(i: nat): Step {
    if i == 0 then ReconcileStep(NIGHTLY, Calls([], [NIGHTLY], [], {}))
    else if i == 1 then LaunchStep(NIGHTLY, Calls([], [NIGHTLY], [], {WriteUploading}))
    else if i == 2 then FinishJob(NightlyJob(MIDNIGHT), true)
    else if i == 3 then Tick(NANOS)
    else if i == 4 then ReconcileStep(NIGHTLY, Calls([NightlyJob(MIDNIGHT)], [NIGHTLY], [], {}))
    else LaunchStep(NIGHTLY, Calls([NightlyJob(MIDNIGHT)], [NIGHTLY], [], {WriteUploading}))
  }

  function NightlyTrace(): seq<World> { seq(7, i requires 0 <= i < 7 => NightlyState(i)) }

  function NightlySteps(): seq<Step> { seq(6, i requires 0 <= i < 6 => NightlyStep(i)) }

  lemma NightlyLeads(i: nat)
    requires i < 6
    ensures Leads(NightlyState(i), NightlyStep(i), NightlyState(i + 1))
    ensures Started(NightlyState(i), NightlyStep(i), NIGHTLY) == if i == 1 || i == 5 then 1 else 0
  {
    if i == 0 || i == 4 {
      NightlyOpens(NightlyState(i), if i == 0 then MIDNIGHT else MIDNIGHT + 1, NightlyStep(i).inp);
    } else if i == 1 {
      NightlyLaunches(NightlyState(1), MIDNIGHT, NightlyStep(1).inp);
      FirstLaunch();
    } else if i == 5 {
      BackupJobNameInjective("b", "b", MIDNIGHT, MIDNIGHT + 1);
      NightlyLaunches(NightlyState(5), MIDNIGHT + 1, NightlyStep(5).inp);
    } else {
      NightlyEnvironment(i);
    }
  }

  lemma FirstLaunch()
    ensures WithJob(NightlyState(1), NIGHTLY) == NightlyState(2)
  {
    var w1, w2 := NightlyState(1), NightlyState(2);
    assert w1.runs - {NIGHTLY} == map[];
    assert Sec(w1.now) == MIDNIGHT;
  }

  lemma NightlyEnvironment(i: nat)
    requires i == 2 || i == 3
    ensures Leads(NightlyState(i), NightlyStep(i), NightlyState(i + 1))
  {
  }

  lemma NightlyIsRun()
    ensures IsRun(NightlyTrace(), NightlySteps())
  {
    var trace, steps := NightlyTrace(), NightlySteps();
    forall i | 0 <= i < |steps| ensures Leads(trace[i], steps[i], trace[i + 1]) {
      NightlyLeads(i);
    }
    NightlyBegins();
    LeadsAlong(trace, steps);
  }

  lemma NightlyBegins()
    ensures Initial(NightlyState(0))
  {
  }

  lemma {:induction false} NightlyStarts(n: nat)
    requires n <= 6 && IsRun(NightlyTrace(), NightlySteps())
    ensures ScheduledStarts(NightlyTrace(), NightlySteps(), n, NIGHTLY) == if n < 2 then 0 else if n < 6 then 1 else 2
  {
    if n > 0 {
      NightlyStarts(n - 1);
      NightlyLeads(n - 1);
    }
  }

  /** With its first status write lost, and the Job ended before it was adopted, a backup has two scheduled starts in
      a time that has one slot. */
  lemma LostWriteStartsTwice()
    ensures IsRun(NightlyTrace(), NightlySteps()) && LeastSlot(DAILY)
    ensures ScheduledStarts(NightlyTrace(), NightlySteps(), 6, NIGHTLY) == 2
    ensures NightlyTrace()[6].backups == map[NIGHTLY := NightlyBackup()]
    ensures |SlotSet(DAILY, NightlyBackup().meta.created, Sec(NightlyTrace()[6].now))| == 1
  {
    NightlyIsRun();
    NightlyStarts(6);
    NightlyEnds();
    OneSlot();
  }

  lemma NightlyEnds()
    ensures NightlyTrace()[6].backups == map[NIGHTLY := NightlyBackup()] && Sec(NightlyTrace()[6].now) == MIDNIGHT + 1
  {
    assert NightlyTrace()[6] == NightlyState(6);
  }

  lemma OneSlot()
    ensures LeastSlot(DAILY) && |SlotSet(DAILY, MIDNIGHT - 1, MIDNIGHT + 1)| == 1
  {
    DailySlots();
    SlotsCount(DAILY, MIDNIGHT - 1, MIDNIGHT + 1);
    assert Slots(DAILY, MIDNIGHT, MIDNIGHT + 1) == 0;
  }

  // ---------------------------------------------------------------------
  // Beyond 46 characters a backup Job is created beside a prune Job

  /** A name whose prune Jobs neither scan finds and no backup Job is called after. */
  predicate Unrecognised(name: string) { |name| >= 47 && !Confusable(name) }

  lemma PruneJobMissed(name: string, at: nat, other: nat)
    requires Unrecognised(name)
    ensures !HasPrefix(PruneJobName(name, at), PrunePrefix(name))
    ensures !HasPrefix(PruneJobName(name, at), BackupPrefix(name))
    ensures BackupJobName(name, other) != PruneJobName(name, at)
  {
    PrunePrefixSurvives(name, at);
    CutPruneLooksLikeBackup(name, at);
    UnseenNamesDiffer(name, other, at);
  }

  function PrunedKey(name: string): Key { Key("ns", name) }

  function PrunedBackup(name: string): PVCBackup {
    Submit(PrunedKey(name), Spec(["quiescedLive"], [], Cron(DAILY), Some(1)), MIDNIGHT - 1, "prune")
  }

  function PrunedJob(name: string): Key { Key("ns", PruneJobName(name, MIDNIGHT)) }

  /** What becomes of the backup: its prune has started, is told to stop, and has failed. */
  function PrunedBackupAt(name: string, i: nat): PVCBackup {
    var b0 := PrunedBackup(name);
    var b1 := b0.(meta := b0.meta.(rv := 1), status := b0.status.(phase := Pruning, lastForcePrune := "prune"));
    var b2 := b1.(meta := b1.meta.(rv := 2, forceCancel := "cancel"));
    if i == 0 then b0 else if i == 1 then b1 else if i == 2 then b2
    else b2.(meta := b2.meta.(rv := 3), status := b2.status.(phase := Failed, lastForceCancel := "cancel"))
  }

  function PrunedWorld(name: string, b: PVCBackup, jobs: map<Key, Job>): World {
    World(map[PrunedKey(name) := b], map[], jobs, Scene(map[], {}), map[], MIDNIGHT * NANOS, 0)
  }

  function PrunedJobs(name: string): map<Key, Job> {
    map[PrunedJob(name) := Job(OfBackup(PrunedKey(name)), PruneJob, MIDNIGHT, MIDNIGHT, 0, 0, [])]
  }

  /** A prune whose status write after Job creation was lost, then cancelled, then the next due slot. */
  function PrunedState(name: string, i: nat): World {
    if i == 0 then PrunedWorld(name, PrunedBackup(name), map[])
    else if i < 4 then PrunedWorld(name, PrunedBackupAt(name, i), PrunedJobs(name))
    else Opened(PrunedWorld(name, PrunedBackupAt(name, 3), PrunedJobs(name)), PrunedKey(name))
  }

  function PrunedStep(name: string, i: nat): Step {
    var k := PrunedKey(name);
    if i == 0 then ReconcileStep(k, Calls([], [k], [], {WritePruneJob}))
    else if i == 1 then Annotate(k, CancelToken, "cancel")
    else if i == 4 then LaunchStep(k, Calls([PrunedJob(name)], [k], [], {}))
    else ReconcileStep(k, Calls([PrunedJob(name)], [k], [], {}))
  }

  lemma PruneStarts(name: string)
    requires name != ""
    ensures Leads(PrunedState(name, 0), PrunedStep(name, 0), PrunedState(name, 1))
  {
    var b, k, inp := PrunedBackup(name), PrunedKey(name), PrunedStep(name, 0).inp;
    var w := PrunedWorld(name, b, map[]);
    assert Sec(w.now) == MIDNIGHT;
    LostPruneStart(w, b, inp);
    assert Reconcile(w, k, inp) == StartPrune(w, b, inp);
  }

  /** A prune of an idle backup whose last status write is lost. */
  lemma LostPruneStart(w: World, b: PVCBackup, inp: Inputs)
    requires Known(w, b) && b == w.backups[b.key] && b.status.phase.NoPhase? && b.spec.keepLast == Some(1)
    requires inp.faults == {WritePruneJob} && Key(b.key.ns, PruneJobName(b.key.name, Sec(w.now))) !in w.jobs
    ensures var job := Job(OfBackup(b.key), PruneJob, Sec(w.now), Sec(w.now), 0, 0, []);
            StartPrune(w, b, inp) ==
            w.(jobs := w.jobs[Key(b.key.ns, PruneJobName(b.key.name, Sec(w.now))) := job],
               backups := w.backups[b.key := b.(meta := b.meta.(rv := b.meta.rv + 1),
                                                status := b.status.(phase := Pruning, lastForcePrune := b.meta.forcePrune))])
  {
    var pruning := b.(status := b.status.(lastForcePrune := b.meta.forcePrune, phase := Pruning));
    var r := WriteStatus(w, pruning, WritePruning, inp.faults);
    assert r.ok && StartPrune(w, b, inp) == StartedPrune(r.w, r.b, inp);
  }

  lemma PruneAnnotated(name: string)
    ensures Leads(PrunedState(name, 1), PrunedStep(name, 1), PrunedState(name, 2))
  {
  }

  lemma PruneCancelled(name: string)
    ensures Leads(PrunedState(name, 2), PrunedStep(name, 2), PrunedState(name, 3))
  {
    var w, b, inp := PrunedState(name, 2), PrunedBackupAt(name, 2), PrunedStep(name, 2).inp;
    assert Reconcile(w, PrunedKey(name), inp) == Cancel(w, b, inp);
  }

  lemma DueBesidePrune(name: string)
    requires Unrecognised(name)
    ensures Leads(PrunedState(name, 3), PrunedStep(name, 3), PrunedState(name, 4))
  {
    DueIsEnabled(name);
    DueWith(name, PrunedState(name, 3), PrunedStep(name, 3).inp);
  }

  lemma DueIsEnabled(name: string)
    ensures var w, s := PrunedState(name, 3), PrunedStep(name, 3);
            Enabled(w, s) && s.ReconcileStep? && s.k == PrunedKey(name) && s.inp.faults == {} && s.inp.scaleFaults == {} &&
            w == PrunedWorld(name, PrunedBackupAt(name, 3), PrunedJobs(name)) && PrunedState(name, 4) == Opened(w, PrunedKey(name))
  {
  }

  lemma DueWith(name: string, w: World, inp: Inputs)
    requires Unrecognised(name) && w.backups == map[PrunedKey(name) := PrunedBackupAt(name, 3)] && w.jobs == PrunedJobs(name)
    requires w.restores == map[] && w.runs == map[] && w.now == MIDNIGHT * NANOS && w.scene == Scene(map[], {})
    requires inp.faults == {} && inp.scaleFaults == {}
    ensures Reconcile(w, PrunedKey(name), inp) == Opened(w, PrunedKey(name))
  {
    var k := PrunedKey(name);
    DailySlots();
    PruneJobMissed(name, MIDNIGHT, MIDNIGHT);
    AloneIsFree(w, w.backups[k], inp);
    FindsNothing(w.jobs, inp.jobList, k, PrunePrefix(name));
    FindsNothing(w.jobs, inp.jobList, k, BackupPrefix(name));
    OpensQuiesced(w, k, inp);
  }

  lemma PrunedLeads(name: string, i: nat)
    requires Unrecognised(name) && i < 4
    ensures Leads(PrunedState(name, i), PrunedStep(name, i), PrunedState(name, i + 1))
  {
    if i == 0 {
      PruneStarts(name);
    } else if i == 1 {
      PruneAnnotated(name);
    } else if i == 2 {
      PruneCancelled(name);
    } else {
      DueBesidePrune(name);
    }
  }

  lemma CanLaunchBesidePrune(name: string)
    ensures var w, k := PrunedState(name, 4), PrunedKey(name);
            Enabled(w, PrunedStep(name, 4)) && k in w.runs && w.backups.Keys == {k} && w.restores == map[] &&
            w.backups[k].status.phase.Quiescing? && w.jobs == PrunedJobs(name) && LaunchName(w.runs[k]) == BackupJobName(name, MIDNIGHT)
  {
  }

  lemma LaunchesBesidePrune(name: string)
    requires Unrecognised(name)
    ensures var w, k, s := PrunedState(name, 4), PrunedKey(name), PrunedStep(name, 4);
            Enabled(w, s) && k in w.runs && AddsBackup(w, Apply(w, s), k) && !Idle(w, OfBackup(k), PruneJob)
  {
    var w, k, s := PrunedState(name, 4), PrunedKey(name), PrunedStep(name, 4);
    CanLaunchBesidePrune(name);
    PruneJobMissed(name, MIDNIGHT, MIDNIGHT);
    NotAborted(w, k, s.inp);
    LaunchCreates(w, k, s.inp);
    assert Live(w, PrunedJob(name), OfBackup(k), PruneJob);
  }

  /** For every name of 47 characters or more that is not confusable there is a run in which a backup Job is created while
      a prune Job of the same backup is unfinished. */
  lemma BackupJobBesidePrune(name: string) returns (trace: seq<World>, steps: seq<Step>)
    requires Unrecognised(name)
    ensures IsRun(trace, steps) && |steps| == 5 && PrunedKey(name) in trace[4].runs
    ensures AddsBackup(trace[4], trace[5], PrunedKey(name)) && !Idle(trace[4], OfBackup(PrunedKey(name)), PruneJob)
  {
    LaunchesBesidePrune(name);
    var last := Apply(PrunedState(name, 4), PrunedStep(name, 4));
    trace := seq(6, i requires 0 <= i < 6 => if i < 5 then PrunedState(name, i) else last);
    steps := seq(5, i requires 0 <= i < 5 => PrunedStep(name, i));
    forall i | 0 <= i < |steps| ensures Leads(trace[i], steps[i], trace[i + 1]) {
      if i < 4 { PrunedLeads(name, i); }
    }
    PrunedBegins(name);
    LeadsAlong(trace, steps);
  }

  lemma PrunedBegins(name: string)
    ensures Initial(PrunedState(name, 0))
  {
  }

  // ---------------------------------------------------------------------
  // Replica counts lost to the fallback

  const STORE := Key("ns", "db")
  const DB := Workload(StatefulSet, "ns", "db")
  const COUNTS: map<Workload, int> := map[DB := 3]

  function StoreBackup(schedule: Types.Schedule): PVCBackup {
    Submit(STORE, Spec(["quiescedLive"], [Target("StatefulSet", "", "db")], schedule, None), MIDNIGHT - 1, "")
  }

  function StoreWorld(schedule: Types.Schedule, restores: map<Key, PVCRestore>): World {
    World(map[STORE := StoreBackup(schedule)], restores, map[], Scene(COUNTS, {}), map[], MIDNIGHT * NANOS, 0)
  }

  ghost predicate IsStore(b: PVCBackup) {
    b.key == STORE && b.spec.targets == [Target("StatefulSet", "", "db")] && b.spec.pipeline == ["quiescedLive"] &&
    !b.spec.leaveDown && b.spec.pvcNames == [] && b.spec.pvcName == "data"
  }

  lemma StoreIsPlain(b: PVCBackup)
    requires IsStore(b)
    ensures Plain(b) && Ws(b) == [DB] && Own(b) == {KeyOf(DB)}
  {
    var t := b.spec.targets[0];
    assert KindOf("StatefulSet") == Some(StatefulSet) && TargetNS(t, "ns") == "ns";
    assert Ws(b) == [DB];
    assert multiset([DB]) == multiset{DB};
    KeyOfTarget(t, "ns");
    assert "quiescedLive" in Pipeline(b.spec);
  }

  /** A backup whose schedule does not parse: its first reconcile puts three replicas at one, though no call fails. */
  lemma MalformedScheduleFallsBack() returns (trace: seq<World>, steps: seq<Step>)
    ensures IsRun(trace, steps) && |steps| == 1
    ensures steps[0] == ReconcileStep(STORE, Calls([], [STORE], [], {}))
    ensures DB in trace[0].scene.replicas && trace[0].scene.replicas[DB] == 3
    ensures DB in trace[1].scene.replicas && trace[1].scene.replicas[DB] == 1
  {
    var w, s := StoreWorld(Malformed, map[]), ReconcileStep(STORE, Calls([], [STORE], [], {}));
    StoreIsPlain(w.backups[STORE]);
    StoreBegins(Malformed, map[]);
    FindsNothing(w.jobs, s.inp.jobList, STORE, PrunePrefix("db"));
    FindsNothing(w.jobs, s.inp.jobList, STORE, BackupPrefix("db"));
    assert DB in Ws(w.backups[STORE]);
    ReconcileResting(w, STORE, s.inp, COUNTS);
    trace, steps := [w, Apply(w, s)], [s];
    assert Leads(trace[0], steps[0], trace[1]);
    LeadsAlong(trace, steps);
  }

  lemma StoreBegins(schedule: Types.Schedule, restores: map<Key, PVCRestore>)
    requires forall r :: r in restores ==> restores[r].key == r && FreshRestore(restores[r])
    ensures Initial(StoreWorld(schedule, restores))
  {
  }

  // A restore whose preemption loses its status write, a launch that finds the session busy, and a second restore.

  const FIRST := Key("ns", "first")
  const SECOND := Key("ns", "second")

  function OverData(r: Key, phase: Phase, job: string): PVCRestore {
    PVCRestore(r, FromResticToExistingPVC, "data", "", phase, job)
  }

  /** The two restores over the backup's claim, the first in the given phase. */
  ghost predicate Contended(w: World, first: Phase, job: string) {
    && w.restores == map[FIRST := OverData(FIRST, first, job), SECOND := OverData(SECOND, NoPhase, "")]
    && w.backups.Keys == {STORE} && IsStore(w.backups[STORE])
    && DB in w.scene.replicas
  }

  lemma StoreOverlaps(b: PVCBackup, r: PVCRestore)
    requires IsStore(b) && r.mode.FromResticToExistingPVC? && r.existingPVC == "data" && r.key.ns == "ns"
    ensures PvcKeysOverlap(RestorePVCKeys(r), BackupPVCKeys(b)) && PvcKeysOverlap(BackupPVCKeys(b), RestorePVCKeys(r))
  {
    var pvcs := PvcList(b.spec);
    assert pvcs == ["data"] && pvcs[..0] == [];
    assert ClaimKeys("ns", []) == [];
    assert BackupPVCKeys(b) == [PvcKey("ns", "data")];
    assert PvcKey("ns", "data") in BackupPVCKeys(b) && PvcKey("ns", "data") in RestorePVCKeys(r);
  }

  /** A restore that no other one holds back preempts exactly this backup. */
  lemma PreemptsStore(w: World, r: PVCRestore, inp: Inputs)
    requires Keyed(w) && w.backups.Keys == {STORE} && IsStore(w.backups[STORE]) && inp.backupList == [STORE]
    requires r.mode.FromResticToExistingPVC? && r.existingPVC == "data" && r.key.ns == "ns"
    requires BackupPhaseActive(w.backups[STORE].status.phase)
    ensures Preempt(w, r, inp) == Interrupt(w, STORE, inp)
  {
    var keys, self := RestorePVCKeys(r), OfRestore(r.key);
    StoreOverlaps(w.backups[STORE], r);
    assert inp.backupList[..0] == [] && BackupHolders(w, [], keys, self) == [];
    assert BackupHolders(w, inp.backupList, keys, self) == [STORE];
    assert [STORE][..0] == [] && InterruptAll(w, [], inp) == w;
    assert InterruptAll(w, [STORE], inp) == Interrupt(w, STORE, inp);
  }

  lemma LostInterrupt(w: World, k: Key, inp: Inputs)
    requires Keyed(w) && k in w.backups && WriteFailed in inp.faults && !w.backups[k].status.phase.Failed?
    ensures Interrupt(w, k, inp).backups[k].status == w.backups[k].status
  {
  }

  /** The first restore takes the claim, but its preemption is not noted: the run goes on. */
  lemma FirstRestoreStarts(w: World, inp: Inputs)
    requires Keyed(w) && Lists(w, inp) && Contended(w, NoPhase, "") && InRunOf(w) && w.jobs == map[]
    requires inp.backupList == [STORE] && inp.faults == {WriteFailed} && inp.scaleFaults == {}
    ensures var w', n := RestoreReconcile(w, FIRST, inp), Key("ns", RestoreJobName("first", Sec(w.now)));
            Contended(w', Restoring, n.name) && InRunOf(w') && w'.runs == w.runs && w'.now == w.now && n.name != "" &&
            w'.jobs == map[n := Job(OfRestore(FIRST), RestoreJob, Sec(w.now), Sec(w.now), 0, 0, ["data"])]
  {
    var r := w.restores[FIRST];
    assert |RestoreJobName("first", Sec(w.now))| > 0;
    UnnotedPreemption(w, r, inp);
    FirstRestoreCreates(Interrupt(w, STORE, inp), r, inp);
    FirstRestorePasses(w, r, inp);
    RestoreCreated(Interrupt(w, STORE, inp), RestoreReconcile(w, FIRST, inp));
  }

  lemma RestoreCreated(w1: World, w': World)
    requires Contended(w1, NoPhase, "") && InRunOf(w1) && w1.jobs == map[]
    requires var n := Key("ns", RestoreJobName("first", Sec(w1.now)));
             w' == w1.(jobs := map[n := Job(OfRestore(FIRST), RestoreJob, Sec(w1.now), Sec(w1.now), 0, 0, ["data"])],
                       restores := w1.restores[FIRST := OverData(FIRST, Restoring, n.name)])
    ensures var n := Key("ns", RestoreJobName("first", Sec(w1.now))); Contended(w', Restoring, n.name) && InRunOf(w')
  {
    SameButRestores(w1, w');
  }

  lemma UnnotedPreemption(w: World, r: PVCRestore, inp: Inputs)
    requires Keyed(w) && Contended(w, NoPhase, "") && InRunOf(w) && w.jobs == map[] && r == w.restores[FIRST]
    requires WriteFailed in inp.faults && PatchAnnotation !in inp.faults && inp.scaleFaults == {}
    ensures var w1 := Interrupt(w, STORE, inp);
            Contended(w1, NoPhase, "") && InRunOf(w1) && w1.runs == w.runs && w1.now == w.now && w1.jobs == map[]
  {
    StoreIsPlain(w.backups[STORE]);
    LostInterrupt(w, STORE, inp);
    InterruptConserves(w, STORE, inp, COUNTS);
    assert DB in Ws(w.backups[STORE]);
  }

  /** A restore that nothing holds back goes on to create its Job. */
  lemma RestorePasses(w: World, k: Key, inp: Inputs)
    requires Keyed(w) && Lists(w, inp) && k in w.restores && w.restores[k].phase.NoPhase?
    requires w.restores[k].mode.FromResticToExistingPVC? && GetRepo !in inp.faults
    requires RestoreHolders(w, inp.restoreList, RestorePVCKeys(w.restores[k]), OfRestore(k)) == []
    ensures RestoreReconcile(w, k, inp) == CreateRestore(Preempt(w, w.restores[k], inp), w.restores[k], inp)
  {
  }

  lemma FirstIsFree(w: World, r: PVCRestore, inp: Inputs)
    requires Contended(w, NoPhase, "") && r == w.restores[FIRST]
    ensures RestoreHolders(w, inp.restoreList, RestorePVCKeys(r), OfRestore(FIRST)) == []
    ensures r.mode.FromResticToExistingPVC? && r.existingPVC == "data" && r.phase.NoPhase? && r.key == FIRST
  {
    NoRestoreHolds(w, inp.restoreList, RestorePVCKeys(r), OfRestore(FIRST));
  }

  lemma FirstRestorePasses(w: World, r: PVCRestore, inp: Inputs)
    requires Keyed(w) && Lists(w, inp) && Contended(w, NoPhase, "") && InRunOf(w) && r == w.restores[FIRST]
    requires inp.backupList == [STORE] && inp.faults == {WriteFailed}
    ensures RestoreReconcile(w, FIRST, inp) == CreateRestore(Interrupt(w, STORE, inp), r, inp)
  {
    FirstIsFree(w, r, inp);
    PreemptsStore(w, r, inp);
    RestorePasses(w, FIRST, inp);
  }

  /** A restore object and its Job have no part in where the counts of a run are. */
  lemma SameButRestores(w: World, w': World)
    requires InRunOf(w) && w'.backups == w.backups && w'.scene == w.scene && w'.runs == w.runs
    ensures InRunOf(w')
  {
  }

  lemma FirstRestoreCreates(w: World, r: PVCRestore, inp: Inputs)
    requires Contended(w, NoPhase, "") && r == w.restores[FIRST] && w.jobs == map[] && inp.faults == {WriteFailed}
    ensures var n := Key("ns", RestoreJobName("first", Sec(w.now)));
            var w1 := w.(jobs := map[n := Job(OfRestore(FIRST), RestoreJob, Sec(w.now), Sec(w.now), 0, 0, ["data"])]);
            CreateRestore(w, r, inp) == w1.(restores := w1.restores[FIRST := OverData(FIRST, Restoring, n.name)])
  {
  }

  /** The run of the backup holds the counts, and its phase is that of the quiesce. */
  ghost predicate InRunOf(w: World) {
    && STORE in w.backups && IsStore(w.backups[STORE]) && Calm(w, STORE, COUNTS) && STORE in w.runs
    && w.backups[STORE].status.phase.Quiescing? && w.runs[STORE].b.key == STORE && Known(w, w.runs[STORE].b)
  }

  ghost predicate AtRestOf(w: World) {
    STORE in w.backups && IsStore(w.backups[STORE]) && Plain(w.backups[STORE]) && AtRest(w, STORE, COUNTS) &&
    w.backups[STORE].status.phase.Quiescing?
  }

  /** The launch finds the restore on the claim: nothing but the deferred restore happens, and the phase stays. */
  lemma BusyLaunchAborts(w: World, inp: Inputs, job: string)
    requires Wellformed(w) && Lists(w, inp) && Contended(w, Restoring, job) && InRunOf(w) && inp.scaleFaults == {}
    ensures var w' := Launch(w, STORE, inp);
            AtRestOf(w') && Contended(w', Restoring, job) && w'.jobs == w.jobs && w'.backups == w.backups && w'.now == w.now
  {
    var b, r := w.runs[STORE].b, w.restores[FIRST];
    StoreOverlaps(b, r);
    assert RestoreHolds(w, FIRST, BackupPVCKeys(b), OfBackup(STORE));
    assert FIRST in RestoreHolders(w, inp.restoreList, BackupPVCKeys(b), OfBackup(STORE));
    StoreIsPlain(w.backups[STORE]);
    StoreIsPlain(b);
    DeferredComesBack(Close(w, STORE), b, w.runs[STORE].quiesced, inp, COUNTS);
  }

  /** The first restore ends. */
  lemma FirstRestoreEnds(w: World, inp: Inputs, job: string)
    requires Keyed(w) && Lists(w, inp) && Contended(w, Restoring, job) && AtRestOf(w) && inp.faults == {} && job != ""
    requires Key("ns", job) in w.jobs && w.jobs[Key("ns", job)].succeeded > 0
    ensures var w' := RestoreReconcile(w, FIRST, inp); AtRestOf(w') && Contended(w', Succeeded, job) && w'.jobs == w.jobs
  {
    var r := w.restores[FIRST];
    assert RestoreReconcile(w, FIRST, inp) == WriteRestore(w, r.(phase := Succeeded), WriteRestored, inp.faults);
  }

  /** The second restore preempts the backup that has nothing in flight. */
  lemma SecondRestoreFallsBack(w: World, inp: Inputs, job: string)
    requires Keyed(w) && Lists(w, inp) && Contended(w, Succeeded, job) && AtRestOf(w)
    requires inp.backupList == [STORE] && inp.faults == {} && inp.scaleFaults == {}
    ensures var w' := RestoreReconcile(w, SECOND, inp); DB in w'.scene.replicas && w'.scene.replicas[DB] == 1
  {
    var r, b := w.restores[SECOND], w.backups[STORE];
    NoRestoreHolds(w, inp.restoreList, RestorePVCKeys(r), OfRestore(SECOND));
    PreemptsStore(w, r, inp);
    StoreIsPlain(b);
    assert DB in Ws(b);
    FailEnds(StopJobs(w, STORE, inp), b, inp);
    EndFallsBack(StopJobs(w, STORE, inp), Interrupt(w, STORE, inp), b, inp);
    RestorePasses(w, SECOND, inp);
  }

  lemma StoreOpens(w: World, inp: Inputs)
    requires w.backups == map[STORE := StoreBackup(Unscheduled)] && Contended(w, NoPhase, "")
    requires w.jobs == map[] && w.runs == map[] && w.scene == Scene(COUNTS, {})
    requires inp.faults == {} && inp.scaleFaults == {}
    ensures var w' := Reconcile(w, STORE, inp);
            Contended(w', NoPhase, "") && InRunOf(w') && w'.jobs == map[] && w'.now == w.now && w'.runs.Keys == {STORE}
  {
    var b := w.backups[STORE];
    StoreQuiesces(b, w.scene);
    StoreReconciles(w, b, inp);
    OpenedHolds(w, b);
    OpenedContended(w, b);
  }

  lemma StoreQuiesces(b: PVCBackup, s: Scene)
    requires IsStore(b) && s == Scene(COUNTS, {})
    ensures Plain(b) && Ws(b) == [DB]
    ensures var q := Quiesce(s, b.spec.targets, b.key.ns, {}); q.ok && Saves(q.state, Ws(b), COUNTS) && Present(q.scene, Ws(b))
  {
    StoreIsPlain(b);
    assert DB in Ws(b) && At(s, Ws(b), COUNTS);
    QuiesceSaves(b, s, COUNTS, {});
  }

  lemma StoreReconciles(w: World, b: PVCBackup, inp: Inputs)
    requires w.backups == map[STORE := b] && b == StoreBackup(Unscheduled) && Contended(w, NoPhase, "")
    requires w.jobs == map[] && w.runs == map[] && inp.faults == {} && inp.scaleFaults == {}
    requires Quiesce(w.scene, b.spec.targets, b.key.ns, {}).ok
    ensures Reconcile(w, STORE, inp) == Opened(w, STORE)
  {
    FindsNothing(w.jobs, inp.jobList, STORE, PrunePrefix("db"));
    FindsNothing(w.jobs, inp.jobList, STORE, BackupPrefix("db"));
    AloneIsFree(w, b, inp);
    OpensQuiesced(w, STORE, inp);
  }

  lemma OpenedContended(w: World, b: PVCBackup)
    requires Contended(w, NoPhase, "") && b == w.backups[STORE] && w.runs == map[]
    requires var q := Quiesce(w.scene, b.spec.targets, b.key.ns, {}); Present(q.scene, [DB])
    ensures var w' := Opened(w, STORE);
            Contended(w', NoPhase, "") && w'.jobs == w.jobs && w'.now == w.now && w'.runs.Keys == {STORE}
  {
    assert DB in [DB];
  }

  lemma OpenedHolds(w: World, b: PVCBackup)
    requires IsStore(b) && w.backups == map[STORE := b] && b.meta.quiesce == map[] && Plain(b)
    requires var q := Quiesce(w.scene, b.spec.targets, b.key.ns, {}); Saves(q.state, Ws(b), COUNTS) && Present(q.scene, Ws(b))
    ensures InRunOf(Opened(w, STORE))
  {
    var w', q := Opened(w, STORE), Quiesce(w.scene, b.spec.targets, b.key.ns, {});
    assert w'.backups[STORE] == Quiesced(b);
    StoreIsPlain(Quiesced(b));
    assert Ws(Quiesced(b)) == Ws(b);
    assert InRun(w', STORE, COUNTS);
  }

  function ContentionStep(i: nat, job: Key): Step {
    var restores := [FIRST, SECOND];
    if i == 0 then ReconcileStep(STORE, Calls([], [STORE], restores, {}))
    else if i == 1 then RestoreStep(FIRST, Calls([], [STORE], restores, {WriteFailed}))
    else if i == 2 then LaunchStep(STORE, Calls([job], [STORE], restores, {}))
    else if i == 3 then FinishJob(job, true)
    else if i == 4 then RestoreStep(FIRST, Calls([job], [STORE], restores, {}))
    else RestoreStep(SECOND, Calls([job], [STORE], restores, {}))
  }

  /** A launch aborted because the session is busy leaves Quiescing with nothing recorded, and the next restore that
      preempts the backup puts three replicas at one. Before that restore the counts are all back. */
  lemma BusyAbortThenPreempted() returns (trace: seq<World>, steps: seq<Step>)
    ensures IsRun(trace, steps) && |steps| == 6
    ensures DB in trace[0].scene.replicas && trace[0].scene.replicas[DB] == 3
    ensures AtRestOf(trace[5]) && steps[5].RestoreStep? && steps[5].inp.faults == {}
    ensures DB in trace[6].scene.replicas && trace[6].scene.replicas[DB] == 1
  {
    var job := Key("ns", RestoreJobName("first", MIDNIGHT));
    var restores := map[FIRST := OverData(FIRST, NoPhase, ""), SECOND := OverData(SECOND, NoPhase, "")];
    var w0 := StoreWorld(Unscheduled, restores);
    StoreBegins(Unscheduled, restores);
    var w1, w2, w3 := UntilAborted(w0, job);
    var w4, w5, w6 := UntilPreempted(w3, job);
    trace, steps := [w0, w1, w2, w3, w4, w5, w6], ContentionSteps(job);
    SixSteps(w0, w1, w2, w3, w4, w5, w6, steps);
  }

  lemma UntilAborted(w0: World, job: Key) returns (w1: World, w2: World, w3: World)
    requires w0 == StoreWorld(Unscheduled, map[FIRST := OverData(FIRST, NoPhase, ""), SECOND := OverData(SECOND, NoPhase, "")])
    requires job == Key("ns", RestoreJobName("first", MIDNIGHT))
    ensures Leads(w0, ContentionStep(0, job), w1) && Leads(w1, ContentionStep(1, job), w2) && Leads(w2, ContentionStep(2, job), w3)
    ensures Wellformed(w3) && Contended(w3, Restoring, job.name) && AtRestOf(w3) && job.name != ""
    ensures w3.jobs.Keys == {job} && Unfinished(w3.jobs[job])
  {
    w1 := FollowOpen(w0, job);
    w2 := FollowRestore(w1, job);
    w3 := FollowLaunch(w2, job);
  }

  lemma UntilPreempted(w3: World, job: Key) returns (w4: World, w5: World, w6: World)
    requires Wellformed(w3) && Contended(w3, Restoring, job.name) && AtRestOf(w3) && job.name != "" && job.ns == "ns"
    requires w3.jobs.Keys == {job} && Unfinished(w3.jobs[job])
    ensures Leads(w3, ContentionStep(3, job), w4) && Leads(w4, ContentionStep(4, job), w5) && Leads(w5, ContentionStep(5, job), w6)
    ensures AtRestOf(w5) && DB in w6.scene.replicas && w6.scene.replicas[DB] == 1
  {
    w4 := FollowFinish(w3, job);
    w5 := FollowEnd(w4, job);
    w6 := FollowSecond(w5, job);
  }

  lemma SixSteps(w0: World, w1: World, w2: World, w3: World, w4: World, w5: World, w6: World, steps: seq<Step>)
    requires |steps| == 6 && Initial(w0) && Leads(w0, steps[0], w1) && Leads(w1, steps[1], w2) && Leads(w2, steps[2], w3)
    requires Leads(w3, steps[3], w4) && Leads(w4, steps[4], w5) && Leads(w5, steps[5], w6)
    ensures IsRun([w0, w1, w2, w3, w4, w5, w6], steps)
  {
    LeadsAlong([w0, w1, w2, w3, w4, w5, w6], steps);
  }

  function ContentionSteps(job: Key): (steps: seq<Step>)
    ensures |steps| == 6 && forall i :: 0 <= i < 6 ==> steps[i] == ContentionStep(i, job)
    ensures steps[5].RestoreStep? && steps[5].inp.faults == {}
  {
    seq(6, i requires 0 <= i < 6 => ContentionStep(i, job))
  }

  lemma FollowOpen(w: World, job: Key) returns (w': World)
    requires w == StoreWorld(Unscheduled, map[FIRST := OverData(FIRST, NoPhase, ""), SECOND := OverData(SECOND, NoPhase, "")])
    ensures Leads(w, ContentionStep(0, job), w')
    ensures Wellformed(w') && Contended(w', NoPhase, "") && InRunOf(w') && w'.jobs == map[] && w'.now == w.now
  {
    var s := ContentionStep(0, job);
    StoreOpens(w, s.inp);
    w' := Apply(w, s);
  }

  lemma FollowRestore(w: World, job: Key) returns (w': World)
    requires Wellformed(w) && Contended(w, NoPhase, "") && InRunOf(w) && w.jobs == map[] && Sec(w.now) == MIDNIGHT
    requires job == Key("ns", RestoreJobName("first", MIDNIGHT))
    ensures Leads(w, ContentionStep(1, job), w') && job.name != ""
    ensures Wellformed(w') && Contended(w', Restoring, job.name) && InRunOf(w') && w'.jobs.Keys == {job} && Unfinished(w'.jobs[job])
  {
    var s := ContentionStep(1, job);
    CanRestore(w, job);
    RestoredWellformed(w, s.inp);
    FirstRestoreRuns(w, s.inp, job);
    w' := RestoreReconcile(w, FIRST, s.inp);
  }

  lemma FirstRestoreRuns(w: World, inp: Inputs, job: Key)
    requires Wellformed(w) && Contended(w, NoPhase, "") && InRunOf(w) && w.jobs == map[] && Lists(w, inp)
    requires Sec(w.now) == MIDNIGHT && job == Key("ns", RestoreJobName("first", MIDNIGHT))
    requires inp.backupList == [STORE] && inp.faults == {WriteFailed} && inp.scaleFaults == {}
    ensures var w' := RestoreReconcile(w, FIRST, inp);
            Contended(w', Restoring, job.name) && InRunOf(w') && w'.jobs.Keys == {job} &&
            Unfinished(w'.jobs[job]) && job.name != ""
  {
    FirstRestoreStarts(w, inp);
  }

  lemma CanRestore(w: World, job: Key)
    requires Wellformed(w) && Contended(w, NoPhase, "") && w.jobs == map[]
    ensures var s := ContentionStep(1, job);
            Enabled(w, s) && s.RestoreStep? && s.k == FIRST && Keyed(w) && Lists(w, s.inp) && FIRST in w.restores &&
            s.inp.backupList == [STORE] && s.inp.faults == {WriteFailed} && s.inp.scaleFaults == {} &&
            Apply(w, s) == RestoreReconcile(w, FIRST, s.inp)
  {
  }

  lemma RestoredWellformed(w: World, inp: Inputs)
    requires Wellformed(w) && Lists(w, inp) && FIRST in w.restores
    ensures Wellformed(RestoreReconcile(w, FIRST, inp))
  {
  }

  lemma FollowLaunch(w: World, job: Key) returns (w': World)
    requires Wellformed(w) && Contended(w, Restoring, job.name) && InRunOf(w) && w.jobs.Keys == {job} && Unfinished(w.jobs[job])
    ensures Leads(w, ContentionStep(2, job), w')
    ensures Wellformed(w') && Contended(w', Restoring, job.name) && AtRestOf(w') && w'.jobs == w.jobs
  {
    var s := ContentionStep(2, job);
    BusyLaunchAborts(w, s.inp, job.name);
    w' := Apply(w, s);
    OwnerWellformed(w, w', STORE);
  }

  lemma FollowFinish(w: World, job: Key) returns (w': World)
    requires Wellformed(w) && Contended(w, Restoring, job.name) && AtRestOf(w) && w.jobs.Keys == {job} && Unfinished(w.jobs[job])
    ensures Leads(w, ContentionStep(3, job), w')
    ensures Wellformed(w') && Contended(w', Restoring, job.name) && AtRestOf(w') && w'.jobs.Keys == {job} && w'.jobs[job].succeeded > 0
  {
    w' := Apply(w, ContentionStep(3, job));
  }

  lemma FollowEnd(w: World, job: Key) returns (w': World)
    requires Wellformed(w) && Contended(w, Restoring, job.name) && AtRestOf(w) && w.jobs.Keys == {job} && w.jobs[job].succeeded > 0
    requires job.ns == "ns" && job.name != ""
    ensures Leads(w, ContentionStep(4, job), w')
    ensures Wellformed(w') && Contended(w', Succeeded, job.name) && AtRestOf(w') && w'.jobs.Keys == {job}
  {
    var s := ContentionStep(4, job);
    CanEnd(w, job);
    FirstRestoreEnds(w, s.inp, job.name);
    w' := Apply(w, s);
    EndedWellformed(w, w');
  }

  lemma CanEnd(w: World, job: Key)
    requires Wellformed(w) && Contended(w, Restoring, job.name) && w.jobs.Keys == {job}
    ensures var s := ContentionStep(4, job);
            Enabled(w, s) && s.inp.faults == {} && Keyed(w) && Apply(w, s) == RestoreReconcile(w, FIRST, s.inp)
  {
  }

  lemma EndedWellformed(w: World, w': World)
    requires Wellformed(w) && OnlyRestore(w, w', FIRST)
    ensures Wellformed(w')
  {
  }

  lemma FollowSecond(w: World, job: Key) returns (w': World)
    requires Wellformed(w) && Contended(w, Succeeded, job.name) && AtRestOf(w) && w.jobs.Keys == {job}
    ensures Leads(w, ContentionStep(5, job), w') && DB in w'.scene.replicas && w'.scene.replicas[DB] == 1
  {
    var s := ContentionStep(5, job);
    SecondRestoreFallsBack(w, s.inp, job.name);
    w' := Apply(w, s);
  }
}
