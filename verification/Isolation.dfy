/** Two things the operator leaves alone: everything but the prune itself while pruning, and the replica counts of
    a backup that asked to be left down. */
module Isolation {
  import opened Text
  import opened Types
  import opened Workloads
  import opened JobNames
  import opened Protocol
  import opened OneJob

  // ---------------------------------------------------------------------
  // Prune

  /** What a prune must not touch in a backup. */
  ghost predicate BackupUntouched(b: PVCBackup, b': PVCBackup) {
    && b'.status.lastBackupTime == b.status.lastBackupTime
    && b'.status.lastSuccessTime == b.status.lastSuccessTime
    && b'.status.lastForceRun == b.status.lastForceRun
    && b'.meta.quiesce == b.meta.quiesce
  }

  lemma WriteUntouched(w: World, b: PVCBackup, call: Call, faults: set<Call>)
    requires Known(w, b) && BackupUntouched(w.backups[b.key], b)
    ensures var r := WriteStatus(w, b, call, faults);
            r.w.scene == w.scene && BackupUntouched(w.backups[b.key], r.w.backups[b.key]) &&
            BackupUntouched(w.backups[b.key], r.b)
  {
  }

  lemma FailPruneUntouched(w: World, b: PVCBackup, inp: Inputs)
    requires Known(w, b) && BackupUntouched(w.backups[b.key], b)
    ensures var w' := FailPrune(w, b, inp);
            w'.scene == w.scene && BackupUntouched(w.backups[b.key], w'.backups[b.key])
  {
  }

  lemma PollPruneUntouched(w: World, b: PVCBackup, inp: Inputs)
    requires Known(w, b) && BackupUntouched(w.backups[b.key], b)
    ensures var w' := PollPrune(w, b, inp);
            w'.scene == w.scene && BackupUntouched(w.backups[b.key], w'.backups[b.key])
  {
    FailPruneUntouched(w, b, inp);
  }

  lemma StartPruneUntouched(w: World, b: PVCBackup, inp: Inputs)
    requires Known(w, b) && b == w.backups[b.key]
    ensures var w' := StartPrune(w, b, inp);
            w'.scene == w.scene && BackupUntouched(w.backups[b.key], w'.backups[b.key])
  {
    var claimed := b.(status := b.status.(lastForcePrune := b.meta.forcePrune));
    if b.spec.keepLast.None? || b.spec.keepLast.value <= 0 {
      WriteUntouched(w, claimed, WritePruneToken, inp.faults);
      var r := WriteStatus(w, claimed, WritePruneToken, inp.faults);
      FailPruneUntouched(r.w, r.b, inp);
    } else {
      var pruning := claimed.(status := claimed.status.(phase := Pruning));
      WriteUntouched(w, pruning, WritePruning, inp.faults);
      var r := WriteStatus(w, pruning, WritePruning, inp.faults);
      if r.ok {
        FailPruneUntouched(r.w, r.b, inp);
        StartedPruneUntouched(r.w, r.b, inp);
      }
    }
  }

  lemma StartedPruneUntouched(w: World, b: PVCBackup, inp: Inputs)
    requires Known(w, b) && BackupUntouched(w.backups[b.key], b)
    ensures var w' := StartedPrune(w, b, inp);
            w'.scene == w.scene && BackupUntouched(w.backups[b.key], w'.backups[b.key])
  {
    var name := PruneJobName(b.key.name, Sec(w.now));
    var job := Job(OfBackup(b.key), PruneJob, Sec(w.now), Sec(w.now), 0, 0, []);
    var w1 := w.(jobs := CreateJobIfAbsent(w.jobs, Key(b.key.ns, name), job));
    var named := b.(status := b.status.(lastJobName := name));
    WriteUntouched(w1, named, WritePruneJob, inp.faults);
    var s := WriteStatus(w1, named, WritePruneJob, inp.faults);
    PollPruneUntouched(s.w, s.b, inp);
  }

  lemma AdoptPruneUntouched(w: World, b: PVCBackup, job: Key, inp: Inputs)
    requires Known(w, b) && b == w.backups[b.key]
    ensures var w' := AdoptPrune(w, b, job, inp);
            w'.scene == w.scene && BackupUntouched(w.backups[b.key], w'.backups[b.key])
  {
    var adopted := b.(status := b.status.(phase := Pruning, lastJobName := job.name));
    WriteUntouched(w, adopted, WriteAdopted, inp.faults);
    var r := WriteStatus(w, adopted, WriteAdopted, inp.faults);
    PollPruneUntouched(r.w, r.b, inp);
  }

  /** The reconciles that deal with a prune: polling or cancelling one, starting one, adopting one. */
  ghost predicate DealsWithPrune(w: World, k: Key, inp: Inputs) {
    k in w.backups && var b := w.backups[k];
    if ForceCancelPending(b) then b.status.phase.Pruning?
    else (b.status.phase.Pruning? && b.status.lastJobName != "") ||
         (!(b.status.phase.Uploading? && b.status.lastJobName != "") &&
          (ForcePrunePending(b) || FindPruneJob(w, k, inp).Some?))
  }

  /** No prune start, poll, failure or cancel touches a workload, the quiesce record, the schedule cursor, the last
      success, the run token or an open run. */
  lemma PruneIsolated(w: World, k: Key, inp: Inputs)
    requires k in w.backups && w.backups[k].key == k && PvcList(w.backups[k].spec) != []
    requires DealsWithPrune(w, k, inp)
    ensures var w' := Reconcile(w, k, inp);
            w'.scene == w.scene && w'.runs == w.runs && BackupUntouched(w.backups[k], w'.backups[k])
  {
    var b := w.backups[k];
    if ForceCancelPending(b) {
      var b1 := b.(status := b.status.(lastForceCancel := b.meta.forceCancel));
      FailPruneUntouched(DeleteJob(w, k.ns, b.status.lastJobName), b1, inp);
    } else if b.status.phase.Pruning? && b.status.lastJobName != "" {
      PollPruneUntouched(w, b, inp);
    } else if ForcePrunePending(b) {
      StartPruneUntouched(w, b, inp);
    } else {
      AdoptPruneUntouched(w, b, FindPruneJob(w, k, inp).value, inp);
    }
  }

  /** No backup Job is ever created while a prune Job of the same backup is unfinished, as long as one of the scans finds
      prune Jobs of its name, or both kinds share one name and creation is skipped. */
  lemma NoBackupJobDuringPrune(trace: seq<World>, steps: seq<Step>, n: nat, k: Key)
    requires IsRun(trace, steps) && n < |steps| && (|k.name| <= 46 || Confusable(k.name))
    requires steps[n].LaunchStep? && steps[n].k == k && AddsBackup(trace[n], trace[n + 1], k)
    ensures Idle(trace[n], OfBackup(k), PruneJob)
  {
    InvAlways(trace, steps, n);
    if |k.name| > 52 {
      forall j | Live(trace[n], j, OfBackup(k), PruneJob) ensures j == Key(k.ns, LaunchName(trace[n].runs[k])) {
        assert JobNamed(j, trace[n].jobs[j], trace[n].now);
        CutNamesEqual(k.name, trace[n].runs[k].started, trace[n].jobs[j].stamp);
      }
    }
  }

  // ---------------------------------------------------------------------
  // leaveDown

  /** Every workload is at its old count or at zero. */
  ghost predicate NeverRaised(s: Scene, s': Scene) {
    s'.replicas.Keys == s.replicas.Keys &&
    forall v :: v in s.replicas ==> s'.replicas[v] == s.replicas[v] || s'.replicas[v] == 0
  }

  lemma {:induction false} QuiesceOnlyLowers(s: Scene, targets: seq<Target>, ns: string, faults: set<Fault>)
    ensures NeverRaised(s, Quiesce(s, targets, ns, faults).scene)
  {
    if targets != [] {
      QuiesceOnlyLowers(s, targets[..|targets| - 1], ns, faults);
    }
  }

  /** With leaveDown, failing a backup scales nothing. */
  lemma FailLeavesDown(w: World, b: PVCBackup, inp: Inputs)
    requires Known(w, b) && b.spec.leaveDown
    ensures Fail(w, b, inp).w.scene == w.scene
  {
  }

  lemma {:induction false} SnapshotStepsLeaveDown(w: World, b: PVCBackup, steps: seq<string>, inp: Inputs)
    requires Known(w, b)
    ensures SnapshotSteps(w, b, steps, inp).m.w.scene == w.scene
  {
    if steps != [] {
      SnapshotStepsLeaveDown(w, b, steps[..|steps| - 1], inp);
    }
  }

  lemma SnapshotLeavesDown(w: World, b: PVCBackup, state: map<string, int>, forced: bool, inp: Inputs)
    requires Known(w, b) && b.spec.leaveDown
    ensures Snapshot(w, b, state, forced, inp).scene == w.scene
  {
    SnapshotStepsLeaveDown(w, b, Pipeline(b.spec), inp);
    var s := SnapshotSteps(w, b, Pipeline(b.spec), inp);
    FailLeavesDown(s.m.w, s.m.b, inp);
  }

  lemma PrepareLeavesDown(w: World, b: PVCBackup, forced: bool, inp: Inputs)
    requires Known(w, b) && b.spec.leaveDown
    ensures NeverRaised(w.scene, Prepare(w, b, forced, inp).scene)
  {
    FailLeavesDown(w, b, inp);
    if NeedQuiesce(b.spec) {
      var r := WriteStatus(w, b.(status := b.status.(phase := Quiescing)), WriteQuiescing, inp.faults);
      QuiesceOnlyLowers(r.w.scene, b.spec.targets, b.key.ns, inp.scaleFaults);
      var q := Quiesce(r.w.scene, b.spec.targets, b.key.ns, inp.scaleFaults);
      AfterQuiesceLeavesDown(r.w.(scene := q.scene), r.b, q, forced, inp);
    } else {
      SnapshotLeavesDown(w, b, map[], forced, inp);
    }
  }

  lemma AfterQuiesceLeavesDown(w: World, b: PVCBackup, q: Quiet, forced: bool, inp: Inputs)
    requires Known(w, b) && b.spec.leaveDown
    ensures AfterQuiesce(w, b, q, forced, inp).scene == w.scene
  {
    FailLeavesDown(w, b, inp);
    SnapshotLeavesDown(w, b, q.state, forced, inp);
  }

  lemma PollLeavesDown(w: World, b: PVCBackup, inp: Inputs)
    requires Known(w, b) && b.spec.leaveDown
    ensures PollBackup(w, b, inp).scene == w.scene
  {
    FailLeavesDown(w, b, inp);
  }

  /** With leaveDown, no reconcile of the backup raises a replica count: neither success nor failure nor cancel. */
  lemma ReconcileNeverRaises(w: World, k: Key, inp: Inputs)
    requires k in w.backups && w.backups[k].key == k && w.backups[k].spec.leaveDown
    ensures NeverRaised(w.scene, Reconcile(w, k, inp).scene)
  {
    var b := w.backups[k];
    if PvcList(b.spec) == [] {
      FailLeavesDown(w, b, inp);
    } else if DealsWithPrune(w, k, inp) {
      PruneIsolated(w, k, inp);
    } else if ForceCancelPending(b) {
      CancelLeavesDown(w, b, inp);
    } else if b.status.phase.Uploading? && b.status.lastJobName != "" {
      PollLeavesDown(w, b, inp);
    } else {
      RunBranchNeverRaises(w, k, inp);
    }
  }

  lemma CancelLeavesDown(w: World, b: PVCBackup, inp: Inputs)
    requires Known(w, b) && b.spec.leaveDown
    ensures Cancel(w, b, inp).scene == w.scene
  {
    var b1 := b.(status := b.status.(lastForceCancel := b.meta.forceCancel));
    FailLeavesDown(DeleteJob(w, b.key.ns, b.status.lastJobName), b1, inp);
  }

  /** A run is due. */
  predicate Starts(w: World, b: PVCBackup) {
    !b.status.phase.Pruning? &&
    if b.spec.schedule.Unscheduled?
    then ForceRunPending(b) || !(b.status.phase.Succeeded? || b.status.phase.Failed? || b.status.phase.Scheduled?)
    else ScheduleDue(b, w.now).DueNow?
  }

  /** The reconciles that neither deal with a prune nor cancel nor watch the Job the status names: adopting a Job,
      starting a run, failing on a malformed schedule, or waiting. */
  lemma RunBranches(w: World, k: Key, inp: Inputs)
    requires k in w.backups && w.backups[k].key == k
    requires var b := w.backups[k];
             PvcList(b.spec) != [] && !DealsWithPrune(w, k, inp) && !ForceCancelPending(b) &&
             !(b.status.phase.Uploading? && b.status.lastJobName != "")
    ensures var w', b, found := Reconcile(w, k, inp), w.backups[k], FindBackupJob(w, k, inp);
            if found.Some? then w' == w || w' == AdoptBackup(w, b, found.value, inp)
            else if Starts(w, b) then w' == Claim(w, b, inp)
            else if !b.status.phase.Pruning? && !b.spec.schedule.Unscheduled? && ScheduleDue(b, w.now).DueError?
              then w' == Fail(w, b, inp).w
            else w' == w || w' == WaitForSlot(w, b, inp)
  {
  }

  lemma RunBranchNeverRaises(w: World, k: Key, inp: Inputs)
    requires k in w.backups && w.backups[k].key == k && w.backups[k].spec.leaveDown
    requires var b := w.backups[k];
             PvcList(b.spec) != [] && !DealsWithPrune(w, k, inp) && !ForceCancelPending(b) &&
             !(b.status.phase.Uploading? && b.status.lastJobName != "")
    ensures NeverRaised(w.scene, Reconcile(w, k, inp).scene)
  {
    var b := w.backups[k];
    RunBranches(w, k, inp);
    if FindBackupJob(w, k, inp).Some? {
      AdoptNeverRaises(w, b, FindBackupJob(w, k, inp).value, inp);
    } else if Starts(w, b) {
      ClaimNeverRaises(w, b, inp);
    } else {
      FailLeavesDown(w, b, inp);
    }
  }

  lemma AdoptNeverRaises(w: World, b: PVCBackup, job: Key, inp: Inputs)
    requires Known(w, b) && b.spec.leaveDown
    ensures AdoptBackup(w, b, job, inp).scene == w.scene
  {
    var r := WriteStatus(w, b.(status := b.status.(phase := Uploading, lastJobName := job.name)), WriteAdopted, inp.faults);
    PollLeavesDown(r.w, r.b, inp);
  }

  lemma ClaimNeverRaises(w: World, b: PVCBackup, inp: Inputs)
    requires Known(w, b) && b.spec.leaveDown
    ensures NeverRaised(w.scene, Claim(w, b, inp).scene)
  {
    PrepareLeavesDown(w, b, false, inp);
    var r := WriteStatus(w, b.(status := b.status.(lastForceRun := b.meta.forceRun)), WriteToken, inp.faults);
    PrepareLeavesDown(r.w, r.b, true, inp);
  }

  /** Nor does the second half of a run, the deferred restore included, scale anything. */
  lemma LaunchLeavesDown(w: World, k: Key, inp: Inputs)
    requires Wellformed(w) && k in w.runs && w.backups[k].spec.leaveDown
    ensures Launch(w, k, inp).scene == w.scene
  {
    var run := w.runs[k];
    if !Aborts(w, k, inp) {
      var b := run.b.(status := run.b.status.(phase := Uploading));
      FailLeavesDown(Close(w, k), b, inp);
      UploadLeavesDown(WithJob(w, k), b, run.quiesced, LaunchName(run), inp);
    }
  }

  lemma UploadLeavesDown(w: World, b: PVCBackup, state: map<string, int>, name: string, inp: Inputs)
    requires Known(w, b) && b.spec.leaveDown
    ensures Upload(w, b, state, name, inp).scene == w.scene
  {
    var p := PersistQuiesce(w, b, state, inp.faults);
    var r := WriteStatus(p.w, p.b.(status := p.b.status.(lastJobName := name)), WriteUploading, inp.faults);
    PollLeavesDown(r.w, r.b, inp);
  }

  /** Nor does preemption. */
  lemma InterruptLeavesDown(w: World, k: Key, inp: Inputs)
    requires k in w.backups && w.backups[k].key == k && w.backups[k].spec.leaveDown
    ensures Interrupt(w, k, inp).scene == w.scene
  {
    FailLeavesDown(StopJobs(w, k, inp), w.backups[k], inp);
  }
}
