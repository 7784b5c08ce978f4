/** How sessions end: what a status may say about the Job it names. */
module Outcomes {
  import opened Text
  import opened Types
  import opened Workloads
  import opened JobNames
  import opened Protocol
  import opened OneJob
  import opened Preemption
  import opened Isolation
  import opened Mounts

  /** The state of the Job that a status names. */
  datatype Fate = Missing | Running | Done | Broken

  /** A success counts before a failure, as in both controllers' polls. */
  function FateOf(w: World, ns: string, name: string): Fate {
    var j := Key(ns, name);
    if j !in w.jobs then Missing
    else if w.jobs[j].succeeded > 0 then Done
    else if w.jobs[j].failed > 0 then Broken
    else Running
  }

  // ---------------------------------------------------------------------
  // Polling a backup Job

  /** The status a poll leaves, given what became of the Job. */
  ghost predicate BackupEnded(b: PVCBackup, status: BackupStatus, fate: Fate, now: nat, faults: set<Call>) {
    match fate
    case Running => status == b.status
    case Done =>
      if WriteDone in faults then status == b.status
      else
        && status.phase == (if b.spec.schedule.Unscheduled? then Succeeded else Scheduled)
        && status.lastBackupTime == Some(Sec(now)) && status.lastSuccessTime == Some(Sec(now))
        && status.lastForceRun == (if b.meta.forceRun == "" then b.status.lastForceRun else b.meta.forceRun)
        && status == b.status.(phase := status.phase, lastBackupTime := status.lastBackupTime,
                               lastSuccessTime := status.lastSuccessTime, lastForceRun := status.lastForceRun)
    case _ =>
      if WriteFailed in faults then status == b.status
      else status == b.status.(phase := Failed, lastBackupTime := Some(Sec(now)))
  }

  lemma FailOutcome(w: World, b: PVCBackup, inp: Inputs)
    requires Known(w, b) && b.meta == w.backups[b.key].meta && !w.backups[b.key].status.phase.Failed?
    ensures Fail(w, b, inp).w.backups[b.key].status ==
            if WriteFailed in inp.faults then w.backups[b.key].status
            else b.status.(phase := Failed, lastBackupTime := Some(Sec(w.now)))
  {
  }

  lemma PollOutcome(w: World, b: PVCBackup, inp: Inputs)
    requires b.key in w.backups && b == w.backups[b.key] && !b.status.phase.Failed?
    ensures BackupEnded(b, PollBackup(w, b, inp).backups[b.key].status, FateOf(w, b.key.ns, b.status.lastJobName), w.now, inp.faults)
    ensures PollBackup(w, b, inp).jobs == w.jobs
    ensures FateOf(w, b.key.ns, b.status.lastJobName).Running? ==> PollBackup(w, b, inp) == w
  {
    FailOutcome(w, b, inp);
  }

  /** Watching the Job of an uploading backup: a running one changes nothing at all; a missing or failed one marks the
      backup Failed as of now; a succeeded one ends the run, with both times set to now and the force-run token taken as
      spent. */
  lemma BackupPolled(w: World, k: Key, inp: Inputs)
    requires k in w.backups && w.backups[k].key == k
    requires var b := w.backups[k];
             PvcList(b.spec) != [] && b.meta.forceCancel in {"", b.status.lastForceCancel} &&
             b.status.phase.Uploading? && b.status.lastJobName != ""
    ensures var b, w', fate := w.backups[k], Reconcile(w, k, inp), FateOf(w, k.ns, w.backups[k].status.lastJobName);
            w'.jobs == w.jobs && BackupEnded(b, w'.backups[k].status, fate, w.now, inp.faults) && (fate.Running? ==> w' == w)
  {
    PollOutcome(w, w.backups[k], inp);
  }

  /** An adopted Job is watched at once, as if the status had named it all along. */
  lemma BackupAdopted(w: World, k: Key, inp: Inputs)
    requires k in w.backups && w.backups[k].key == k
    requires var b := w.backups[k];
             PvcList(b.spec) != [] && !DealsWithPrune(w, k, inp) && !ForceCancelPending(b) &&
             !(b.status.phase.Uploading? && b.status.lastJobName != "") &&
             (b.status.phase.Failed? ==> ForceRunPending(b) || !b.spec.schedule.Unscheduled?)
    requires FindBackupJob(w, k, inp).Some?
    ensures var b, w', name := w.backups[k], Reconcile(w, k, inp), FindBackupJob(w, k, inp).value.name;
            w'.jobs == w.jobs && w'.scene == w.scene &&
            w'.backups[k].status ==
            if WriteAdopted in inp.faults then b.status else b.status.(phase := Uploading, lastJobName := name)
  {
    var b, job := w.backups[k], FindBackupJob(w, k, inp).value;
    assert Reconcile(w, k, inp) == AdoptBackup(w, b, job, inp);
    var r := WriteStatus(w, b.(status := b.status.(phase := Uploading, lastJobName := job.name)), WriteAdopted, inp.faults);
    assert Key(k.ns, job.name) == job && Unfinished(w.jobs[job]);
    assert r.ok ==> PollBackup(r.w, r.b, inp) == r.w;
  }

  // ---------------------------------------------------------------------
  // Polling a prune Job

  ghost predicate PruneEnded(b: PVCBackup, status: BackupStatus, fate: Fate, faults: set<Call>) {
    match fate
    case Running => status == b.status
    case Done =>
      if WritePruned in faults then status == b.status
      else status == b.status.(phase := if b.spec.schedule.Unscheduled? then Succeeded else Scheduled)
    case _ =>
      if WritePruneFailed in faults then status == b.status else status == b.status.(phase := Failed)
  }

  /** Watching a prune Job: the same, but for the times and tokens, which a prune leaves alone. */
  lemma PrunePolled(w: World, k: Key, inp: Inputs)
    requires k in w.backups && w.backups[k].key == k
    requires var b := w.backups[k];
             PvcList(b.spec) != [] && b.meta.forceCancel in {"", b.status.lastForceCancel} &&
             b.status.phase.Pruning? && b.status.lastJobName != ""
    ensures var b, w', fate := w.backups[k], Reconcile(w, k, inp), FateOf(w, k.ns, w.backups[k].status.lastJobName);
            w'.jobs == w.jobs && PruneEnded(b, w'.backups[k].status, fate, inp.faults) && (fate.Running? ==> w' == w)
  {
  }

  /** A pending prune token, where no call fails: deferred while a backup is in flight; refused without a positive retention, which marks the
      backup Failed and spends the token; else the phase is Pruning, the token spent, and the new Job created and
      named. */
  lemma PruneStarted(w: World, k: Key, inp: Inputs)
    requires k in w.backups && w.backups[k].key == k && inp.faults == {}
    requires var b := w.backups[k];
             PvcList(b.spec) != [] && b.meta.forceCancel in {"", b.status.lastForceCancel} &&
             b.meta.forcePrune !in {"", b.status.lastForcePrune} &&
             !(b.status.phase.Uploading? && b.status.lastJobName != "") && !(b.status.phase.Pruning? && b.status.lastJobName != "")
    requires Key(k.ns, PruneJobName(k.name, Sec(w.now))) !in w.jobs
    ensures var b, w', name := w.backups[k], Reconcile(w, k, inp), PruneJobName(k.name, Sec(w.now));
            if b.status.phase in {Pending, Quiescing, Snapshotting, Uploading} then w' == w
            else if b.spec.keepLast.None? || b.spec.keepLast.value <= 0 then
              w'.jobs == w.jobs && w'.backups[k].status == b.status.(lastForcePrune := b.meta.forcePrune, phase := Failed)
            else
              w'.jobs == w.jobs[Key(k.ns, name) := Job(OfBackup(k), PruneJob, Sec(w.now), Sec(w.now), 0, 0, [])] &&
              w'.backups[k].status == b.status.(lastForcePrune := b.meta.forcePrune, phase := Pruning, lastJobName := name)
  {
    var b := w.backups[k];
    assert Reconcile(w, k, inp) == StartPrune(w, b, inp);
  }

  /** A prune Job that is found running is adopted before a run is thought of, unless a token or the status comes first. */
  lemma PruneAdopted(w: World, k: Key, inp: Inputs)
    requires k in w.backups && w.backups[k].key == k
    requires var b := w.backups[k];
             PvcList(b.spec) != [] && b.meta.forceCancel in {"", b.status.lastForceCancel} &&
             b.meta.forcePrune in {"", b.status.lastForcePrune} &&
             !(b.status.phase in {Uploading, Pruning} && b.status.lastJobName != "")
    requires FindPruneJob(w, k, inp).Some?
    ensures var b, w', name := w.backups[k], Reconcile(w, k, inp), FindPruneJob(w, k, inp).value.name;
            w'.jobs == w.jobs && w'.scene == w.scene && w'.runs == w.runs &&
            w'.backups[k].status ==
            if WriteAdopted in inp.faults then b.status else b.status.(phase := Pruning, lastJobName := name)
  {
    var b, job := w.backups[k], FindPruneJob(w, k, inp).value;
    assert Reconcile(w, k, inp) == AdoptPrune(w, b, job, inp);
    var r := WriteStatus(w, b.(status := b.status.(phase := Pruning, lastJobName := job.name)), WriteAdopted, inp.faults);
    assert Key(k.ns, job.name) == job && Unfinished(w.jobs[job]);
    assert r.ok ==> PollPrune(r.w, r.b, inp) == r.w;
  }

  // ---------------------------------------------------------------------
  // Cancelling, waiting, failing on the schedule

  /** A pending cancel token deletes the Job the status names and is spent. A backup in flight ends Failed as of now, a
      prune ends Failed with the times as they were, and anything else keeps its phase. */
  lemma Cancelled(w: World, k: Key, inp: Inputs)
    requires k in w.backups && w.backups[k].key == k
    requires var b := w.backups[k];
             PvcList(b.spec) != [] && b.meta.forceCancel !in {"", b.status.lastForceCancel}
    ensures var b, w' := w.backups[k], Reconcile(w, k, inp);
            w'.jobs == (if b.status.lastJobName == "" then w.jobs else w.jobs - {Key(k.ns, b.status.lastJobName)}) &&
            w'.backups[k].status ==
            if b.status.phase in {Pending, Quiescing, Snapshotting, Uploading} then
              if WriteFailed in inp.faults then b.status
              else b.status.(lastForceCancel := b.meta.forceCancel, phase := Failed, lastBackupTime := Some(Sec(w.now)))
            else if b.status.phase.Pruning? then
              if WritePruneFailed in inp.faults then b.status
              else b.status.(lastForceCancel := b.meta.forceCancel, phase := Failed)
            else
              if WriteCancel in inp.faults then b.status
              else b.status.(lastForceCancel := b.meta.forceCancel)
  {
    var b := w.backups[k];
    var b1 := b.(status := b.status.(lastForceCancel := b.meta.forceCancel));
    var w1 := DeleteJob(w, k.ns, b.status.lastJobName);
    if CancelPhaseBusy(b.status.phase) && !b.status.phase.Pruning? {
      FailOutcome(w1, b1, inp);
    }
  }

  /** A backup that names no claim fails before anything else is looked at. */
  lemma NothingToBackUp(w: World, k: Key, inp: Inputs)
    requires k in w.backups && w.backups[k].key == k && w.backups[k].spec.pvcNames == [] && w.backups[k].spec.pvcName == ""
    ensures var b, w' := w.backups[k], Reconcile(w, k, inp);
            w'.jobs == w.jobs && w'.runs == w.runs &&
            w'.backups[k].status == if b.status.phase.Failed? || WriteFailed in inp.faults then b.status
                                    else b.status.(phase := Failed, lastBackupTime := Some(Sec(w.now)))
  {
    if !w.backups[k].status.phase.Failed? { FailOutcome(w, w.backups[k], inp); }
  }

  /** Between slots a backup is idle as Scheduled, unless it is to be seen that its last run failed. On a malformed
      schedule it fails. */
  lemma BetweenSlots(w: World, k: Key, inp: Inputs)
    requires k in w.backups && w.backups[k].key == k
    requires var b := w.backups[k];
             PvcList(b.spec) != [] && !DealsWithPrune(w, k, inp) && !ForceCancelPending(b) &&
             !(b.status.phase.Uploading? && b.status.lastJobName != "") && !b.status.phase.Pruning? &&
             !b.spec.schedule.Unscheduled? && !ScheduleDue(b, w.now).DueNow?
    requires FindBackupJob(w, k, inp).None?
    ensures var b, w' := w.backups[k], Reconcile(w, k, inp);
            if b.spec.schedule.Malformed? then
              w'.backups[k].status == if b.status.phase.Failed? || WriteFailed in inp.faults then b.status
                                      else b.status.(phase := Failed, lastBackupTime := Some(Sec(w.now)))
            else
              w'.scene == w.scene && w'.jobs == w.jobs &&
              w'.backups[k].status == if b.status.phase.Failed? || WriteScheduled in inp.faults then b.status
                                      else b.status.(phase := Scheduled)
  {
    var b := w.backups[k];
    if b.spec.schedule.Malformed? {
      assert Reconcile(w, k, inp) == Fail(w, b, inp).w;
      if !b.status.phase.Failed? { FailOutcome(w, b, inp); }
    } else {
      assert Reconcile(w, k, inp) == WaitForSlot(w, b, inp);
    }
  }

  // ---------------------------------------------------------------------
  // A backup reports success only with a succeeded Job

  /** The success time is the old one, or it is now and the Job the status names has succeeded. */
  ghost predicate SuccessEarned(w: World, s: BackupStatus, w': World, k: Key) {
    k in w'.backups && var s' := w'.backups[k].status;
    s'.lastSuccessTime == s.lastSuccessTime ||
    (s'.lastSuccessTime == s'.lastBackupTime == Some(Sec(w.now)) && FateOf(w', k.ns, s'.lastJobName).Done?)
  }

  /** In-memory statuses that would keep the success time. */
  ghost predicate SuccessKept(w: World, b: PVCBackup) {
    Known(w, b) && b.status.lastSuccessTime == w.backups[b.key].status.lastSuccessTime
  }

  lemma FailEarns(w: World, b: PVCBackup, inp: Inputs)
    requires SuccessKept(w, b)
    ensures Fail(w, b, inp).w.backups[b.key].status.lastSuccessTime == w.backups[b.key].status.lastSuccessTime
  {
  }

  lemma PollEarns(w: World, b: PVCBackup, inp: Inputs)
    requires SuccessKept(w, b)
    ensures SuccessEarned(w, w.backups[b.key].status, PollBackup(w, b, inp), b.key)
  {
    FailEarns(w, b, inp);
  }

  lemma {:induction false} StepsEarn(w: World, b: PVCBackup, steps: seq<string>, inp: Inputs)
    requires SuccessKept(w, b)
    ensures var s := SnapshotSteps(w, b, steps, inp);
            SuccessKept(s.m.w, s.m.b) && s.m.w.backups[b.key].status.lastSuccessTime == w.backups[b.key].status.lastSuccessTime
  {
    if steps != [] {
      StepsEarn(w, b, steps[..|steps| - 1], inp);
    }
  }

  lemma SnapshotEarns(w: World, b: PVCBackup, state: map<string, int>, forced: bool, inp: Inputs)
    requires SuccessKept(w, b)
    ensures Snapshot(w, b, state, forced, inp).backups[b.key].status.lastSuccessTime == w.backups[b.key].status.lastSuccessTime
  {
    StepsEarn(w, b, Pipeline(b.spec), inp);
    var s := SnapshotSteps(w, b, Pipeline(b.spec), inp);
    FailEarns(s.m.w, s.m.b, inp);
  }

  lemma AfterQuiesceEarns(w: World, b: PVCBackup, q: Quiet, forced: bool, inp: Inputs)
    requires SuccessKept(w, b)
    ensures AfterQuiesce(w, b, q, forced, inp).backups[b.key].status.lastSuccessTime == w.backups[b.key].status.lastSuccessTime
  {
    FailEarns(w, b, inp);
    SnapshotEarns(w, b, q.state, forced, inp);
  }

  lemma PrepareEarns(w: World, b: PVCBackup, forced: bool, inp: Inputs)
    requires SuccessKept(w, b)
    ensures Prepare(w, b, forced, inp).backups[b.key].status.lastSuccessTime == w.backups[b.key].status.lastSuccessTime
  {
    FailEarns(w, b, inp);
    if !NeedQuiesce(b.spec) {
      SnapshotEarns(w, b, map[], forced, inp);
    } else {
      var r := WriteStatus(w, b.(status := b.status.(phase := Quiescing)), WriteQuiescing, inp.faults);
      if r.ok {
        var q := Quiesce(r.w.scene, b.spec.targets, b.key.ns, inp.scaleFaults);
        AfterQuiesceEarns(r.w.(scene := q.scene), r.b, q, forced, inp);
      }
    }
  }

  lemma ClaimEarns(w: World, b: PVCBackup, inp: Inputs)
    requires SuccessKept(w, b)
    ensures Claim(w, b, inp).backups[b.key].status.lastSuccessTime == w.backups[b.key].status.lastSuccessTime
  {
    PrepareEarns(w, b, false, inp);
    var r := WriteStatus(w, b.(status := b.status.(lastForceRun := b.meta.forceRun)), WriteToken, inp.faults);
    PrepareEarns(r.w, r.b, true, inp);
  }

  lemma AdoptEarns(w: World, b: PVCBackup, job: Key, inp: Inputs)
    requires SuccessKept(w, b)
    ensures SuccessEarned(w, w.backups[b.key].status, AdoptBackup(w, b, job, inp), b.key)
  {
    var r := WriteStatus(w, b.(status := b.status.(phase := Uploading, lastJobName := job.name)), WriteAdopted, inp.faults);
    if r.ok { PollEarns(r.w, r.b, inp); }
  }

  lemma CancelEarns(w: World, b: PVCBackup, inp: Inputs)
    requires SuccessKept(w, b)
    ensures Cancel(w, b, inp).backups[b.key].status.lastSuccessTime == w.backups[b.key].status.lastSuccessTime
  {
    var b1 := b.(status := b.status.(lastForceCancel := b.meta.forceCancel));
    FailEarns(DeleteJob(w, b.key.ns, b.status.lastJobName), b1, inp);
  }

  lemma ReconcileEarns(w: World, k: Key, inp: Inputs)
    requires k in w.backups && w.backups[k].key == k
    ensures SuccessEarned(w, w.backups[k].status, Reconcile(w, k, inp), k)
  {
    var b := w.backups[k];
    if DealsWithPrune(w, k, inp) && PvcList(b.spec) != [] {
      PruneIsolated(w, k, inp);
    } else if PvcList(b.spec) == [] {
      FailEarns(w, b, inp);
    } else if ForceCancelPending(b) {
      CancelEarns(w, b, inp);
    } else if b.status.phase.Uploading? && b.status.lastJobName != "" {
      PollEarns(w, b, inp);
    } else {
      RunBranches(w, k, inp);
      RunEarns(w, k, Reconcile(w, k, inp), inp);
    }
  }

  lemma RunEarns(w: World, k: Key, w': World, inp: Inputs)
    requires k in w.backups && w.backups[k].key == k
    requires var b, found := w.backups[k], FindBackupJob(w, k, inp);
             w' == w || (found.Some? && w' == AdoptBackup(w, b, found.value, inp)) || w' == Claim(w, b, inp) ||
             w' == Fail(w, b, inp).w || w' == WaitForSlot(w, b, inp)
    ensures SuccessEarned(w, w.backups[k].status, w', k)
  {
    var b, found := w.backups[k], FindBackupJob(w, k, inp);
    if found.Some? { AdoptEarns(w, b, found.value, inp); }
    ClaimEarns(w, b, inp);
    FailEarns(w, b, inp);
  }

  lemma UploadEarns(w: World, b: PVCBackup, state: map<string, int>, name: string, inp: Inputs)
    requires SuccessKept(w, b)
    ensures SuccessEarned(w, w.backups[b.key].status, Upload(w, b, state, name, inp), b.key)
  {
    var p := PersistQuiesce(w, b, state, inp.faults);
    var r := WriteStatus(p.w, p.b.(status := p.b.status.(lastJobName := name)), WriteUploading, inp.faults);
    if r.ok { PollEarns(r.w, r.b, inp); }
  }

  lemma LaunchEarns(w: World, k: Key, inp: Inputs)
    requires Wellformed(w) && k in w.runs && w.runs[k].b.status.lastSuccessTime == w.backups[k].status.lastSuccessTime
    ensures SuccessEarned(w, w.backups[k].status, Launch(w, k, inp), k)
  {
    var run := w.runs[k];
    var b := run.b.(status := run.b.status.(phase := Uploading));
    if !Aborts(w, k, inp) {
      if CreateJob in inp.faults {
        FailEarns(Close(w, k), b, inp);
      } else {
        UploadEarns(WithJob(w, k), b, run.quiesced, LaunchName(run), inp);
      }
    }
  }

  lemma {:induction false} InterruptsEarn(w: World, holders: seq<Key>, inp: Inputs, k: Key)
    requires Keyed(w) && (forall h :: h in holders ==> h in w.backups) && k in w.backups
    ensures InterruptAll(w, holders, inp).backups[k].status.lastSuccessTime == w.backups[k].status.lastSuccessTime
  {
    if holders != [] {
      var front, h := holders[..|holders| - 1], holders[|holders| - 1];
      InterruptsEarn(w, front, inp, k);
      var init := InterruptAll(w, front, inp);
      InterruptEarns(init, h, inp, k);
    }
  }

  lemma InterruptEarns(w: World, h: Key, inp: Inputs, k: Key)
    requires Keyed(w) && h in w.backups && k in w.backups
    ensures Interrupt(w, h, inp).backups[k].status.lastSuccessTime == w.backups[k].status.lastSuccessTime
  {
    FailEarns(StopJobs(w, h, inp), w.backups[h], inp);
  }

  lemma RestoreEarns(w: World, w': World, r: Key, inp: Inputs, k: Key)
    requires r in w.restores && Keyed(w) && Preempts(w, w', r, inp) && k in w.backups && k in w'.backups
    ensures SuccessEarned(w, w.backups[k].status, w', k)
  {
    InterruptsEarn(w, BackupHolders(w, inp.backupList, RestorePVCKeys(w.restores[r]), OfRestore(w.restores[r].key)), inp, k);
  }

  /** The copy of an open run carries the stored success time, as long as nothing but the operator writes it. */
  ghost predicate RunsRemember(w: World) {
    forall k :: k in w.runs && k in w.backups ==> w.runs[k].b.status.lastSuccessTime == w.backups[k].status.lastSuccessTime
  }

  lemma OwnerRemembers(w: World, w': World, i: Key)
    requires RunsRemember(w) && OnlyOwner(w, w', i)
    requires i in w'.runs ==> w'.runs[i].b.status.lastSuccessTime == w'.backups[i].status.lastSuccessTime
    ensures RunsRemember(w')
  {
    forall k | k in w'.runs && k in w'.backups
      ensures w'.runs[k].b.status.lastSuccessTime == w'.backups[k].status.lastSuccessTime
    {
      if k != i {
        assert k in w'.runs - {i};
        assert k in w.runs && w.runs[k] == w'.runs[k];
      }
    }
  }

  lemma ReconcileRemembers(w: World, w': World, k: Key, inp: Inputs)
    requires RunsRemember(w) && k in w.backups && k !in w.runs && ReconcileShape(w, w', k, inp)
    ensures RunsRemember(w')
  {
    OwnerRemembers(w, w', k);
  }

  lemma RestoreRemembers(w: World, w': World, r: Key, inp: Inputs)
    requires RunsRemember(w) && Wellformed(w) && r in w.restores && OnlyRestore(w, w', r) && Preempts(w, w', r, inp)
    ensures RunsRemember(w')
  {
    forall k | k in w'.runs && k in w'.backups
      ensures w'.runs[k].b.status.lastSuccessTime == w'.backups[k].status.lastSuccessTime
    {
      InterruptsEarn(w, BackupHolders(w, inp.backupList, RestorePVCKeys(w.restores[r]), OfRestore(w.restores[r].key)), inp, k);
    }
  }

  lemma ExternalRemembers(w: World, s: Step)
    requires RunsRemember(w) && Enabled(w, s) && External(s)
    ensures RunsRemember(Apply(w, s))
    ensures forall k :: k in w.backups ==> k in Apply(w, s).backups && Apply(w, s).backups[k].status == w.backups[k].status
  {
  }

  lemma StepRemembers(w: World, s: Step)
    requires RunsRemember(w) && Enabled(w, s)
    ensures RunsRemember(Apply(w, s))
  {
    if External(s) {
      ExternalRemembers(w, s);
    } else {
      match s
      case ReconcileStep(k, inp) => ReconcileRemembers(w, Reconcile(w, k, inp), k, inp);
      case LaunchStep(k, inp) => OwnerRemembers(w, Launch(w, k, inp), k);
      case RestoreStep(k, inp) => RestoreRemembers(w, RestoreReconcile(w, k, inp), k, inp);
    }
  }

  lemma {:induction false} RunsRememberAlways(trace: seq<World>, steps: seq<Step>, n: nat)
    requires IsRun(trace, steps) && n < |trace|
    ensures RunsRemember(trace[n])
  {
    if n > 0 {
      RunsRememberAlways(trace, steps, n - 1);
      StepRemembers(trace[n - 1], steps[n - 1]);
    }
  }

  /** Over every run a backup's success time changes only in a step that finds the Job its status then names succeeded,
      and it is then the second of that step. */
  lemma SuccessMeansJob(trace: seq<World>, steps: seq<Step>, n: nat, k: Key)
    requires IsRun(trace, steps) && n < |steps| && k in trace[n].backups
    ensures SuccessEarned(trace[n], trace[n].backups[k].status, trace[n + 1], k)
  {
    RunsRememberAlways(trace, steps, n);
    StepEarns(trace[n], steps[n], k);
  }

  lemma StepEarns(w: World, s: Step, k: Key)
    requires RunsRemember(w) && Enabled(w, s) && k in w.backups
    ensures SuccessEarned(w, w.backups[k].status, Apply(w, s), k)
  {
    if External(s) {
      ExternalRemembers(w, s);
    } else {
      match s
      case ReconcileStep(i, inp) => if i == k { ReconcileEarns(w, k, inp); }
      case LaunchStep(i, inp) => if i == k { LaunchEarns(w, k, inp); }
      case RestoreStep(r, inp) => RestoreEarns(w, RestoreReconcile(w, r, inp), r, inp, k);
    }
  }

  // ---------------------------------------------------------------------
  // Restores, step by step

  /** The restore a poll leaves, given what became of the Job. */
  predicate RestoreEnded(r: PVCRestore, r': PVCRestore, fate: Fate, faults: set<Call>) {
    match fate
    case Running => r' == r
    case Done => r' == if WriteRestored in faults then r else r.(phase := Succeeded)
    case _ => r' == if WriteRestoreFailed in faults then r else r.(phase := Failed)
  }

  /** Watching a restore Job: a running one changes nothing; a missing or failed one marks the restore Failed; a succeeded
      one marks it Succeeded. */
  lemma RestorePolled(w: World, k: Key, inp: Inputs)
    requires k in w.restores && Keyed(w) && Lists(w, inp)
    requires w.restores[k].phase.Restoring? && w.restores[k].lastJobName != ""
    ensures var r, w' := w.restores[k], RestoreReconcile(w, k, inp);
            w' == w.(restores := w.restores[k := w'.restores[k]]) &&
            RestoreEnded(r, w'.restores[k], FateOf(w, k.ns, r.lastJobName), inp.faults)
  {
    var r, w' := w.restores[k], RestoreReconcile(w, k, inp);
    assert w' == PollRestore(w, r, inp);
    assert w.restores[k := r] == w.restores;
  }

  /** A restore that is still to start. */
  predicate Unstarted(r: PVCRestore) {
    r.phase !in {Succeeded, Failed} && !(r.phase.Restoring? && r.lastJobName != "")
  }

  /** Another restore of the same disk is waited for, and a mode without a Job ends at once: a claim from a volume
      snapshot is done when it is created, and an unknown mode fails. */
  lemma RestoreWithoutJob(w: World, k: Key, inp: Inputs)
    requires k in w.restores && Keyed(w) && Lists(w, inp) && Unstarted(w.restores[k])
    ensures var r, w' := w.restores[k], RestoreReconcile(w, k, inp);
            match r.mode
            case FromVolumeSnapshot =>
              w' == w.(restores := w.restores[k := w'.restores[k]]) &&
              RestoreEnded(r, w'.restores[k], if CreateClaim in inp.faults then Broken else Done, inp.faults)
            case OtherMode =>
              w' == w.(restores := w.restores[k := w'.restores[k]]) && RestoreEnded(r, w'.restores[k], Broken, inp.faults)
            case _ =>
              GetRepo !in inp.faults && (exists o :: o in w.restores && RestoreHolds(w, o, RestorePVCKeys(r), OfRestore(k)))
              ==> w' == w
  {
    var r, w' := w.restores[k], RestoreReconcile(w, k, inp);
    assert w.restores[k := r] == w.restores;
  }

  /** A restic restore whose disk is not in use by another restore: it fails if it has no claim or a call fails; else its
      Job is there, and the status names it and tells what became of it, unless that write is lost. */
  lemma ResticRestoreStarted(w: World, k: Key, inp: Inputs)
    requires k in w.restores && Keyed(w) && Lists(w, inp) && Unstarted(w.restores[k]) && Restic(w.restores[k])
    requires GetRepo !in inp.faults
    requires forall o :: o in w.restores ==> !RestoreHolds(w, o, RestorePVCKeys(w.restores[k]), OfRestore(k))
    ensures var r, w', name := w.restores[k], RestoreReconcile(w, k, inp), RestoreJobName(k.name, Sec(w.now));
            if (r.mode.FromResticToExistingPVC? && r.existingPVC == "") || EnsureSecrets in inp.faults || CreateJob in inp.faults ||
               (r.mode.FromResticToNewPVC? && CreateClaim in inp.faults)
            then RestoreEnded(r, w'.restores[k], Broken, inp.faults)
            else
              Key(k.ns, name) in w'.jobs &&
              if WriteRestoring in inp.faults then w'.restores == w.restores
              else RestoreEnded(r.(phase := Restoring, lastJobName := name), w'.restores[k], FateOf(w', k.ns, name), inp.faults)
  {
    var r := w.restores[k];
    NoRestoreHolds(w, inp.restoreList, RestorePVCKeys(r), OfRestore(k));
    var w1 := Preempt(w, r, inp);
    assert RestoreReconcile(w, k, inp) == CreateRestore(w1, r, inp);
    CreatedRestore(w1, r, inp);
  }

  lemma CreatedRestore(w: World, r: PVCRestore, inp: Inputs)
    requires r.key in w.restores && w.restores[r.key] == r && Restic(r)
    ensures var w', name := CreateRestore(w, r, inp), RestoreJobName(r.key.name, Sec(w.now));
            if (r.mode.FromResticToExistingPVC? && r.existingPVC == "") || EnsureSecrets in inp.faults || CreateJob in inp.faults ||
               (r.mode.FromResticToNewPVC? && CreateClaim in inp.faults)
            then RestoreEnded(r, w'.restores[r.key], Broken, inp.faults)
            else
              Key(r.key.ns, name) in w'.jobs &&
              if WriteRestoring in inp.faults then w'.restores == w.restores
              else RestoreEnded(r.(phase := Restoring, lastJobName := name), w'.restores[r.key], FateOf(w', r.key.ns, name), inp.faults)
  {
  }

  // ---------------------------------------------------------------------
  // A restore reports success only with a succeeded Job of its own

  /** What has ended stays as it is. */
  lemma StepLeavesEnded(w: World, s: Step, r: Key)
    requires Enabled(w, s) && r in w.restores && w.restores[r].phase in {Succeeded, Failed}
    ensures r in Apply(w, s).restores && Apply(w, s).restores[r] == w.restores[r]
  {
  }

  /** Over every run the outcome of a restore is final. */
  lemma {:induction false} RestoreOutcomeFinal(trace: seq<World>, steps: seq<Step>, n: nat, m: nat, r: Key)
    requires IsRun(trace, steps) && n <= m < |trace|
    requires r in trace[n].restores && trace[n].restores[r].phase in {Succeeded, Failed}
    ensures r in trace[m].restores && trace[m].restores[r] == trace[n].restores[r]
  {
    if n < m {
      RestoreOutcomeFinal(trace, steps, n, m - 1, r);
      StepLeavesEnded(trace[m - 1], steps[m - 1], r);
    }
  }

  /** The name in a restore's status was printed for it. */
  ghost predicate NamesOwn(r: PVCRestore) {
    r.lastJobName == "" || exists at: nat :: r.lastJobName == RestoreJobName(r.key.name, at)
  }

  ghost predicate RestoresNameOwn(w: World) {
    Keyed(w) && forall r :: r in w.restores ==> NamesOwn(w.restores[r])
  }

  lemma NewNameIsOwn(r: PVCRestore, at: nat)
    requires r.lastJobName == RestoreJobName(r.key.name, at)
    ensures NamesOwn(r)
  {
  }

  /** A restore's reconcile names the old Job or the one it has just printed a name for, and it reports a restic restore
      as done only where the Job it then names has succeeded. */
  lemma RestoreStepNames(w: World, k: Key, inp: Inputs)
    requires k in w.restores && Keyed(w) && Lists(w, inp)
    ensures var r, w' := w.restores[k], RestoreReconcile(w, k, inp);
            var r' := w'.restores[k];
            (r'.lastJobName == r.lastJobName || r'.lastJobName == RestoreJobName(k.name, Sec(w.now))) &&
            (Restic(r) && r'.phase.Succeeded? ==> r.phase.Succeeded? || FateOf(w', k.ns, r'.lastJobName).Done?)
  {
    var r := w.restores[k];
    if Unstarted(r) && Restic(r) && GetRepo !in inp.faults {
      if RestoreHolders(w, inp.restoreList, RestorePVCKeys(r), OfRestore(k)) == [] {
        var w1 := Preempt(w, r, inp);
        assert RestoreReconcile(w, k, inp) == CreateRestore(w1, r, inp);
        CreatedRestore(w1, r, inp);
      }
    } else if r.phase.Restoring? && r.lastJobName != "" {
      RestorePolled(w, k, inp);
    }
  }

  lemma StepNamesOwn(w: World, s: Step)
    requires RestoresNameOwn(w) && Enabled(w, s)
    ensures RestoresNameOwn(Apply(w, s))
  {
    if s.RestoreStep? {
      var k, w' := s.k, Apply(w, s);
      RestoreStepNames(w, k, s.inp);
      forall r | r in w'.restores ensures NamesOwn(w'.restores[r]) {
        if r != k { assert w'.restores[r] == w.restores[r]; }
        assert r in w.restores && NamesOwn(w.restores[r]);
        if r == k && w'.restores[k].lastJobName == RestoreJobName(k.name, Sec(w.now)) {
          NewNameIsOwn(w'.restores[k], Sec(w.now));
        }
      }
    } else {
      OtherStepNames(w, s);
    }
  }

  lemma OtherStepNames(w: World, s: Step)
    requires Enabled(w, s) && !s.RestoreStep? && RestoresNameOwn(w)
    ensures RestoresNameOwn(Apply(w, s))
  {
  }

  lemma {:induction false} RestoresNameOwnAlways(trace: seq<World>, steps: seq<Step>, n: nat)
    requires IsRun(trace, steps) && n < |trace|
    ensures RestoresNameOwn(trace[n])
  {
    if n > 0 {
      RestoresNameOwnAlways(trace, steps, n - 1);
      StepNamesOwn(trace[n - 1], steps[n - 1]);
    }
  }

  lemma DashedNumber(a: string, t: nat, b: string, u: nat)
    requires a + "-" + Decimal(t) == b + "-" + Decimal(u)
    ensures a == b && t == u
  {
    var s, s', x, y := a + "-" + Decimal(t), b + "-" + Decimal(u), Decimal(t), Decimal(u);
    assert s[|a|] == '-' && s'[|b|] == '-';
    assert forall i :: |a| < i < |s| ==> s[i] == x[i - |a| - 1] && IsDigit(s[i]);
    assert forall i :: |b| < i < |s'| ==> s'[i] == y[i - |b| - 1] && IsDigit(s'[i]);
    assert |a| == |b|;
    assert a == s[..|a|] && b == s'[..|b|];
    assert x == s[|a| + 1..] && y == s'[|b| + 1..];
    ValueOfDecimal(t);
    ValueOfDecimal(u);
  }

  /** A name of less than 63 characters was not cut, so it tells whose Job it is. */
  lemma ShortNameIsOwn(w: World, j: Key, r: Key, at: nat)
    requires Named(w) && j in w.jobs && j == Key(r.ns, RestoreJobName(r.name, at)) && |j.name| < MAX_NAME
    ensures w.jobs[j].owner == OfRestore(r)
  {
    var job := w.jobs[j];
    assert JobNamed(j, job, w.now);
    assert ("pvcrestore-" + r.name + "-" + Decimal(at))[3] == 'r' && j.name[3] == 'r';
    forall name: string ensures BackupJobName(name, job.stamp)[3] == 'b' && PruneJobName(name, job.stamp)[3] == 'b' {
      assert (BackupPrefix(name) + Decimal(job.stamp))[3] == 'b' && (PrunePrefix(name) + Decimal(job.stamp))[3] == 'b';
    }
    match job.owner
    case OfBackup(o) =>
    case OfRestore(o) =>
      var mine, theirs := "pvcrestore-" + r.name, "pvcrestore-" + o.name;
      assert mine + "-" + Decimal(at) == theirs + "-" + Decimal(job.stamp);
      DashedNumber(mine, at, theirs, job.stamp);
      assert r.name == mine[11..] && o.name == theirs[11..];
  }

  /** Over every run a restic restore is reported as done only in a step of its own that finds the Job its status then
      names succeeded. That Job is its own, and wrote to its claim, unless its name had to be cut. */
  lemma RestoreSuccessMeansJob(trace: seq<World>, steps: seq<Step>, n: nat, r: Key)
    requires IsRun(trace, steps) && n < |steps| && r in trace[n].restores && Restic(trace[n].restores[r])
    requires r in trace[n + 1].restores && !trace[n].restores[r].phase.Succeeded? && trace[n + 1].restores[r].phase.Succeeded?
    ensures steps[n].RestoreStep? && steps[n].k == r
    ensures var w', name := trace[n + 1], trace[n + 1].restores[r].lastJobName;
            FateOf(w', r.ns, name).Done? &&
            (|name| < MAX_NAME && name != "" ==>
               var job := w'.jobs[Key(r.ns, name)];
               job.owner == OfRestore(r) && job.claims == [RestoreClaim(w'.restores[r])])
  {
    var w, s, w' := trace[n], steps[n], trace[n + 1];
    if !s.RestoreStep? || s.k != r { OtherStepsLeaveRestore(w, s, r); }
    RestoreStepNames(w, r, s.inp);
    RestoresNameOwnAlways(trace, steps, n + 1);
    InvAlways(trace, steps, n + 1);
    MountedAlways(trace, steps, n + 1);
    var name := w'.restores[r].lastJobName;
    if |name| < MAX_NAME && name != "" {
      assert NamesOwn(w'.restores[r]);
      var at: nat :| name == RestoreJobName(r.name, at);
      ShortNameIsOwn(w', Key(r.ns, name), r, at);
      assert MountsRight(w', w'.jobs[Key(r.ns, name)]);
    }
  }

  lemma OtherStepsLeaveRestore(w: World, s: Step, r: Key)
    requires Enabled(w, s) && r in w.restores && (s.RestoreStep? ==> s.k != r)
    ensures r in Apply(w, s).restores && Apply(w, s).restores[r] == w.restores[r]
  {
  }

  /** From 52 characters on, names that agree that far print one name for their Jobs, whatever the second. */
  lemma LongRestoreNames(a: string, b: string, t: nat, u: nat)
    requires |a| >= 52 && |b| >= 52
    ensures RestoreJobName(a, t) == RestoreJobName(b, u) <==> a[..52] == b[..52]
  {
    CutRestoreName(a, t);
    CutRestoreName(b, u);
    assert RestoreJobName(a, t)[11..] == a[..52] && RestoreJobName(b, u)[11..] == b[..52];
  }

  lemma CutRestoreName(name: string, at: nat)
    requires |name| >= 52
    ensures RestoreJobName(name, at) == "pvcrestore-" + name[..52]
  {
    var long := "pvcrestore-" + name + "-" + Decimal(at);
    assert |long| > MAX_NAME;
    assert long[..MAX_NAME] == "pvcrestore-" + name[..52];
  }

  /** Where the printed name is that of a Job that has succeeded, be it another restore's, nothing is written to the claim
      and the restore is reported as done. */
  lemma TakenRestoreName(w: World, k: Key, inp: Inputs)
    requires k in w.restores && Keyed(w) && Lists(w, inp) && Unstarted(w.restores[k]) && HasClaim(w.restores[k])
    requires inp.faults == {} && FateOf(w, k.ns, RestoreJobName(k.name, Sec(w.now))).Done?
    requires forall o :: o in w.restores ==> !RestoreHolds(w, o, RestorePVCKeys(w.restores[k]), OfRestore(k))
    requires forall b :: b in w.backups ==> !BackupHolds(w, b, RestorePVCKeys(w.restores[k]), OfRestore(k))
    ensures var w' := RestoreReconcile(w, k, inp);
            w'.jobs == w.jobs && w'.backups == w.backups && w'.restores[k].phase.Succeeded?
  {
    var r := w.restores[k];
    NoRestoreHolds(w, inp.restoreList, RestorePVCKeys(r), OfRestore(k));
    NoneHolds(w, inp.backupList, RestorePVCKeys(r), OfRestore(k));
    assert Preempt(w, r, inp) == w;
    assert RestoreReconcile(w, k, inp) == CreateRestore(w, r, inp);
  }
}
