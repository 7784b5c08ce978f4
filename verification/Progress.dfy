/** When a backup runs: a slot that has come is due, a due backup with a free session opens its run, and an open run
    creates its Job. */
module Progress {
  import opened Text
  import opened Types
  import opened Workloads
  import opened JobNames
  import opened Protocol
  import opened OneJob
  import opened Isolation
  import opened Uploading
  import opened Schedule
  import opened Admission

  // ---------------------------------------------------------------------
  // Due slots

  /** A slot lies after `from` and not after the clock reading. */
  ghost predicate SlotCame(next: int -> int, from: int, now: nat) {
    exists s :: from < s <= Sec(now) && IsSlot(next, s)
  }

  lemma SlotCameIff(next: int -> int, from: int, now: nat)
    requires LeastSlot(next)
    ensures SlotCame(next, from, now) <==> next(from) * NANOS <= now
  {
    assert next(from) <= Sec(now) <==> next(from) * NANOS <= now;
    if next(from) <= Sec(now) {
      assert next(next(from) - 1) == next(from);
      assert IsSlot(next, next(from));
    }
    if s :| from < s <= Sec(now) && IsSlot(next, s) {
      assert next(from) > s ==> next(s - 1) == next(from);
    }
  }

  /** The token of the force-run annotation has not been claimed. */
  predicate Forced(b: PVCBackup) { b.meta.forceRun != "" && b.meta.forceRun != b.status.lastForceRun }

  /** A scheduled backup is due exactly if it is forced or a slot has come since its last attempt, or since its creation
      if there was none. Only a malformed schedule is an error, and only where nothing forces the run. */
  lemma DueIff(b: PVCBackup, now: nat)
    requires b.spec.schedule.Cron? ==> LeastSlot(b.spec.schedule.next)
    ensures var from := if b.status.lastBackupTime.Some? then b.status.lastBackupTime.value else b.meta.created;
            ScheduleDue(b, now) ==
            if Forced(b) || (b.spec.schedule.Cron? && SlotCame(b.spec.schedule.next, from, now)) then DueNow
            else if b.spec.schedule.Cron? then DueLater
            else DueError
  {
    if b.spec.schedule.Cron? {
      SlotCameIff(b.spec.schedule.next, Cursor(b), now);
    }
  }

  // ---------------------------------------------------------------------
  // Opening a run

  /** Nothing else is to be done first: no pending cancel or prune, no Job to watch or to adopt, no prune under way. */
  ghost predicate Unoccupied(w: World, b: PVCBackup, inp: Inputs) {
    && b.meta.forceCancel in {"", b.status.lastForceCancel}
    && b.meta.forcePrune in {"", b.status.lastForcePrune}
    && !(b.status.phase.Uploading? && b.status.lastJobName != "")
    && !b.status.phase.Pruning?
    && FindPruneJob(w, b.key, inp).None? && FindBackupJob(w, b.key, inp).None?
  }

  /** It is time to run: by token, by schedule, or because a backup without a schedule has not finished a run. */
  ghost predicate Wanted(w: World, b: PVCBackup) {
    Forced(b) ||
    match b.spec.schedule
    case Cron(next) =>
      SlotCame(next, if b.status.lastBackupTime.Some? then b.status.lastBackupTime.value else b.meta.created, w.now)
    case Malformed => false
    case Unscheduled => b.status.phase !in {Succeeded, Failed, Scheduled}
  }

  predicate Quiesces(s: BackupSpec) { s.quiesceEnabled || s.pipeline == [] || "quiescedLive" in s.pipeline }

  predicate TakesSnapshot(s: BackupSpec) { "csiSnapshot" in s.pipeline || "topolvmSnapshot" in s.pipeline }

  /** No call on the way to the end of the snapshots returns an error. */
  predicate CallsSucceed(w: World, b: PVCBackup, inp: Inputs) {
    && GetRepo !in inp.faults && EnsureSecrets !in inp.faults
    && (Forced(b) ==> WriteToken !in inp.faults)
    && (Quiesces(b.spec) ==>
          WriteQuiescing !in inp.faults && Quiesce(w.scene, b.spec.targets, b.key.ns, inp.scaleFaults).ok)
    && (TakesSnapshot(b.spec) ==>
          TakeSnapshot !in inp.faults && b.spec.snapshotClass != "" && |PvcList(b.spec)| == 1)
  }

  lemma QuiescesIff(s: BackupSpec)
    ensures NeedQuiesce(s) <==> Quiesces(s)
  {
  }

  lemma {:induction false} PipelineOkIff(w: World, b: PVCBackup, steps: seq<string>, inp: Inputs)
    requires Known(w, b)
    ensures SnapshotSteps(w, b, steps, inp).ok <==>
            ("csiSnapshot" in steps || "topolvmSnapshot" in steps ==>
               TakeSnapshot !in inp.faults && b.spec.snapshotClass != "" && |PvcList(b.spec)| == 1)
    ensures SnapshotSteps(w, b, steps, inp).m.b.spec == b.spec
    ensures SnapshotSteps(w, b, steps, inp).m.w.scene == w.scene
  {
    if steps != [] {
      var front, last := steps[..|steps| - 1], steps[|steps| - 1];
      PipelineOkIff(w, b, front, inp);
      assert steps == front + [last];
    }
  }

  /** The session of a backup depends on the other backups and on the restores only. */
  lemma BusyOfOthers(w: World, w': World, b: PVCBackup, b': PVCBackup, inp: Inputs)
    requires b.key in w.backups && b.key in w'.backups && w'.backups == w.backups[b.key := w'.backups[b.key]]
    requires w'.restores == w.restores && b'.key == b.key && b'.spec == b.spec
    ensures BackupBusy(w', b', inp) <==> BackupBusy(w, b, inp)
  {
    var keys, self := BackupPVCKeys(b), OfBackup(b.key);
    forall k ensures BackupHolds(w', k, keys, self) <==> BackupHolds(w, k, keys, self) {
      if k != b.key && k in w.backups { assert w'.backups[k] == w.backups[k]; }
    }
    forall r ensures RestoreHolds(w', r, keys, self) <==> RestoreHolds(w, r, keys, self) {
    }
    SameBackupHolders(w, w', inp.backupList, keys, self);
    SameRestoreHolders(w, w', inp.restoreList, keys, self);
  }

  lemma {:induction false} SameBackupHolders(w: World, w': World, listing: seq<Key>, keys: seq<string>, self: Owner)
    requires forall k :: BackupHolds(w', k, keys, self) <==> BackupHolds(w, k, keys, self)
    ensures BackupHolders(w', listing, keys, self) == BackupHolders(w, listing, keys, self)
  {
    if listing != [] {
      SameBackupHolders(w, w', listing[..|listing| - 1], keys, self);
    }
  }

  lemma {:induction false} SameRestoreHolders(w: World, w': World, listing: seq<Key>, keys: seq<string>, self: Owner)
    requires forall r :: RestoreHolds(w', r, keys, self) <==> RestoreHolds(w, r, keys, self)
    ensures RestoreHolders(w', listing, keys, self) == RestoreHolders(w, listing, keys, self)
  {
    if listing != [] {
      SameRestoreHolders(w, w', listing[..|listing| - 1], keys, self);
    }
  }

  /** What a run holds when it opens, and what the cluster then looks like. */
  predicate OpenedWith(w': World, k: Key, scene: Scene, state: map<string, int>, forced: bool, started: nat) {
    k in w'.runs && w'.scene == scene &&
    w'.runs[k].quiesced == state && w'.runs[k].forced == forced && w'.runs[k].started == started
  }

  ghost predicate OpensWith(w: World, w': World, b: PVCBackup, forced: bool, inp: Inputs) {
    var q := Quiesce(w.scene, b.spec.targets, b.key.ns, inp.scaleFaults);
    if Quiesces(b.spec) then OpenedWith(w', b.key, q.scene, q.state, forced, Sec(w.now))
    else OpenedWith(w', b.key, w.scene, map[], forced, Sec(w.now))
  }

  predicate PipelineOk(b: PVCBackup, inp: Inputs) {
    TakesSnapshot(b.spec) ==> TakeSnapshot !in inp.faults && b.spec.snapshotClass != "" && |PvcList(b.spec)| == 1
  }

  lemma SnapshotOpens(w: World, b: PVCBackup, state: map<string, int>, forced: bool, inp: Inputs)
    requires Known(w, b) && b.key !in w.runs
    ensures var w' := Snapshot(w, b, state, forced, inp);
            (b.key in w'.runs <==> PipelineOk(b, inp)) &&
            (b.key in w'.runs ==> OpenedWith(w', b.key, w.scene, state, forced, Sec(w.now)))
  {
    PipelineOkIff(w, b, Pipeline(b.spec), inp);
  }

  lemma PrepareOpens(w: World, b: PVCBackup, forced: bool, inp: Inputs)
    requires Known(w, b) && b.key !in w.runs && b.meta.rv == w.backups[b.key].meta.rv
    ensures var w' := Prepare(w, b, forced, inp);
            b.key in w'.runs <==>
            GetRepo !in inp.faults && EnsureSecrets !in inp.faults && !BackupBusy(w, b, inp) && PipelineOk(b, inp) &&
            (Quiesces(b.spec) ==>
               WriteQuiescing !in inp.faults && Quiesce(w.scene, b.spec.targets, b.key.ns, inp.scaleFaults).ok)
    ensures var w' := Prepare(w, b, forced, inp);
            b.key in w'.runs ==> OpensWith(w, w', b, forced, inp)
  {
    QuiescesIff(b.spec);
    if NeedQuiesce(b.spec) {
      var r := WriteStatus(w, b.(status := b.status.(phase := Quiescing)), WriteQuiescing, inp.faults);
      if r.ok {
        var q := Quiesce(r.w.scene, b.spec.targets, b.key.ns, inp.scaleFaults);
        AfterQuiesceOpens(r.w.(scene := q.scene), r.b, q, forced, inp);
      }
    } else {
      SnapshotOpens(w, b, map[], forced, inp);
    }
  }

  lemma AfterQuiesceOpens(w: World, b: PVCBackup, q: Quiet, forced: bool, inp: Inputs)
    requires Known(w, b) && b.key !in w.runs && w.scene == q.scene
    ensures var w' := AfterQuiesce(w, b, q, forced, inp);
            (b.key in w'.runs <==> q.ok && PipelineOk(b, inp)) &&
            (b.key in w'.runs ==> OpenedWith(w', b.key, q.scene, q.state, forced, Sec(w.now)))
  {
    SnapshotOpens(w, b, q.state, forced, inp);
  }

  lemma ClaimOpens(w: World, b: PVCBackup, inp: Inputs)
    requires b.key in w.backups && b == w.backups[b.key] && b.key !in w.runs
    ensures var w' := Claim(w, b, inp);
            (b.key in w'.runs <==> !BackupBusy(w, b, inp) && CallsSucceed(w, b, inp)) &&
            (b.key in w'.runs ==> OpensWith(w, w', b, Forced(b), inp))
  {
    if Forced(b) {
      var claimed := b.(status := b.status.(lastForceRun := b.meta.forceRun));
      var r := WriteStatus(w, claimed, WriteToken, inp.faults);
      if r.ok {
        BusyOfOthers(w, r.w, b, r.b, inp);
        PrepareOpens(r.w, r.b, true, inp);
      }
    } else {
      PrepareOpens(w, b, false, inp);
    }
  }

  /** A reconcile opens a run if and only if there is a claim to back up, the run is wanted, nothing else comes first, no
      other session holds one of its claims, and no call on the way fails. The run then holds what its own quiesce
      recorded, and the workloads are as that quiesce left them. */
  lemma OpensIff(w: World, k: Key, inp: Inputs)
    requires k in w.backups && w.backups[k].key == k && k !in w.runs
    requires w.backups[k].spec.schedule.Cron? ==> LeastSlot(w.backups[k].spec.schedule.next)
    ensures var b, w' := w.backups[k], Reconcile(w, k, inp);
            (k in w'.runs <==>
               PvcList(b.spec) != [] && Unoccupied(w, b, inp) && Wanted(w, b) && !BackupBusy(w, b, inp) && CallsSucceed(w, b, inp)) &&
            (k in w'.runs ==> OpensWith(w, w', b, Forced(b), inp))
  {
    var b := w.backups[k];
    DueIff(b, w.now);
    ClaimOpens(w, b, inp);
    if PvcList(b.spec) != [] && Unoccupied(w, b, inp) {
      RunBranches(w, k, inp);
      assert Starts(w, b) <==> Wanted(w, b);
      if !Wanted(w, b) { NotStarted(w, k, inp); }
    } else {
      Elsewhere(w, k, inp);
    }
  }

  lemma NotStarted(w: World, k: Key, inp: Inputs)
    requires k in w.backups && w.backups[k].key == k && k !in w.runs
    requires var b := w.backups[k];
             PvcList(b.spec) != [] && Unoccupied(w, b, inp) && !Starts(w, b)
    ensures k !in Reconcile(w, k, inp).runs
  {
    RunBranches(w, k, inp);
  }

  lemma Elsewhere(w: World, k: Key, inp: Inputs)
    requires k in w.backups && w.backups[k].key == k && k !in w.runs
    requires var b := w.backups[k]; PvcList(b.spec) == [] || !Unoccupied(w, b, inp)
    ensures k !in Reconcile(w, k, inp).runs
  {
  }

  // ---------------------------------------------------------------------
  // The status of an open run

  /** The phase under which a run opens: the last one that was written on the way. */
  function OpenPhase(b: PVCBackup, inp: Inputs): Phase {
    if TakesSnapshot(b.spec) && WriteSnapshotting !in inp.faults then Snapshotting
    else if Quiesces(b.spec) then Quiescing
    else b.status.phase
  }

  function TokenClaimed(b: PVCBackup): BackupStatus {
    if Forced(b) then b.status.(lastForceRun := b.meta.forceRun) else b.status
  }

  lemma {:induction false} PipelineStatus(w: World, b: PVCBackup, steps: seq<string>, inp: Inputs)
    requires Current(w, b)
    ensures var s, status := SnapshotSteps(w, b, steps, inp), w.backups[b.key].status;
            s.ok ==> s.m.w.backups[b.key].status == status.(
              phase := if ("csiSnapshot" in steps || "topolvmSnapshot" in steps) && WriteSnapshotting !in inp.faults
                       then Snapshotting else status.phase)
  {
    if steps != [] {
      var front, last := steps[..|steps| - 1], steps[|steps| - 1];
      PipelineStatus(w, b, front, inp);
      assert steps == front + [last];
    }
  }

  lemma SnapshotStatus(w: World, b: PVCBackup, state: map<string, int>, forced: bool, inp: Inputs)
    requires Current(w, b) && b.key !in w.runs
    ensures var w', status := Snapshot(w, b, state, forced, inp), w.backups[b.key].status;
            b.key in w'.runs ==> w'.backups[b.key].status == status.(
              phase := if TakesSnapshot(b.spec) && WriteSnapshotting !in inp.faults then Snapshotting else status.phase)
  {
    PipelineStatus(w, b, Pipeline(b.spec), inp);
  }

  lemma AfterQuiesceStatus(w: World, b: PVCBackup, q: Quiet, forced: bool, inp: Inputs)
    requires Current(w, b) && b.key !in w.runs
    ensures var w', status := AfterQuiesce(w, b, q, forced, inp), w.backups[b.key].status;
            b.key in w'.runs ==> w'.backups[b.key].status == status.(
              phase := if TakesSnapshot(b.spec) && WriteSnapshotting !in inp.faults then Snapshotting else status.phase)
  {
    SnapshotStatus(w, b, q.state, forced, inp);
  }

  lemma PrepareStatus(w: World, b: PVCBackup, forced: bool, inp: Inputs)
    requires Current(w, b) && b.status == w.backups[b.key].status && b.key !in w.runs
    ensures var w' := Prepare(w, b, forced, inp);
            b.key in w'.runs ==> w'.backups[b.key].status == b.status.(phase := OpenPhase(b, inp))
  {
    QuiescesIff(b.spec);
    if NeedQuiesce(b.spec) {
      var r := WriteStatus(w, b.(status := b.status.(phase := Quiescing)), WriteQuiescing, inp.faults);
      if r.ok {
        var q := Quiesce(r.w.scene, b.spec.targets, b.key.ns, inp.scaleFaults);
        AfterQuiesceStatus(r.w.(scene := q.scene), r.b, q, forced, inp);
      }
    } else {
      SnapshotStatus(w, b, map[], forced, inp);
    }
  }

  lemma ClaimStatus(w: World, b: PVCBackup, inp: Inputs)
    requires b.key in w.backups && b == w.backups[b.key] && b.key !in w.runs
    ensures var w' := Claim(w, b, inp);
            b.key in w'.runs ==> w'.backups[b.key].status == TokenClaimed(b).(phase := OpenPhase(b, inp))
  {
    if Forced(b) {
      var r := WriteStatus(w, b.(status := TokenClaimed(b)), WriteToken, inp.faults);
      if r.ok { PrepareStatus(r.w, r.b, true, inp); }
    } else {
      PrepareStatus(w, b, false, inp);
    }
  }

  /** A run opens under the last phase written, and the token that asked for it is claimed. */
  lemma OpensUnder(w: World, k: Key, inp: Inputs)
    requires k in w.backups && w.backups[k].key == k && k !in w.runs && k in Reconcile(w, k, inp).runs
    requires w.backups[k].spec.schedule.Cron? ==> LeastSlot(w.backups[k].spec.schedule.next)
    ensures var b := w.backups[k];
            Reconcile(w, k, inp).backups[k].status == TokenClaimed(b).(phase := OpenPhase(b, inp))
  {
    var b := w.backups[k];
    OpensIff(w, k, inp);
    RunBranches(w, k, inp);
    ClaimStatus(w, b, inp);
  }

  // ---------------------------------------------------------------------
  // Waiting for the session

  /** With its session taken, a backup that would run changes nothing but its claimed token. */
  lemma BusyWaits(w: World, k: Key, inp: Inputs)
    requires k in w.backups && w.backups[k].key == k && k !in w.runs
    requires w.backups[k].spec.schedule.Cron? ==> LeastSlot(w.backups[k].spec.schedule.next)
    requires var b := w.backups[k];
             PvcList(b.spec) != [] && Unoccupied(w, b, inp) && Wanted(w, b) && BackupBusy(w, b, inp)
    requires GetRepo !in inp.faults && WriteToken !in inp.faults
    ensures var b, w' := w.backups[k], Reconcile(w, k, inp);
            w'.runs == w.runs && w'.jobs == w.jobs && w'.scene == w.scene &&
            w'.backups[k].status == TokenClaimed(b) && w'.backups[k].meta.forceRun == b.meta.forceRun
  {
    var b := w.backups[k];
    DueIff(b, w.now);
    assert Starts(w, b);
    RunBranches(w, k, inp);
    if Forced(b) {
      var r := WriteStatus(w, b.(status := TokenClaimed(b)), WriteToken, inp.faults);
      BusyOfOthers(w, r.w, b, r.b, inp);
    }
  }

  /** The token is claimed before the session is looked at, so a forced run that has to wait is forgotten: after the wait
      the backup is wanted if and only if it would have been without the token. */
  lemma ForcedRunForgotten(w: World, k: Key, inp: Inputs)
    requires k in w.backups && w.backups[k].key == k && k !in w.runs
    requires w.backups[k].spec.schedule.Cron? ==> LeastSlot(w.backups[k].spec.schedule.next)
    requires var b := w.backups[k];
             PvcList(b.spec) != [] && Unoccupied(w, b, inp) && Forced(b) && BackupBusy(w, b, inp)
    requires GetRepo !in inp.faults && WriteToken !in inp.faults
    ensures var b, w' := w.backups[k], Reconcile(w, k, inp);
            Wanted(w', w'.backups[k]) <==>
            match b.spec.schedule
            case Cron(next) =>
              SlotCame(next, if b.status.lastBackupTime.Some? then b.status.lastBackupTime.value else b.meta.created, w.now)
            case Malformed => false
            case Unscheduled => b.status.phase !in {Succeeded, Failed, Scheduled}
  {
    BusyWaits(w, k, inp);
  }

  // ---------------------------------------------------------------------
  // Creating the Job

  /** With complete lists, what decides is who is stored, not how the lists come back. */
  lemma BusyIff(w: World, b: PVCBackup, inp: Inputs)
    requires Lists(w, inp)
    ensures BackupBusy(w, b, inp) <==>
            (exists k :: k in w.backups && BackupHolds(w, k, BackupPVCKeys(b), OfBackup(b.key))) ||
            (exists r :: r in w.restores && RestoreHolds(w, r, BackupPVCKeys(b), OfBackup(b.key)))
  {
    var keys, self := BackupPVCKeys(b), OfBackup(b.key);
    var backups, restores := BackupHolders(w, inp.backupList, keys, self), RestoreHolders(w, inp.restoreList, keys, self);
    if backups != [] { assert backups[0] in backups; }
    if restores != [] { assert restores[0] in restores; }
  }

  /** An open run creates its Job, over the claims it uploads, if and only if the stored backup has not failed, the
      session is free and the API takes the Job; no name of an existing Job comes out for it. */
  lemma LaunchesIff(w: World, k: Key, inp: Inputs)
    requires Wellformed(w) && k in w.runs && Key(k.ns, LaunchName(w.runs[k])) !in w.jobs
    ensures var run, w' := w.runs[k], Launch(w, k, inp);
            if !w.backups[k].status.phase.Failed? && !BackupBusy(w, run.b, inp) && CreateJob !in inp.faults
            then w'.jobs == w.jobs[Key(k.ns, BackupJobName(k.name, run.started)) :=
                                     Job(OfBackup(k), BackupJob, run.started, Sec(w.now), 0, 0, run.upload)]
            else w'.jobs == w.jobs
  {
    LaunchCreates(w, k, inp);
  }

  /** From a wanted backup to its Job in two steps with nothing in between: the Job is created unless the API refuses it
      or the backup is marked Failed and its pipeline writes no phase on the way. A failed backup of such a pipeline
      never gets past the second look at its phase, though its token is claimed and its slot comes. */
  lemma RunsAtOnce(w: World, k: Key, inp: Inputs, inp': Inputs)
    requires Wellformed(w) && Lists(w, inp) && k in w.backups && k !in w.runs
    requires w.backups[k].spec.schedule.Cron? ==> LeastSlot(w.backups[k].spec.schedule.next)
    requires var w' := Reconcile(w, k, inp);
             k in w'.runs && Wellformed(w') && Lists(w', inp') && Key(k.ns, LaunchName(w'.runs[k])) !in w'.jobs
    ensures var b, w' := w.backups[k], Reconcile(w, k, inp);
            AddsBackup(w', Launch(w', k, inp'), k) <==>
            CreateJob !in inp'.faults &&
            (b.status.phase.Failed? ==> Quiesces(b.spec) || (TakesSnapshot(b.spec) && WriteSnapshotting !in inp.faults))
  {
    var b, w' := w.backups[k], Reconcile(w, k, inp);
    OpensIff(w, k, inp);
    OpensUnder(w, k, inp);
    LaunchCreates(w', k, inp');
    BusyOfOthers(w, w', b, w'.runs[k].b, inp);
    BusyIff(w', w'.runs[k].b, inp);
    BusyIff(w', w'.runs[k].b, inp');
  }
}
