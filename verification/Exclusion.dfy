/** Session mutual exclusion: no two custom resources with overlapping claims have unfinished Jobs at once. */
module Exclusion {
  import opened Text
  import opened Types
  import opened Workloads
  import opened JobNames
  import opened Protocol
  import opened OneJob

  /** An unfinished Job that mounts the claims of its owner. */
  ghost predicate Session(w: World, j: Key, o: Owner) {
    Live(w, j, o, if o.OfBackup? then BackupJob else RestoreJob)
  }

  function SessionKeys(w: World, o: Owner): seq<string> {
    match o
    case OfBackup(k) => if k in w.backups then BackupPVCKeys(w.backups[k]) else []
    case OfRestore(k) => if k in w.restores then RestorePVCKeys(w.restores[k]) else []
  }

  ghost predicate Exclusive(w: World) {
    forall i, j, o, p :: o != p && Session(w, i, o) && Session(w, j, p) ==>
      !PvcKeysOverlap(SessionKeys(w, o), SessionKeys(w, p))
  }

  /** A backup with an unfinished Job holds its session: it says Uploading and names that very Job. Where status writes
      after Job creation may get lost, it may instead still be in the phase of its quiesce or snapshot. */
  ghost predicate BackupTied(w: World, k: Key, j: Key, lost: bool) {
    && k in w.backups && PvcList(w.backups[k].spec) != []
    && ((w.backups[k].status.phase.Uploading? && w.backups[k].status.lastJobName == j.name) || (lost && Unnoted(w, k)))
  }

  /** In the phase before Uploading, in which the backup's scans can recognise its Jobs. */
  ghost predicate Unnoted(w: World, k: Key)
    requires k in w.backups
  {
    (w.backups[k].status.phase.Quiescing? || w.backups[k].status.phase.Snapshotting?) &&
    |k.name| <= 46 && Idle(w, OfBackup(k), PruneJob)
  }

  ghost predicate BackupsTied(w: World, lost: bool) {
    forall k, j :: Live(w, j, OfBackup(k), BackupJob) ==> BackupTied(w, k, j, lost)
  }

  ghost predicate RestoreTied(w: World, k: Key, j: Key) {
    && k in w.restores && w.restores[k].phase.Restoring?
    && j == Key(k.ns, w.restores[k].lastJobName) && w.restores[k].lastJobName != ""
  }

  ghost predicate RestoresTied(w: World) {
    forall k, j :: Live(w, j, OfRestore(k), RestoreJob) ==> RestoreTied(w, k, j)
  }

  ghost predicate RunsReady(w: World) {
    forall k :: k in w.runs ==> k in w.backups && PvcList(w.backups[k].spec) != [] && Idle(w, OfBackup(k), BackupJob)
  }

  ghost predicate SessionInv(w: World, lost: bool) {
    Inv(w) && BackupsTied(w, lost) && RestoresTied(w) && RunsReady(w) && Exclusive(w)
  }

  /** What the result needs of the environment: the status writes that follow the creation of a Job get through.
      With `lost`, a backup's may get lost while the phase of its quiesce or snapshot is stored and its name has at most
      46 characters; then a cancel must not come before the Job is adopted. */
  ghost predicate Guarded(w: World, s: Step, lost: bool) {
    match s
    case ReconcileStep(k, inp) => lost && k in w.backups && ForceCancelPending(w.backups[k]) ==> CancelCovers(w, k)
    case LaunchStep(k, inp) => k in w.backups && k in w.runs && !Aborts(w, k, inp) && CreateJob !in inp.faults ==>
      Lands(w, k, inp) || (lost && MayLose(w, k))
    case RestoreStep(k, inp) => WriteRestoring !in inp.faults
    case _ => true
  }

  /** The stored phase covers for a lost status write. */
  ghost predicate MayLose(w: World, k: Key)
    requires k in w.backups
  {
    (w.backups[k].status.phase.Quiescing? || w.backups[k].status.phase.Snapshotting?) && |k.name| <= 46
  }

  /** The Job a cancel would delete is the only backup Job that can be unfinished. */
  ghost predicate CancelCovers(w: World, k: Key) {
    k in w.backups && forall j :: Live(w, j, OfBackup(k), BackupJob) ==> j.name == w.backups[k].status.lastJobName
  }

  // ---------------------------------------------------------------------
  // Reconciling a backup that has an unfinished Job

  /** A backup's scans classify what they find by kind. */
  lemma PruneScanFindsPrune(w: World, k: Key, inp: Inputs)
    requires Named(w) && FindPruneJob(w, k, inp).Some?
    ensures Live(w, FindPruneJob(w, k, inp).value, OfBackup(k), PruneJob)
  {
    var j := FindPruneJob(w, k, inp).value;
    assert JobNamed(j, w.jobs[j], w.now);
    BackupJobIsNotPrune(k.name, w.jobs[j].stamp);
  }

  lemma BackupScanFindsBackup(w: World, k: Key, inp: Inputs)
    requires Named(w) && FindBackupJob(w, k, inp).Some? && Idle(w, OfBackup(k), PruneJob)
    ensures Live(w, FindBackupJob(w, k, inp).value, OfBackup(k), BackupJob)
  {
    var j := FindBackupJob(w, k, inp).value;
    assert JobNamed(j, w.jobs[j], w.now);
    assert !Live(w, j, OfBackup(k), PruneJob);
  }

  /** Adoption does not confuse the two kinds: reached in the order of the scans, each adopts a Job of its kind, but for
      the confusable names of 47 to 52 characters. */
  lemma AdoptionClassifies(w: World, k: Key, inp: Inputs)
    requires Named(w) && (forall j :: j in w.jobs ==> j in inp.jobList)
    requires |k.name| <= 46 || |k.name| > 52 || !Confusable(k.name)
    ensures FindPruneJob(w, k, inp).Some? ==> Live(w, FindPruneJob(w, k, inp).value, OfBackup(k), PruneJob)
    ensures FindPruneJob(w, k, inp).None? && FindBackupJob(w, k, inp).Some? ==>
              Live(w, FindBackupJob(w, k, inp).value, OfBackup(k), BackupJob)
  {
    if FindPruneJob(w, k, inp).Some? {
      PruneScanFindsPrune(w, k, inp);
    } else if FindBackupJob(w, k, inp).Some? {
      if |k.name| <= 46 {
        PruneScanComplete(w, k, inp);
        BackupScanFindsBackup(w, k, inp);
      } else {
        var j := FindBackupJob(w, k, inp).value;
        assert JobNamed(j, w.jobs[j], w.now);
        CutPruneLooksLikeBackup(k.name, w.jobs[j].stamp);
      }
    }
  }

  /** For those names it always does: an unfinished prune Job beside which there is no backup Job is adopted as one. */
  lemma AdoptionConfuses(w: World, k: Key, inp: Inputs)
    requires Named(w) && (forall j :: j in w.jobs ==> j in inp.jobList)
    requires 47 <= |k.name| <= 52 && Confusable(k.name)
    requires !Idle(w, OfBackup(k), PruneJob) && Idle(w, OfBackup(k), BackupJob)
    ensures FindPruneJob(w, k, inp).None? && FindBackupJob(w, k, inp).Some?
    ensures Live(w, FindBackupJob(w, k, inp).value, OfBackup(k), PruneJob)
  {
    ConfusedScanComplete(w, k, inp);
    var j := FindBackupJob(w, k, inp).value;
    assert JobNamed(j, w.jobs[j], w.now) && !Live(w, j, OfBackup(k), BackupJob);
    forall i | i in inp.jobList ensures !Matches(w.jobs, i, k, PrunePrefix(k.name)) {
      if i in w.jobs {
        assert JobNamed(i, w.jobs[i], w.now);
        PrunePrefixSurvives(k.name, w.jobs[i].stamp);
        BackupJobIsNotPrune(k.name, w.jobs[i].stamp);
      }
    }
  }

  /** As long as its Job runs, a reconcile only watches or adopts it. */
  lemma WatchesLiveJob(w: World, k: Key, j: Key, inp: Inputs, lost: bool)
    requires Inv(w) && Enabled(w, ReconcileStep(k, inp)) && BackupTied(w, k, j, lost)
    requires Live(w, j, OfBackup(k), BackupJob)
    requires !ForceCancelPending(w.backups[k])
    ensures var w' := Reconcile(w, k, inp);
            w'.jobs == w.jobs && w'.runs == w.runs && BackupTied(w', k, j, lost)
  {
    var b, w' := w.backups[k], Reconcile(w, k, inp);
    assert JobNamed(j, w.jobs[j], w.now);
    if b.status.phase.Uploading? {
      assert |BackupPrefix(k.name)| > 0;
      assert w' == PollBackup(w, b, inp) == w;
    } else if ForcePrunePending(b) {
      assert w' == StartPrune(w, b, inp) == w;
    } else {
      AdoptsLiveJob(w, k, j, inp);
    }
  }

  /** A quiescing or snapshotting backup with nothing pending adopts what its scan finds. */
  lemma AdoptsFound(w: World, k: Key, inp: Inputs)
    requires k in w.backups && w.backups[k].key == k && PvcList(w.backups[k].spec) != []
    requires w.backups[k].status.phase.Quiescing? || w.backups[k].status.phase.Snapshotting?
    requires !ForceCancelPending(w.backups[k]) && !ForcePrunePending(w.backups[k])
    requires FindPruneJob(w, k, inp).None? && FindBackupJob(w, k, inp).Some?
    ensures Reconcile(w, k, inp) == AdoptBackup(w, w.backups[k], FindBackupJob(w, k, inp).value, inp)
  {
  }

  lemma AdoptsLiveJob(w: World, k: Key, j: Key, inp: Inputs)
    requires Inv(w) && Enabled(w, ReconcileStep(k, inp)) && PvcList(w.backups[k].spec) != [] && Unnoted(w, k)
    requires Live(w, j, OfBackup(k), BackupJob)
    requires !ForceCancelPending(w.backups[k]) && !ForcePrunePending(w.backups[k])
    ensures var w' := Reconcile(w, k, inp);
            w'.jobs == w.jobs && w'.runs == w.runs && BackupTied(w', k, j, true)
  {
    if FindPruneJob(w, k, inp).Some? {
      PruneScanFindsPrune(w, k, inp);
    }
    BackupScanComplete(w, k, inp);
    BackupScanFindsBackup(w, k, inp);
    assert FindBackupJob(w, k, inp).value == j;
    AdoptsFound(w, k, inp);
  }

  /** A cancel stops the backup's Jobs exactly when the status names every unfinished one: a Job whose name was
      never stored, because the status write after its creation was lost, survives. */
  lemma CancelStops(w: World, k: Key, inp: Inputs)
    requires Inv(w) && Enabled(w, ReconcileStep(k, inp))
    requires PvcList(w.backups[k].spec) != [] && ForceCancelPending(w.backups[k])
    ensures Idle(Reconcile(w, k, inp), OfBackup(k), BackupJob) <==> CancelCovers(w, k)
  {
    var b, w' := w.backups[k], Reconcile(w, k, inp);
    assert w' == Cancel(w, b, inp);
    var del := DeleteJob(w, k.ns, b.status.lastJobName);
    assert w'.jobs == del.jobs;
    forall j | Live(w, j, OfBackup(k), BackupJob)
      ensures Live(w', j, OfBackup(k), BackupJob) <==> j.name != b.status.lastJobName
    {
      assert JobNamed(j, w.jobs[j], w.now);
    }
    assert forall j :: Live(w', j, OfBackup(k), BackupJob) ==> Live(w, j, OfBackup(k), BackupJob);
  }

  lemma ReconcileTies(w: World, k: Key, inp: Inputs, j: Key, lost: bool)
    requires SessionInv(w, lost) && Enabled(w, ReconcileStep(k, inp)) && Guarded(w, ReconcileStep(k, inp), lost)
    requires Live(w, j, OfBackup(k), BackupJob)
    ensures var w' := Reconcile(w, k, inp);
            w'.runs == w.runs && (Live(w', j, OfBackup(k), BackupJob) ==> BackupTied(w', k, j, lost))
  {
    assert BackupTied(w, k, j, lost);
    if ForceCancelPending(w.backups[k]) {
      assert forall i :: Live(w, i, OfBackup(k), BackupJob) ==> BackupTied(w, k, i, lost);
      CancelStops(w, k, inp);
    } else {
      WatchesLiveJob(w, k, j, inp, lost);
    }
  }

  /** Session Jobs of w' were session Jobs of w, with the same claims. */
  ghost predicate SessionsShrink(w: World, w': World) {
    forall j, o :: Session(w', j, o) ==> Session(w, j, o) && SessionKeys(w', o) == SessionKeys(w, o)
  }

  lemma ExclusiveShrinks(w: World, w': World)
    requires Exclusive(w) && SessionsShrink(w, w')
    ensures Exclusive(w')
  {
  }

  lemma OwnerKeepsKeys(w: World, w': World, k: Key)
    requires OnlyOwner(w, w', k)
    ensures forall o :: SessionKeys(w', o) == SessionKeys(w, o)
  {
  }

  /** A step of one backup leaves every other owner tied. */
  lemma OwnerTies(w: World, w': World, k: Key, lost: bool)
    requires BackupsTied(w, lost) && RestoresTied(w) && OnlyOwner(w, w', k)
    requires forall j, o, kind :: o != OfBackup(k) && Live(w', j, o, kind) ==> Live(w, j, o, kind)
    requires forall j :: Live(w', j, OfBackup(k), BackupJob) ==> BackupTied(w', k, j, lost)
    ensures BackupsTied(w', lost) && RestoresTied(w')
  {
    forall i, j | Live(w', j, OfBackup(i), BackupJob)
      ensures BackupTied(w', i, j, lost)
    {
      if i != k {
        assert Live(w, j, OfBackup(i), BackupJob);
        assert BackupTied(w, i, j, lost);
      }
    }
    forall i, j | Live(w', j, OfRestore(i), RestoreJob)
      ensures RestoreTied(w', i, j)
    {
      assert Live(w, j, OfRestore(i), RestoreJob);
      assert RestoreTied(w, i, j);
    }
  }

  lemma OwnerRunsReady(w: World, w': World, k: Key)
    requires RunsReady(w) && OnlyOwner(w, w', k)
    requires forall j, o, kind :: o != OfBackup(k) && Live(w', j, o, kind) ==> Live(w, j, o, kind)
    requires k in w'.runs ==> PvcList(w.backups[k].spec) != [] && Idle(w', OfBackup(k), BackupJob)
    ensures RunsReady(w')
  {
    forall i | i in w'.runs ensures i in w'.backups && PvcList(w'.backups[i].spec) != [] && Idle(w', OfBackup(i), BackupJob) {
      if i != k {
        assert i in w'.runs - {k};
        assert i in w.runs;
      }
    }
  }

  lemma ReconcileSessions(w: World, w': World, k: Key, lost: bool)
    requires SessionInv(w, lost) && k in w.backups && Inv(w') && OnlyOwner(w, w', k) && (JobsShrink(w, w') || AddsPrune(w, w', k))
    requires k in w'.runs ==> PvcList(w.backups[k].spec) != [] && Idle(w', OfBackup(k), BackupJob)
    requires forall j :: Live(w, j, OfBackup(k), BackupJob) && Live(w', j, OfBackup(k), BackupJob) ==> BackupTied(w', k, j, lost)
    ensures SessionInv(w', lost)
  {
    OwnerKeepsKeys(w, w', k);
    assert forall j, o :: Session(w', j, o) ==> Session(w, j, o);
    ExclusiveShrinks(w, w');
    OwnerTies(w, w', k, lost);
    OwnerRunsReady(w, w', k);
  }

  // ---------------------------------------------------------------------
  // Creating a backup Job

  /** A session that overlaps the backup's claims makes it busy. */
  lemma OtherSessionIsBusy(w: World, b: PVCBackup, inp: Inputs, j: Key, o: Owner, lost: bool)
    requires BackupsTied(w, lost) && RestoresTied(w) && Lists(w, inp)
    requires Session(w, j, o) && o != OfBackup(b.key)
    requires PvcKeysOverlap(BackupPVCKeys(b), SessionKeys(w, o))
    ensures BackupBusy(w, b, inp)
  {
    var keys := BackupPVCKeys(b);
    match o
    case OfBackup(k) =>
      assert BackupTied(w, k, j, lost);
      assert BackupHolds(w, k, keys, OfBackup(b.key));
      assert k in BackupHolders(w, inp.backupList, keys, OfBackup(b.key));
    case OfRestore(k) =>
      assert RestoreTied(w, k, j);
      assert RestoreHolds(w, k, keys, OfBackup(b.key));
      assert k in RestoreHolders(w, inp.restoreList, keys, OfBackup(b.key));
  }

  /** A launch that creates its Job found the session free and leaves the status tied to the Job. */
  lemma LaunchTies(w: World, k: Key, inp: Inputs, lost: bool)
    requires Wellformed(w) && k in w.runs && Guarded(w, LaunchStep(k, inp), lost)
    requires AddsBackup(w, Launch(w, k, inp), k)
    ensures !BackupBusy(w, w.runs[k].b, inp)
    ensures var b' := Launch(w, k, inp).backups[k];
            (b'.status.phase.Uploading? && b'.status.lastJobName == LaunchName(w.runs[k])) ||
            (lost && (b'.status.phase.Quiescing? || b'.status.phase.Snapshotting?) && |k.name| <= 46)
  {
    var run, w' := w.runs[k], Launch(w, k, inp);
    assert !Aborts(w, k, inp) && CreateJob !in inp.faults;
    var b := run.b.(status := run.b.status.(phase := Uploading));
    var p := PersistQuiesce(WithJob(w, k), b, run.quiesced, inp.faults);
    var r := WriteStatus(p.w, p.b.(status := p.b.status.(lastJobName := LaunchName(run))), WriteUploading, inp.faults);
    if r.ok {
      assert w' == PollBackup(r.w, r.b, inp) == r.w;
    } else {
      assert w' == r.w && w'.backups[k].status == w.backups[k].status;
    }
  }

  /** A launch that creates no Job. */
  lemma LaunchWithoutJob(w: World, w': World, k: Key, lost: bool)
    requires SessionInv(w, lost) && OnlyOwner(w, w', k) && w'.runs == w.runs - {k} && w'.jobs == w.jobs && Inv(w')
    requires Idle(w, OfBackup(k), BackupJob)
    ensures SessionInv(w', lost)
  {
    OwnerKeepsKeys(w, w', k);
    assert forall j, o, kind :: Live(w', j, o, kind) <==> Live(w, j, o, kind);
    OwnerTies(w, w', k, lost);
    OwnerRunsReady(w, w', k);
    ExclusiveShrinks(w, w');
  }

  lemma LaunchWithJob(w: World, w': World, k: Key, inp: Inputs, n: Key, lost: bool)
    requires SessionInv(w, lost) && Lists(w, inp) && k in w.runs
    requires OnlyOwner(w, w', k) && w'.runs == w.runs - {k} && Inv(w')
    requires forall j, o, kind :: Live(w', j, o, kind) ==>
               Live(w, j, o, kind) || (j == n && o == OfBackup(k) && kind == BackupJob)
    requires Idle(w, OfBackup(k), BackupJob) && !BackupBusy(w, w.runs[k].b, inp) && BackupTied(w', k, n, lost)
    ensures SessionInv(w', lost)
  {
    OwnerKeepsKeys(w, w', k);
    assert forall j :: Live(w', j, OfBackup(k), BackupJob) ==> j == n;
    OwnerTies(w, w', k, lost);
    OwnerRunsReady(w, w', k);
    LaunchExclusive(w, w', k, inp, n, lost);
  }

  lemma LaunchExclusive(w: World, w': World, k: Key, inp: Inputs, n: Key, lost: bool)
    requires SessionInv(w, lost) && Lists(w, inp) && k in w.runs && OnlyOwner(w, w', k)
    requires !BackupBusy(w, w.runs[k].b, inp)
    requires forall j, o, kind :: Live(w', j, o, kind) ==>
               Live(w, j, o, kind) || (j == n && o == OfBackup(k) && kind == BackupJob)
    requires Idle(w, OfBackup(k), BackupJob)
    ensures Exclusive(w')
  {
    OwnerKeepsKeys(w, w', k);
    var b := w.runs[k].b;
    assert SessionKeys(w, OfBackup(k)) == BackupPVCKeys(b);
    forall j, p | p != OfBackup(k) && Session(w, j, p)
      ensures !PvcKeysOverlap(BackupPVCKeys(b), SessionKeys(w, p))
    {
      if PvcKeysOverlap(BackupPVCKeys(b), SessionKeys(w, p)) {
        OtherSessionIsBusy(w, b, inp, j, p, lost);
      }
    }
    forall i, j, o, p | o != p && Session(w', i, o) && Session(w', j, p)
      ensures !PvcKeysOverlap(SessionKeys(w', o), SessionKeys(w', p))
    {
      OverlapSymmetric(SessionKeys(w', o), SessionKeys(w', p));
      if o == OfBackup(k) {
        assert Session(w, j, p);
      } else if p == OfBackup(k) {
        assert Session(w, i, o);
      } else {
        assert Session(w, i, o) && Session(w, j, p);
      }
    }
  }

  // ---------------------------------------------------------------------
  // Preemption by a restore

  /** The backup scan finds the one unfinished Job. */
  lemma ScanFindsLiveJob(w: World, k: Key, j: Key, inp: Inputs)
    requires Named(w) && AtMostOne(w) && |k.name| <= 46 && Idle(w, OfBackup(k), PruneJob)
    requires forall i :: i in w.jobs ==> i in inp.jobList
    requires Live(w, j, OfBackup(k), BackupJob)
    ensures FindBackupJob(w, k, inp) == Some(j) && j.ns == k.ns && j.name != ""
  {
    BackupScanComplete(w, k, inp);
    BackupScanFindsBackup(w, k, inp);
    assert JobNamed(j, w.jobs[j], w.now);
    assert |BackupPrefix(k.name)| > 0;
  }

  /** Every unfinished backup Job of k is named by its status or can be recognised by its scan. */
  ghost predicate StopsCover(w: World, k: Key)
    requires k in w.backups
  {
    forall j :: Live(w, j, OfBackup(k), BackupJob) ==>
      j.name == w.backups[k].status.lastJobName || (|k.name| <= 46 && Idle(w, OfBackup(k), PruneJob))
  }

  /** The deletions of a preemption leave the holder without an unfinished backup Job. */
  lemma StopJobsClears(w: World, k: Key, inp: Inputs)
    requires Named(w) && AtMostOne(w) && k in w.backups && StopsCover(w, k)
    requires forall j :: j in w.jobs ==> j in inp.jobList
    ensures Idle(StopJobs(w, k, inp), OfBackup(k), BackupJob)
  {
    var w1, w2 := DeleteJob(w, k.ns, w.backups[k].status.lastJobName), StopJobs(w, k, inp);
    assert forall j, o, kind :: Live(w1, j, o, kind) ==> Live(w, j, o, kind);
    assert forall j, o, kind :: Live(w2, j, o, kind) ==> Live(w1, j, o, kind);
    assert Named(w1) && AtMostOne(w1);
    forall j | Live(w1, j, OfBackup(k), BackupJob)
      ensures !Live(w2, j, OfBackup(k), BackupJob)
    {
      assert Live(w, j, OfBackup(k), BackupJob) && JobNamed(j, w.jobs[j], w.now);
      assert |BackupPrefix(k.name)| > 0;
      assert j.name != w.backups[k].status.lastJobName;
      ScanFindsLiveJob(w1, k, j, inp);
      assert w2.jobs == w1.jobs - {j};
    }
  }

  lemma InterruptClears(w: World, w': World, k: Key, inp: Inputs)
    requires Named(w) && AtMostOne(w) && k in w.backups && StopsCover(w, k)
    requires forall j :: j in w.jobs ==> j in inp.jobList
    requires w'.jobs == StopJobs(w, k, inp).jobs
    ensures Idle(w', OfBackup(k), BackupJob)
  {
    StopJobsClears(w, k, inp);
    var stopped := StopJobs(w, k, inp);
    assert forall j :: Live(w', j, OfBackup(k), BackupJob) <==> Live(stopped, j, OfBackup(k), BackupJob);
  }

  /** A holder that preemption can leave without an unfinished backup Job: it has none, or it is active and its Jobs
      are covered. */
  ghost predicate Coverable(w: World, k: Key) {
    k in w.backups && (Idle(w, OfBackup(k), BackupJob) || (BackupPhaseActive(w.backups[k].status.phase) && StopsCover(w, k)))
  }

  lemma FewerJobs(w: World, w': World)
    requires Named(w) && AtMostOne(w) && JobsShrink(w, w') && w'.now == w.now && w'.runs == w.runs
    ensures forall j, o, kind :: Live(w', j, o, kind) ==> Live(w, j, o, kind)
    ensures Named(w') && AtMostOne(w')
  {
    assert forall j, o, kind :: Live(w', j, o, kind) ==> Live(w, j, o, kind);
  }

  lemma LastInterruptClears(w: World, init: World, w': World, k: Key, inp: Inputs)
    requires Coverable(w, k) && k in init.backups && init.backups[k] == w.backups[k] && Named(init) && AtMostOne(init)
    requires (forall j, o, kind :: Live(init, j, o, kind) ==> Live(w, j, o, kind))
    requires (forall j, o, kind :: Live(w', j, o, kind) ==> Live(init, j, o, kind))
    requires forall j :: j in init.jobs ==> j in inp.jobList
    requires BackupPhaseActive(init.backups[k].status.phase) ==> w'.jobs == StopJobs(init, k, inp).jobs
    ensures Idle(w', OfBackup(k), BackupJob)
  {
    if BackupPhaseActive(init.backups[k].status.phase) && StopsCover(w, k) {
      assert StopsCover(init, k);
      InterruptClears(init, w', k, inp);
    }
  }

  /** After the preemptions of a restore no holder has an unfinished backup Job, in whatever state the other backups are;
      and these are left alone. */
  lemma {:induction false} InterruptAllClears(w: World, holders: seq<Key>, inp: Inputs)
    requires Keyed(w) && Named(w) && AtMostOne(w) && (forall j :: j in w.jobs ==> j in inp.jobList)
    requires forall k :: k in holders ==> k in w.backups && Coverable(w, k)
    ensures var w' := InterruptAll(w, holders, inp);
            (forall k :: k in holders ==> Idle(w', OfBackup(k), BackupJob)) &&
            (forall k :: k in w.backups && k !in holders ==> w'.backups[k] == w.backups[k])
  {
    if holders != [] {
      var front, k := holders[..|holders| - 1], holders[|holders| - 1];
      InterruptAllClears(w, front, inp);
      var init, w' := InterruptAll(w, front, inp), InterruptAll(w, holders, inp);
      FewerJobs(w, init);
      FewerJobs(init, w');
      if k !in front {
        LastInterruptClears(w, init, w', k, inp);
      }
    }
  }

  /** Backups keep their ties when Jobs vanish and objects without an unfinished Job change. */
  ghost predicate Tied(w: World, inp: Inputs, lost: bool) {
    && Keyed(w) && Named(w) && AtMostOne(w) && BackupsTied(w, lost)
    && forall j :: j in w.jobs ==> j in inp.jobList
  }

  lemma InterruptTies(w: World, w': World, k: Key, inp: Inputs, lost: bool)
    requires Tied(w, inp, lost) && k in w.backups
    requires OnlyBackups(w, w') && w'.backups == w.backups[k := w'.backups[k]]
    requires JobsShrink(w, w') && w'.jobs == StopJobs(w, k, inp).jobs
    ensures Tied(w', inp, lost) && Idle(w', OfBackup(k), BackupJob)
  {
    forall j | Live(w, j, OfBackup(k), BackupJob) ensures BackupTied(w, k, j, lost) {
    }
    InterruptClears(w, w', k, inp);
    ShrunkTies(w, w', k, lost);
  }

  lemma ShrunkTies(w: World, w': World, k: Key, lost: bool)
    requires Named(w) && AtMostOne(w) && BackupsTied(w, lost) && JobsShrink(w, w') && OnlyBackups(w, w')
    requires k in w.backups && w'.backups == w.backups[k := w'.backups[k]]
    requires Idle(w', OfBackup(k), BackupJob)
    ensures Named(w') && AtMostOne(w') && BackupsTied(w', lost)
  {
    assert forall j, o, kind :: Live(w', j, o, kind) ==> Live(w, j, o, kind);
    forall i, j | Live(w', j, OfBackup(i), BackupJob)
      ensures BackupTied(w', i, j, lost)
    {
      assert BackupTied(w, i, j, lost);
    }
  }

  lemma {:induction false} InterruptAllTies(w: World, holders: seq<Key>, inp: Inputs, lost: bool)
    requires Tied(w, inp, lost) && forall k :: k in holders ==> k in w.backups
    ensures var w' := InterruptAll(w, holders, inp);
            Tied(w', inp, lost) && forall k :: k in holders ==> Idle(w', OfBackup(k), BackupJob)
  {
    if holders != [] {
      var front, k := holders[..|holders| - 1], holders[|holders| - 1];
      InterruptAllTies(w, front, inp, lost);
      var init := InterruptAll(w, front, inp);
      if BackupPhaseActive(init.backups[k].status.phase) {
        var w' := Interrupt(init, k, inp);
        InterruptTies(init, w', k, inp, lost);
        assert forall j, o, kind :: Live(w', j, o, kind) ==> Live(init, j, o, kind);
      } else {
        assert forall j :: Live(init, j, OfBackup(k), BackupJob) ==> BackupTied(init, k, j, lost);
      }
    }
  }

  /** A restore that gets past its holders overlaps no session any more. */
  lemma PreemptedIsFree(w: World, r: PVCRestore, inp: Inputs, j: Key, p: Owner, lost: bool)
    requires Tied(w, inp, lost) && RestoresTied(w) && Lists(w, inp) && p != OfRestore(r.key)
    requires RestoreHolders(w, inp.restoreList, RestorePVCKeys(r), OfRestore(r.key)) == []
    requires Session(Preempt(w, r, inp), j, p)
    ensures !PvcKeysOverlap(RestorePVCKeys(r), SessionKeys(w, p))
  {
    var keys, self := RestorePVCKeys(r), OfRestore(r.key);
    var holders := BackupHolders(w, inp.backupList, keys, self);
    InterruptAllTies(w, holders, inp, lost);
    assert Session(w, j, p);
    match p
    case OfBackup(k) =>
      assert BackupTied(w, k, j, lost);
      assert k !in holders;
      assert !BackupHolds(w, k, keys, self);
    case OfRestore(k) =>
      assert RestoreTied(w, k, j);
      assert k !in RestoreHolders(w, inp.restoreList, keys, self);
      assert !RestoreHolds(w, k, keys, self);
  }

  /** The state after the preemptions: the ties hold, and nothing overlaps the restore's claims. */
  ghost predicate Preempted(w: World, r: PVCRestore, lost: bool) {
    && Named(w) && BackupsTied(w, lost) && RestoresTied(w) && Exclusive(w) && Keyed(w)
    && r.key in w.restores && SameRestore(w.restores[r.key], r)
    && Idle(w, OfRestore(r.key), RestoreJob)
    && forall j, p :: p != OfRestore(r.key) && Session(w, j, p) ==>
         !PvcKeysOverlap(RestorePVCKeys(r), SessionKeys(w, p))
  }

  lemma CreateRestoreTies(w: World, r: PVCRestore, inp: Inputs, lost: bool)
    requires Preempted(w, r, lost) && Restic(r) && WriteRestoring !in inp.faults
    ensures RestoresTied(CreateRestore(w, r, inp))
  {
    var w' := CreateRestore(w, r, inp);
    var n := Key(r.key.ns, RestoreJobName(r.key.name, Sec(w.now)));
    assert |RestoreJobName(r.key.name, Sec(w.now))| > 0;
    forall i, j | Live(w', j, OfRestore(i), RestoreJob)
      ensures RestoreTied(w', i, j)
    {
      if i != r.key {
        assert Live(w, j, OfRestore(i), RestoreJob);
        assert RestoreTied(w, i, j);
      } else {
        assert !Live(w, j, OfRestore(i), RestoreJob);
        assert j == n && n !in w.jobs;
      }
    }
  }

  lemma CreateRestoreExclusive(w: World, w': World, r: PVCRestore, lost: bool)
    requires Preempted(w, r, lost) && OnlyRestore(w, w', r.key) && w'.backups == w.backups
    ensures Exclusive(w') && BackupsTied(w', lost)
  {
    assert forall o :: SessionKeys(w', o) == SessionKeys(w, o);
    assert forall j, o, kind :: Live(w', j, o, kind) ==>
             Live(w, j, o, kind) || (o == OfRestore(r.key) && kind == RestoreJob);
    assert SessionKeys(w, OfRestore(r.key)) == RestorePVCKeys(r);
    forall i, j, o, p | o != p && Session(w', i, o) && Session(w', j, p)
      ensures !PvcKeysOverlap(SessionKeys(w', o), SessionKeys(w', p))
    {
      OverlapSymmetric(SessionKeys(w', o), SessionKeys(w', p));
      if o == OfRestore(r.key) {
        assert Session(w, j, p);
      } else if p == OfRestore(r.key) {
        assert Session(w, i, o);
      } else {
        assert Session(w, i, o) && Session(w, j, p);
      }
    }
    forall i, j | Live(w', j, OfBackup(i), BackupJob)
      ensures BackupTied(w', i, j, lost)
    {
      assert BackupTied(w, i, j, lost);
    }
  }

  lemma PreemptedFrom(w: World, w1: World, r: PVCRestore, lost: bool)
    requires SessionInv(w, lost) && r.key in w.restores && SameRestore(w.restores[r.key], r)
    requires Idle(w, OfRestore(r.key), RestoreJob)
    requires OnlyBackups(w, w1) && JobsShrink(w, w1) && Named(w1) && BackupsTied(w1, lost) && Keyed(w1)
    requires forall j, p :: p != OfRestore(r.key) && Session(w1, j, p) ==>
               !PvcKeysOverlap(RestorePVCKeys(r), SessionKeys(w, p))
    ensures Preempted(w1, r, lost)
  {
    assert forall j, o, kind :: Live(w1, j, o, kind) ==> Live(w, j, o, kind);
    assert forall o :: SessionKeys(w1, o) == SessionKeys(w, o);
    assert SessionsShrink(w, w1);
    ExclusiveShrinks(w, w1);
    forall i, j | Live(w1, j, OfRestore(i), RestoreJob) ensures RestoreTied(w1, i, j) {
      assert RestoreTied(w, i, j);
    }
  }

  lemma PreemptionDone(w: World, r: PVCRestore, inp: Inputs, lost: bool)
    requires SessionInv(w, lost) && Lists(w, inp) && r.key in w.restores && r == w.restores[r.key]
    requires Idle(w, OfRestore(r.key), RestoreJob)
    requires RestoreHolders(w, inp.restoreList, RestorePVCKeys(r), OfRestore(r.key)) == []
    ensures Preempted(Preempt(w, r, inp), r, lost)
  {
    var holders := BackupHolders(w, inp.backupList, RestorePVCKeys(r), OfRestore(r.key));
    var w1 := InterruptAll(w, holders, inp);
    InterruptAllTies(w, holders, inp, lost);
    forall j, p | p != OfRestore(r.key) && Session(w1, j, p)
      ensures !PvcKeysOverlap(RestorePVCKeys(r), SessionKeys(w, p))
    {
      PreemptedIsFree(w, r, inp, j, p, lost);
    }
    PreemptedFrom(w, w1, r, lost);
  }

  /** Steps of a restore that create no Job. */
  lemma RestoreWithoutJob(w: World, w': World, k: Key, lost: bool)
    requires SessionInv(w, lost) && Inv(w') && OnlyRestore(w, w', k) && w'.jobs == w.jobs && w'.backups == w.backups
    requires w'.restores[k] == w.restores[k] || Idle(w, OfRestore(k), RestoreJob)
    ensures SessionInv(w', lost)
  {
    assert forall j, o, kind :: Live(w', j, o, kind) <==> Live(w, j, o, kind);
    assert forall o :: SessionKeys(w', o) == SessionKeys(w, o);
    ExclusiveShrinks(w, w');
    forall i, j | Live(w', j, OfRestore(i), RestoreJob) ensures RestoreTied(w', i, j) {
      assert Live(w, j, OfRestore(i), RestoreJob);
      assert RestoreTied(w, i, j);
    }
    forall i, j | Live(w', j, OfBackup(i), BackupJob) ensures BackupTied(w', i, j, lost) {
      assert Live(w, j, OfBackup(i), BackupJob);
      assert BackupTied(w, i, j, lost);
    }
  }

  lemma PollRestoreSessions(w: World, k: Key, inp: Inputs, lost: bool)
    requires SessionInv(w, lost) && k in w.restores && Inv(PollRestore(w, w.restores[k], inp))
    ensures SessionInv(PollRestore(w, w.restores[k], inp), lost)
  {
    var r, w' := w.restores[k], PollRestore(w, w.restores[k], inp);
    if j :| Live(w, j, OfRestore(k), RestoreJob) {
      assert RestoreTied(w, k, j);
      assert w' == w;
    }
    RestoreWithoutJob(w, w', k, lost);
  }

  lemma StartRestoreSessions(w: World, k: Key, inp: Inputs, lost: bool)
    requires SessionInv(w, lost) && Lists(w, inp) && k in w.restores && WriteRestoring !in inp.faults
    requires !(w.restores[k].phase.Restoring? && w.restores[k].lastJobName != "") && Restic(w.restores[k])
    requires Inv(StartRestore(w, w.restores[k], inp))
    ensures SessionInv(StartRestore(w, w.restores[k], inp), lost)
  {
    var r, w' := w.restores[k], StartRestore(w, w.restores[k], inp);
    assert forall j :: Live(w, j, OfRestore(k), RestoreJob) ==> RestoreTied(w, k, j);
    if GetRepo in inp.faults || RestoreHolders(w, inp.restoreList, RestorePVCKeys(r), OfRestore(k)) != [] {
      RestoreWithoutJob(w, w', k, lost);
    } else {
      PreemptionDone(w, r, inp, lost);
      PreemptedSessions(w, Preempt(w, r, inp), w', r, inp, lost);
    }
  }

  lemma PreemptedSessions(w: World, w1: World, w': World, r: PVCRestore, inp: Inputs, lost: bool)
    requires SessionInv(w, lost) && OnlyBackups(w, w1) && JobsShrink(w, w1) && Preempted(w1, r, lost)
    requires Restic(r) && WriteRestoring !in inp.faults && w' == CreateRestore(w1, r, inp) && Inv(w')
    ensures SessionInv(w', lost)
  {
    CreateRestoreTies(w1, r, inp, lost);
    CreateRestoreExclusive(w1, w', r, lost);
    RunsStayReady(w, w1, w', r.key);
  }

  lemma RunsStayReady(w: World, w1: World, w': World, r: Key)
    requires RunsReady(w) && OnlyBackups(w, w1) && JobsShrink(w, w1) && OnlyRestore(w1, w', r)
    ensures RunsReady(w')
  {
    assert forall j, k :: Live(w', j, OfBackup(k), BackupJob) ==> Live(w, j, OfBackup(k), BackupJob);
  }

  lemma RestoreSessions(w: World, k: Key, inp: Inputs, lost: bool)
    requires SessionInv(w, lost) && Enabled(w, RestoreStep(k, inp)) && WriteRestoring !in inp.faults
    requires Inv(RestoreReconcile(w, k, inp))
    ensures SessionInv(RestoreReconcile(w, k, inp), lost)
  {
    var r := w.restores[k];
    if r.phase.Restoring? && r.lastJobName != "" {
      PollRestoreSessions(w, k, inp, lost);
    } else if !r.phase.Succeeded? && !r.phase.Failed? {
      StartedRestoreSessions(w, k, inp, lost);
    }
  }

  lemma StartedRestoreSessions(w: World, k: Key, inp: Inputs, lost: bool)
    requires SessionInv(w, lost) && Enabled(w, RestoreStep(k, inp)) && WriteRestoring !in inp.faults
    requires Inv(RestoreReconcile(w, k, inp))
    requires var r := w.restores[k];
             !(r.phase.Restoring? && r.lastJobName != "") && !r.phase.Succeeded? && !r.phase.Failed?
    ensures SessionInv(RestoreReconcile(w, k, inp), lost)
  {
    var r := w.restores[k];
    if r.mode.FromVolumeSnapshot? || r.mode.OtherMode? {
      assert forall j :: Live(w, j, OfRestore(k), RestoreJob) ==> RestoreTied(w, k, j);
      RestoreWithoutJob(w, RestoreReconcile(w, k, inp), k, lost);
    } else {
      StartRestoreSessions(w, k, inp, lost);
    }
  }

  // ---------------------------------------------------------------------
  // Every run

  ghost predicate SameBackup(b: PVCBackup, b': PVCBackup) {
    SameIdentity(b, b') && b'.status == b.status
  }

  /** The objects of w are still there with the same spec and status, and no run is new. */
  ghost predicate ObjectsKept(w: World, w': World) {
    && (forall k :: k in w.backups ==> k in w'.backups && SameBackup(w.backups[k], w'.backups[k]))
    && (forall k :: k in w.restores ==> k in w'.restores && w'.restores[k] == w.restores[k])
    && (forall k :: k in w'.runs ==> k in w.runs)
  }

  lemma ExternalKeepsObjects(w: World, s: Step)
    requires Enabled(w, s) && External(s)
    ensures ObjectsKept(w, Apply(w, s))
  {
  }

  lemma KeptSessions(w: World, w': World, lost: bool)
    requires SessionInv(w, lost) && Inv(w') && ObjectsKept(w, w')
    requires forall j :: j in w'.jobs ==> j in w.jobs && Later(w.jobs[j], w'.jobs[j])
    ensures SessionInv(w', lost)
  {
    assert forall j, o, kind :: Live(w', j, o, kind) ==> Live(w, j, o, kind);
    forall i, j | Live(w', j, OfBackup(i), BackupJob) ensures BackupTied(w', i, j, lost) {
      assert Live(w, j, OfBackup(i), BackupJob);
      assert BackupTied(w, i, j, lost);
    }
    forall i, j | Live(w', j, OfRestore(i), RestoreJob) ensures RestoreTied(w', i, j) {
      assert Live(w, j, OfRestore(i), RestoreJob);
      assert RestoreTied(w, i, j);
    }
    forall j, o | Session(w', j, o) ensures Session(w, j, o) && SessionKeys(w', o) == SessionKeys(w, o) {
      match o
      case OfBackup(k) => assert BackupTied(w, k, j, lost);
      case OfRestore(k) => assert RestoreTied(w, k, j);
    }
    ExclusiveShrinks(w, w');
    assert RunsReady(w');
  }

  lemma ExternalSessions(w: World, s: Step, lost: bool)
    requires SessionInv(w, lost) && Enabled(w, s) && External(s) && Inv(Apply(w, s))
    ensures SessionInv(Apply(w, s), lost)
  {
    ExternalAges(w, s);
    ExternalKeepsObjects(w, s);
    KeptSessions(w, Apply(w, s), lost);
  }

  lemma ReconcileStepSessions(w: World, k: Key, inp: Inputs, lost: bool)
    requires SessionInv(w, lost) && Enabled(w, ReconcileStep(k, inp)) && Guarded(w, ReconcileStep(k, inp), lost)
    requires Inv(Reconcile(w, k, inp))
    ensures SessionInv(Reconcile(w, k, inp), lost)
  {
    var w' := Reconcile(w, k, inp);
    forall j | Live(w, j, OfBackup(k), BackupJob)
      ensures w'.runs == w.runs && (Live(w', j, OfBackup(k), BackupJob) ==> BackupTied(w', k, j, lost))
    {
      ReconcileTies(w, k, inp, j, lost);
    }
    if k in w'.runs {
      assert w'.jobs == w.jobs && forall j :: !Live(w, j, OfBackup(k), BackupJob);
    }
    ReconcileSessions(w, w', k, lost);
  }

  lemma LaunchStepSessions(w: World, k: Key, inp: Inputs, lost: bool)
    requires SessionInv(w, lost) && Enabled(w, LaunchStep(k, inp)) && Guarded(w, LaunchStep(k, inp), lost)
    requires Inv(Launch(w, k, inp))
    ensures SessionInv(Launch(w, k, inp), lost)
  {
    var w', n := Launch(w, k, inp), Key(k.ns, LaunchName(w.runs[k]));
    assert Idle(w, OfBackup(k), BackupJob) && (|k.name| <= 46 ==> Idle(w, OfBackup(k), PruneJob));
    if AddsBackup(w, w', k) {
      LaunchTies(w, k, inp, lost);
      OneMoreLive(w, w', n, w'.jobs[n]);
      LaunchWithJob(w, w', k, inp, n, lost);
    } else {
      LaunchWithoutJob(w, w', k, lost);
    }
  }

  lemma StepSessions(w: World, s: Step, lost: bool)
    requires SessionInv(w, lost) && Enabled(w, s) && Guarded(w, s, lost)
    ensures SessionInv(Apply(w, s), lost)
  {
    StepKeeps(w, s);
    if External(s) {
      ExternalSessions(w, s, lost);
    } else {
      match s
      case ReconcileStep(k, inp) => ReconcileStepSessions(w, k, inp, lost);
      case LaunchStep(k, inp) => LaunchStepSessions(w, k, inp, lost);
      case RestoreStep(k, inp) => RestoreSessions(w, k, inp, lost);
    }
  }

  ghost predicate IsGuardedRun(trace: seq<World>, steps: seq<Step>, lost: bool) {
    IsRun(trace, steps) && forall i :: 0 <= i < |steps| ==> Guarded(trace[i], steps[i], lost)
  }

  lemma {:induction false} SessionInvAlways(trace: seq<World>, steps: seq<Step>, n: nat, lost: bool)
    requires IsGuardedRun(trace, steps, lost) && n < |trace|
    ensures SessionInv(trace[n], lost)
  {
    if n > 0 {
      SessionInvAlways(trace, steps, n - 1, lost);
      StepSessions(trace[n - 1], steps[n - 1], lost);
    }
  }

  /** The status writes that follow the creation of a Job get through. */
  ghost predicate WritesLand(w: World, s: Step) {
    match s
    case LaunchStep(k, inp) => k in w.backups && k in w.runs && !Aborts(w, k, inp) && CreateJob !in inp.faults ==> Lands(w, k, inp)
    case RestoreStep(_, inp) => WriteRestoring !in inp.faults
    case _ => true
  }

  /** In no state of any run whose status writes after Job creation get through, over every interleaving of claims,
      launches, restores, polls, cancels, prunes, crashes and other failing calls, do two distinct resources with
      overlapping claims both have an unfinished backup or restore Job. */
  lemma SessionMutualExclusion(trace: seq<World>, steps: seq<Step>, n: nat, i: Key, o: Owner, j: Key, p: Owner)
    requires IsRun(trace, steps) && n < |trace|
    requires forall m :: 0 <= m < |steps| ==> WritesLand(trace[m], steps[m])
    requires Session(trace[n], i, o) && Session(trace[n], j, p)
    requires PvcKeysOverlap(SessionKeys(trace[n], o), SessionKeys(trace[n], p))
    ensures o == p
  {
    forall m | 0 <= m < |steps| ensures Guarded(trace[m], steps[m], false) {
      assert WritesLand(trace[m], steps[m]);
    }
    SessionInvAlways(trace, steps, n, false);
  }

  /** The same where a backup's status write may get lost over the phase of its quiesce or snapshot, as long as no cancel
      comes between and its name has at most 46 characters. */
  lemma ExclusionWithLostWrites(trace: seq<World>, steps: seq<Step>, n: nat, i: Key, o: Owner, j: Key, p: Owner)
    requires IsGuardedRun(trace, steps, true) && n < |trace|
    requires Session(trace[n], i, o) && Session(trace[n], j, p)
    requires PvcKeysOverlap(SessionKeys(trace[n], o), SessionKeys(trace[n], p))
    ensures o == p
  {
    SessionInvAlways(trace, steps, n, true);
  }

  // ---------------------------------------------------------------------
  // Why the status writes after Job creation matter

  /** A launch that creates its Job holds the session afterwards if and only if its status write lands or an active
      phase was stored before. */
  lemma LaunchHoldsIff(w: World, k: Key, inp: Inputs)
    requires Wellformed(w) && k in w.runs && AddsBackup(w, Launch(w, k, inp), k)
    ensures BackupPhaseActive(Launch(w, k, inp).backups[k].status.phase)
            <==> Lands(w, k, inp) || BackupPhaseActive(w.backups[k].status.phase)
  {
    var run, w' := w.runs[k], Launch(w, k, inp);
    assert !Aborts(w, k, inp) && CreateJob !in inp.faults;
    var b := run.b.(status := run.b.status.(phase := Uploading));
    var p := PersistQuiesce(WithJob(w, k), b, run.quiesced, inp.faults);
    var r := WriteStatus(p.w, p.b.(status := p.b.status.(lastJobName := LaunchName(run))), WriteUploading, inp.faults);
    assert r.ok <==> Lands(w, k, inp);
    assert w' == r.w;
  }

  /** The same for a restore that creates its Job. */
  lemma RestoreHoldsIff(w: World, r: PVCRestore, inp: Inputs)
    requires r.key in w.restores && w.restores[r.key] == r && Restic(r) && CreateRestore(w, r, inp).jobs != w.jobs
    ensures RestorePhaseActive(CreateRestore(w, r, inp).restores[r.key].phase)
            <==> WriteRestoring !in inp.faults || RestorePhaseActive(r.phase)
  {
    var j := Key(r.key.ns, RestoreJobName(r.key.name, Sec(w.now)));
    assert j !in w.jobs;
  }
}
