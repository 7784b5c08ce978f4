/** A stored phase Uploading names the Job of the current run: the last backup Job the operator created for the
    backup, launched or adopted, and never an earlier one. */
module Uploading {
  import opened Text
  import opened Types
  import opened Workloads
  import opened JobNames
  import opened Protocol
  import opened OneJob
  import opened Exclusion
  import opened Isolation

  // ---------------------------------------------------------------------
  // How the stored phase of a backup can become Uploading

  lemma FailStatus(w: World, b: PVCBackup, inp: Inputs)
    requires Known(w, b)
    ensures var s' := Fail(w, b, inp).w.backups[b.key].status; s' == w.backups[b.key].status || s'.phase.Failed?
  {
  }

  lemma PollBackupStatus(w: World, b: PVCBackup, inp: Inputs)
    requires Known(w, b)
    ensures var s' := PollBackup(w, b, inp).backups[b.key].status;
            s' == w.backups[b.key].status || s'.phase.Failed? || s'.phase == IdlePhase(b.spec)
  {
    FailStatus(w, b, inp);
  }

  lemma PruneStatus(w: World, b: PVCBackup, inp: Inputs)
    requires Known(w, b)
    ensures var s' := PollPrune(w, b, inp).backups[b.key].status; s' == w.backups[b.key].status || !s'.phase.Uploading?
    ensures var s' := FailPrune(w, b, inp).backups[b.key].status; s' == w.backups[b.key].status || !s'.phase.Uploading?
  {
  }

  lemma CancelStatus(w: World, b: PVCBackup, inp: Inputs)
    requires Known(w, b) && b.status == w.backups[b.key].status
    ensures var s' := Cancel(w, b, inp).backups[b.key].status;
            s'.phase.Uploading? ==> b.status.phase.Uploading? && s'.lastJobName == b.status.lastJobName
  {
    var b1 := b.(status := b.status.(lastForceCancel := b.meta.forceCancel));
    var w1 := DeleteJob(w, b.key.ns, b.status.lastJobName);
    if CancelPhaseBusy(b.status.phase) && !b.status.phase.Pruning? {
      FailStatus(w1, b1, inp);
    }
  }

  lemma StartPruneStatus(w: World, b: PVCBackup, inp: Inputs)
    requires Known(w, b) && b.status == w.backups[b.key].status && !b.status.phase.Uploading?
    ensures !StartPrune(w, b, inp).backups[b.key].status.phase.Uploading?
  {
    var claimed := b.(status := b.status.(lastForcePrune := b.meta.forcePrune));
    if b.spec.keepLast.None? || b.spec.keepLast.value <= 0 {
      var r := WriteStatus(w, claimed, WritePruneToken, inp.faults);
      PruneStatus(r.w, r.b, inp);
    } else {
      var r := WriteStatus(w, claimed.(status := claimed.status.(phase := Pruning)), WritePruning, inp.faults);
      PruneStatus(r.w, r.b, inp);
      StartedPruneStatus(r.w, r.b, inp);
    }
  }

  /** The part of a prune start after its phase is stored. */
  lemma StartedPruneStatus(w: World, b: PVCBackup, inp: Inputs)
    requires Known(w, b) && !w.backups[b.key].status.phase.Uploading? && !b.status.phase.Uploading?
    ensures !StartedPrune(w, b, inp).backups[b.key].status.phase.Uploading?
  {
    var name := PruneJobName(b.key.name, Sec(w.now));
    var job := Job(OfBackup(b.key), PruneJob, Sec(w.now), Sec(w.now), 0, 0, []);
    var w1 := w.(jobs := CreateJobIfAbsent(w.jobs, Key(b.key.ns, name), job));
    var s := WriteStatus(w1, b.(status := b.status.(lastJobName := name)), WritePruneJob, inp.faults);
    PruneStatus(s.w, s.b, inp);
  }

  lemma {:induction false} SnapshotStatus(w: World, b: PVCBackup, steps: seq<string>, inp: Inputs)
    requires Known(w, b)
    ensures var s' := SnapshotSteps(w, b, steps, inp).m.w.backups[b.key].status;
            s' == w.backups[b.key].status || s'.phase.Snapshotting?
  {
    if steps != [] {
      SnapshotStatus(w, b, steps[..|steps| - 1], inp);
    }
  }

  lemma ClaimStatus(w: World, b: PVCBackup, inp: Inputs)
    requires Known(w, b) && b.status == w.backups[b.key].status && !b.status.phase.Uploading?
    ensures !Claim(w, b, inp).backups[b.key].status.phase.Uploading?
  {
    var forced := ForceRunPending(b);
    if !forced {
      PrepareStatus(w, b, false, inp);
    } else {
      var r := WriteStatus(w, b.(status := b.status.(lastForceRun := b.meta.forceRun)), WriteToken, inp.faults);
      if r.ok {
        PrepareStatus(r.w, r.b, true, inp);
      }
    }
  }

  lemma PrepareStatus(w: World, b: PVCBackup, forced: bool, inp: Inputs)
    requires Known(w, b) && b.status == w.backups[b.key].status && !b.status.phase.Uploading?
    ensures !Prepare(w, b, forced, inp).backups[b.key].status.phase.Uploading?
  {
    if GetRepo in inp.faults || EnsureSecrets in inp.faults {
      FailStatus(w, b, inp);
    } else if NeedQuiesce(b.spec) {
      var r := WriteStatus(w, b.(status := b.status.(phase := Quiescing)), WriteQuiescing, inp.faults);
      var q := Quiesce(r.w.scene, b.spec.targets, b.key.ns, inp.scaleFaults);
      AfterQuiesceStatus(r.w.(scene := q.scene), r.b, q, forced, inp);
    } else {
      SnapshotPhase(w, b, map[], forced, inp);
    }
  }

  lemma AfterQuiesceStatus(w: World, b: PVCBackup, q: Quiet, forced: bool, inp: Inputs)
    requires Known(w, b) && !w.backups[b.key].status.phase.Uploading?
    ensures !AfterQuiesce(w, b, q, forced, inp).backups[b.key].status.phase.Uploading?
  {
    FailStatus(w, b, inp);
    SnapshotPhase(w, b, q.state, forced, inp);
  }

  lemma SnapshotPhase(w: World, b: PVCBackup, state: map<string, int>, forced: bool, inp: Inputs)
    requires Known(w, b) && !w.backups[b.key].status.phase.Uploading?
    ensures !Snapshot(w, b, state, forced, inp).backups[b.key].status.phase.Uploading?
  {
    SnapshotStatus(w, b, Pipeline(b.spec), inp);
    var s := SnapshotSteps(w, b, Pipeline(b.spec), inp);
    FailStatus(s.m.w, s.m.b, inp);
  }

  /** A reconcile stores Uploading only by keeping it, or by adopting the Job its backup scan found after its prune
      scan found none. */
  lemma ReconcileStatus(w: World, k: Key, inp: Inputs)
    requires k in w.backups && w.backups[k].key == k
    requires w.backups[k].status.phase.Uploading? ==> w.backups[k].status.lastJobName != ""
    ensures var s, s' := w.backups[k].status, Reconcile(w, k, inp).backups[k].status;
            s'.phase.Uploading? ==>
              (s.phase.Uploading? && s'.lastJobName == s.lastJobName) ||
              (FindPruneJob(w, k, inp).None? && FindBackupJob(w, k, inp).Some? &&
               s'.lastJobName == FindBackupJob(w, k, inp).value.name)
  {
    var b, w' := w.backups[k], Reconcile(w, k, inp);
    if PvcList(b.spec) == [] {
      FailStatus(w, b, inp);
    } else if ForceCancelPending(b) {
      CancelStatus(w, b, inp);
    } else if b.status.phase.Uploading? {
      PollBackupStatus(w, b, inp);
    } else if FindPruneJob(w, k, inp).None? && FindBackupJob(w, k, inp).Some? && w' == AdoptBackup(w, b, FindBackupJob(w, k, inp).value, inp) {
      AdoptBackupStatus(w, b, FindBackupJob(w, k, inp).value, inp);
    } else {
      OtherBranchStatus(w, k, inp);
    }
  }

  lemma OtherBranchStatus(w: World, k: Key, inp: Inputs)
    requires k in w.backups && w.backups[k].key == k && PvcList(w.backups[k].spec) != []
    requires !w.backups[k].status.phase.Uploading? && !ForceCancelPending(w.backups[k])
    ensures !Reconcile(w, k, inp).backups[k].status.phase.Uploading? ||
            (FindPruneJob(w, k, inp).None? && FindBackupJob(w, k, inp).Some? &&
             Reconcile(w, k, inp) == AdoptBackup(w, w.backups[k], FindBackupJob(w, k, inp).value, inp))
  {
    var b := w.backups[k];
    if b.status.phase.Pruning? && b.status.lastJobName != "" {
      PruneStatus(w, b, inp);
    } else if ForcePrunePending(b) {
      StartPruneStatus(w, b, inp);
    } else if FindPruneJob(w, k, inp).Some? {
      AdoptPruneStatus(w, b, FindPruneJob(w, k, inp).value, inp);
    } else {
      RunBranchStatus(w, k, inp);
    }
  }

  lemma RunBranchStatus(w: World, k: Key, inp: Inputs)
    requires k in w.backups && w.backups[k].key == k && PvcList(w.backups[k].spec) != []
    requires !w.backups[k].status.phase.Uploading? && !ForceCancelPending(w.backups[k]) && !DealsWithPrune(w, k, inp)
    requires FindPruneJob(w, k, inp).None?
    ensures !Reconcile(w, k, inp).backups[k].status.phase.Uploading? ||
            (FindBackupJob(w, k, inp).Some? &&
             Reconcile(w, k, inp) == AdoptBackup(w, w.backups[k], FindBackupJob(w, k, inp).value, inp))
  {
    var b := w.backups[k];
    RunBranches(w, k, inp);
    if FindBackupJob(w, k, inp).None? {
      if Starts(w, b) {
        ClaimStatus(w, b, inp);
      } else {
        FailStatus(w, b, inp);
      }
    }
  }

  lemma AdoptPruneStatus(w: World, b: PVCBackup, job: Key, inp: Inputs)
    requires Known(w, b) && b.status == w.backups[b.key].status && !b.status.phase.Uploading?
    ensures !AdoptPrune(w, b, job, inp).backups[b.key].status.phase.Uploading?
  {
    var r := WriteStatus(w, b.(status := b.status.(phase := Pruning, lastJobName := job.name)), WriteAdopted, inp.faults);
    PruneStatus(r.w, r.b, inp);
  }

  lemma AdoptBackupStatus(w: World, b: PVCBackup, job: Key, inp: Inputs)
    requires Known(w, b) && b.status == w.backups[b.key].status && !b.status.phase.Uploading?
    ensures var s' := AdoptBackup(w, b, job, inp).backups[b.key].status;
            s'.phase.Uploading? ==> s'.lastJobName == job.name
  {
    var r := WriteStatus(w, b.(status := b.status.(phase := Uploading, lastJobName := job.name)), WriteAdopted, inp.faults);
    PollBackupStatus(r.w, r.b, inp);
  }

  /** A launch stores Uploading only for the Job name it printed. */
  lemma LaunchStatus(w: World, k: Key, inp: Inputs)
    requires Wellformed(w) && k in w.runs
    ensures var s, s' := w.backups[k].status, Launch(w, k, inp).backups[k].status;
            s'.phase.Uploading? ==>
              s' == s || (s'.lastJobName == LaunchName(w.runs[k]) && !Aborts(w, k, inp) && CreateJob !in inp.faults)
  {
    var run := w.runs[k];
    if !Aborts(w, k, inp) {
      var b := run.b.(status := run.b.status.(phase := Uploading));
      if CreateJob in inp.faults {
        FailStatus(Close(w, k), b, inp);
      } else {
        UploadStatus(WithJob(w, k), b, run.quiesced, LaunchName(run), inp);
      }
    }
  }

  lemma UploadStatus(w: World, b: PVCBackup, state: map<string, int>, name: string, inp: Inputs)
    requires Known(w, b)
    ensures var s' := Upload(w, b, state, name, inp).backups[b.key].status;
            s'.phase.Uploading? ==> s' == w.backups[b.key].status || s'.lastJobName == name
  {
    var p := PersistQuiesce(w, b, state, inp.faults);
    var r := WriteStatus(p.w, p.b.(status := p.b.status.(lastJobName := name)), WriteUploading, inp.faults);
    PollBackupStatus(r.w, r.b, inp);
  }

  // ---------------------------------------------------------------------
  // Job names are fresh

  /** The Job names of k are not those of another backup of its namespace. */
  ghost predicate NamesApart(w: World, k: Key) {
    forall i :: i in w.backups && i.ns == k.ns && i != k ==> KeepsApart(k.name, i.name)
  }

  ghost predicate JobOf(w: World, j: Key, k: Key) {
    j in w.jobs && w.jobs[j].owner == OfBackup(k) && w.jobs[j].kind.BackupJob?
  }

  /** Stamps have ten digits, Jobs belong to stored backups, and an open run of k started after every backup Job
      that k still has. */
  ghost predicate Stamped(w: World, k: Key) {
    && (forall j :: j in w.jobs ==> TenDigits(w.jobs[j].stamp))
    && (forall j :: j in w.jobs && w.jobs[j].owner.OfBackup? ==> w.jobs[j].owner.key in w.backups)
    && (forall i :: i in w.runs ==> TenDigits(w.runs[i].started))
    && (k in w.runs ==> forall j :: JobOf(w, j, k) ==> w.jobs[j].stamp < w.runs[k].started)
  }

  /** What the result needs of the environment: a clock of ten digits, at least a second between the starts of two runs
      of k that get as far as their Job, and names that keep apart from k's. */
  ghost predicate Timed(w: World, s: Step, k: Key)
    requires Enabled(w, s)
  {
    && TenDigits(Sec(w.now))
    && match s
       case ReconcileStep(i, _) =>
         i == k && k in Apply(w, s).runs ==> forall j :: JobOf(w, j, k) ==> w.jobs[j].stamp < Sec(w.now)
       case NewBackup(_) => NamesApart(Apply(w, s), k)
       case _ => true
  }

  /** The name a launch prints is not taken. */
  lemma LaunchNameIsFree(w: World, k: Key)
    requires Named(w) && Stamped(w, k) && NamesApart(w, k) && k in w.runs && k in w.backups && w.runs[k].b.key == k && |k.name| <= 42
    ensures Key(k.ns, LaunchName(w.runs[k])) !in w.jobs
  {
    var j := Key(k.ns, LaunchName(w.runs[k]));
    if j in w.jobs {
      var job := w.jobs[j];
      assert JobNamed(j, job, w.now) && TenDigits(job.stamp);
      match job.owner
      case OfBackup(o) =>
        assert o in w.backups && o.ns == k.ns;
        OwnNamesApart(k.name);
        NamesKeepApart(k.name, o.name, w.runs[k].started, job.stamp);
        assert o == k && JobOf(w, j, k);
      case OfRestore(o) =>
        RestoreNameIsNoBackup(k.name, o.name, w.runs[k].started, job.stamp);
    }
  }

  lemma OwnNamesApart(name: string)
    requires |name| <= 42
    ensures KeepsApart(name, name)
  {
    assert |PRUNE + name| > |name|;
  }

  lemma RestoreNameIsNoBackup(a: string, b: string, t1: nat, t2: nat)
    ensures BackupJobName(a, t1) != RestoreJobName(b, t2)
  {
    assert BackupJobName(a, t1)[3] == 'b';
    assert RestoreJobName(b, t2)[3] == 'r';
  }

  lemma ReconcileStamped(w: World, w': World, i: Key, k: Key)
    requires Stamped(w, k) && TenDigits(Sec(w.now)) && i in w.backups && i !in w.runs
    requires OnlyOwner(w, w', i) && (JobsShrink(w, w') || AddsPrune(w, w', i)) && (w'.runs == w.runs || OpensRun(w, w', i))
    requires i == k && k in w'.runs ==> forall j :: JobOf(w, j, k) ==> w.jobs[j].stamp < Sec(w.now)
    ensures Stamped(w', k)
  {
    assert forall j :: JobOf(w', j, k) ==> JobOf(w, j, k) && w'.jobs[j] == w.jobs[j];
    if i != k && k in w'.runs { assert k in w.runs; }
  }

  lemma LaunchStamped(w: World, w': World, i: Key, k: Key)
    requires Stamped(w, k) && i in w.runs && LaunchShape(w, w', i)
    ensures Stamped(w', k)
  {
    if k in w'.runs {
      assert k != i;
      assert forall j :: JobOf(w', j, k) ==> JobOf(w, j, k) && w'.jobs[j] == w.jobs[j];
    }
  }

  lemma RestoreStamped(w: World, w': World, r: Key, k: Key)
    requires Stamped(w, k) && OnlyRestore(w, w', r) && TenDigits(Sec(w.now))
    ensures Stamped(w', k)
  {
    assert forall j, i :: JobOf(w', j, i) ==> JobOf(w, j, i) && w'.jobs[j] == w.jobs[j];
  }

  lemma ExternalStamped(w: World, s: Step, k: Key)
    requires Wellformed(w) && Stamped(w, k) && Enabled(w, s) && External(s)
    ensures Stamped(Apply(w, s), k)
  {
    var w' := Apply(w, s);
    ExternalAges(w, s);
    ExternalWellformed(w, s);
    ExternalBackups(w, s);
    assert forall j, i :: JobOf(w', j, i) ==> JobOf(w, j, i) && w'.jobs[j].stamp == w.jobs[j].stamp;
  }

  lemma ExternalBackups(w: World, s: Step)
    requires Enabled(w, s) && External(s)
    ensures var w' := Apply(w, s);
            (forall k :: k in w.backups ==> k in w'.backups && SameBackup(w.backups[k], w'.backups[k])) &&
            (forall k :: k in w'.backups && k !in w.backups ==> FreshBackup(w'.backups[k]))
  {
  }

  lemma StepApart(w: World, s: Step, k: Key)
    requires NamesApart(w, k) && Enabled(w, s) && Timed(w, s, k)
    ensures NamesApart(Apply(w, s), k)
  {
    if !s.NewBackup? {
      assert Apply(w, s).backups.Keys == w.backups.Keys;
    }
  }

  lemma StepStamped(w: World, s: Step, k: Key)
    requires Inv(w) && Stamped(w, k) && Enabled(w, s) && Timed(w, s, k)
    ensures Stamped(Apply(w, s), k)
  {
    if External(s) {
      ExternalStamped(w, s, k);
    } else {
      match s
      case ReconcileStep(i, inp) => ReconcileStamped(w, Apply(w, s), i, k);
      case LaunchStep(i, inp) => LaunchStamped(w, Apply(w, s), i, k);
      case RestoreStep(r, inp) => RestoreStamped(w, Apply(w, s), r, k);
    }
  }

  // ---------------------------------------------------------------------
  // The latest Job of a backup

  /** `latest` is the name of the backup Job last created for k: any unfinished one carries it, and so does
      a stored Uploading status. */
  ghost predicate NamesRun(w: World, k: Key, latest: Option<string>) {
    && (forall j :: Live(w, j, OfBackup(k), BackupJob) ==> latest == Some(j.name))
    && (k in w.backups && w.backups[k].status.phase.Uploading? ==>
          w.backups[k].status.lastJobName != "" && latest == Some(w.backups[k].status.lastJobName))
    && (k in w.backups && k in w.runs ==> !w.backups[k].status.phase.Uploading?)
  }

  /** The Job name a step creates for k, if it creates a backup Job, else the one before. */
  ghost function After(w: World, s: Step, k: Key, latest: Option<string>): Option<string>
    requires Enabled(w, s)
  {
    if s.LaunchStep? && s.k == k && AddsBackup(w, Apply(w, s), k) then Some(LaunchName(w.runs[k])) else latest
  }

  lemma NamesRunKept(w: World, w': World, k: Key, latest: Option<string>)
    requires NamesRun(w, k, latest)
    requires forall j :: Live(w', j, OfBackup(k), BackupJob) ==> Live(w, j, OfBackup(k), BackupJob)
    requires k in w'.backups && w'.backups[k].status.phase.Uploading? ==>
               k in w.backups && w.backups[k].status.phase.Uploading? &&
               w'.backups[k].status.lastJobName == w.backups[k].status.lastJobName
    requires k in w'.runs ==> k in w.runs && k in w.backups
    ensures NamesRun(w', k, latest)
  {
  }

  lemma ReconcileNamesRun(w: World, k: Key, inp: Inputs, latest: Option<string>)
    requires Inv(w) && |k.name| <= 42 && NamesRun(w, k, latest) && Enabled(w, ReconcileStep(k, inp))
    ensures NamesRun(Reconcile(w, k, inp), k, latest)
  {
    var w' := Reconcile(w, k, inp);
    ReconcileStatus(w, k, inp);
    assert forall j :: Live(w', j, OfBackup(k), BackupJob) ==> Live(w, j, OfBackup(k), BackupJob);
    OpensNotUploading(w, k, inp);
    var s' := w'.backups[k].status;
    if s'.phase.Uploading? && FindPruneJob(w, k, inp).None? && FindBackupJob(w, k, inp).Some?
       && s'.lastJobName == FindBackupJob(w, k, inp).value.name {
      AdoptedIsLatest(w, k, inp, latest);
    }
  }

  lemma OpensNotUploading(w: World, k: Key, inp: Inputs)
    requires k in w.backups && w.backups[k].key == k && k !in w.runs
    requires w.backups[k].status.phase.Uploading? ==> w.backups[k].status.lastJobName != ""
    ensures k in Reconcile(w, k, inp).runs ==> !Reconcile(w, k, inp).backups[k].status.phase.Uploading?
  {
    ReconcileStatus(w, k, inp);
    if w.backups[k].status.phase.Uploading? {
      assert Reconcile(w, k, inp).runs == w.runs;
    }
  }

  lemma AdoptedIsLatest(w: World, k: Key, inp: Inputs, latest: Option<string>)
    requires Inv(w) && |k.name| <= 42 && NamesRun(w, k, latest) && Lists(w, inp)
    requires FindPruneJob(w, k, inp).None? && FindBackupJob(w, k, inp).Some?
    ensures latest == Some(FindBackupJob(w, k, inp).value.name) && latest.value != ""
  {
    AdoptionClassifies(w, k, inp);
    var j := FindBackupJob(w, k, inp).value;
    assert |BackupPrefix(k.name)| > 0 && HasPrefix(j.name, BackupPrefix(k.name));
  }

  lemma LaunchNamesRun(w: World, k: Key, inp: Inputs, latest: Option<string>)
    requires Inv(w) && Stamped(w, k) && NamesApart(w, k) && |k.name| <= 42 && NamesRun(w, k, latest) && Enabled(w, LaunchStep(k, inp))
    ensures NamesRun(Launch(w, k, inp), k, After(w, LaunchStep(k, inp), k, latest))
  {
    LaunchStatus(w, k, inp);
    LaunchNameIsFree(w, k);
    LaunchCreates(w, k, inp);
    LaunchNameNonempty(w.runs[k]);
    LaunchLive(w, Launch(w, k, inp), k);
    LaunchedNames(w, Launch(w, k, inp), k, LaunchName(w.runs[k]), AddsBackup(w, Launch(w, k, inp), k), latest);
  }

  lemma LaunchNameNonempty(run: Run)
    ensures LaunchName(run) != ""
  {
    assert |BackupPrefix(run.b.key.name)| > 0;
  }

  lemma LaunchedNames(w: World, w': World, k: Key, name: string, added: bool, latest: Option<string>)
    requires NamesRun(w, k, latest) && k in w.backups && k in w'.backups && name != "" && k in w.runs && k !in w'.runs
    requires forall j :: Live(w', j, OfBackup(k), BackupJob) ==> added && j == Key(k.ns, name)
    requires var s, s' := w.backups[k].status, w'.backups[k].status;
             s'.phase.Uploading? ==> s' == s || (s'.lastJobName == name && added)
    ensures NamesRun(w', k, if added then Some(name) else latest)
  {
  }

  /** Past its checks, with the Job API up and its name free, a launch creates its Job. */
  lemma LaunchCreates(w: World, k: Key, inp: Inputs)
    requires Wellformed(w) && k in w.runs && Key(k.ns, LaunchName(w.runs[k])) !in w.jobs
    ensures AddsBackup(w, Launch(w, k, inp), k) <==> !Aborts(w, k, inp) && CreateJob !in inp.faults
  {
    if Aborts(w, k, inp) || CreateJob in inp.faults {
      assert Launch(w, k, inp).jobs == w.jobs;
    }
  }

  lemma LaunchLive(w: World, w': World, k: Key)
    requires Inv(w) && k in w.runs && LaunchShape(w, w', k) && |k.name| <= 42
    ensures forall j :: Live(w', j, OfBackup(k), BackupJob) ==>
              AddsBackup(w, w', k) && j == Key(k.ns, LaunchName(w.runs[k]))
  {
    assert Idle(w, OfBackup(k), BackupJob);
    assert forall j :: Live(w', j, OfBackup(k), BackupJob) ==> !Live(w, j, OfBackup(k), BackupJob);
  }

  lemma {:induction false} InterruptAllStatus(w: World, holders: seq<Key>, inp: Inputs, k: Key)
    requires Keyed(w) && (forall h :: h in holders ==> h in w.backups) && k in w.backups
    ensures var s' := InterruptAll(w, holders, inp).backups[k].status; s' == w.backups[k].status || s'.phase.Failed?
  {
    if holders != [] {
      var front, h := holders[..|holders| - 1], holders[|holders| - 1];
      InterruptAllStatus(w, front, inp, k);
      var init := InterruptAll(w, front, inp);
      FailStatus(StopJobs(init, h, inp), init.backups[h], inp);
    }
  }

  /** A restore leaves the status of a backup alone or marks it Failed. */
  lemma RestoreStatus(w: World, w': World, r: Key, inp: Inputs, k: Key)
    requires r in w.restores && Keyed(w) && k in w.backups && k in w'.backups && Preempts(w, w', r, inp)
    ensures w'.backups[k].status == w.backups[k].status || w'.backups[k].status.phase.Failed?
  {
    InterruptAllStatus(w, BackupHolders(w, inp.backupList, RestorePVCKeys(w.restores[r]), OfRestore(w.restores[r].key)), inp, k);
  }

  /** Steps other than k's own reconcile and launch. */
  lemma OtherNamesRun(w: World, s: Step, k: Key, latest: Option<string>)
    requires Inv(w) && Stamped(w, k) && NamesRun(w, k, latest) && Enabled(w, s)
    requires s.ReconcileStep? || s.LaunchStep? ==> s.k != k
    ensures NamesRun(Apply(w, s), k, latest)
  {
    if External(s) {
      ExternalNamesRun(w, s, k, latest);
    } else {
      InternalNamesRun(w, s, k, latest);
    }
  }

  lemma InternalNamesRun(w: World, s: Step, k: Key, latest: Option<string>)
    requires Inv(w) && NamesRun(w, k, latest) && Enabled(w, s) && !External(s)
    requires s.ReconcileStep? || s.LaunchStep? ==> s.k != k
    ensures NamesRun(Apply(w, s), k, latest)
  {
    if s.RestoreStep? {
      RestoreNamesRun(w, Apply(w, s), s.k, s.inp, k, latest);
    } else {
      OwnerNamesRun(w, Apply(w, s), s.k, k, latest);
    }
  }

  lemma ExternalNamesRun(w: World, s: Step, k: Key, latest: Option<string>)
    requires Inv(w) && NamesRun(w, k, latest) && Enabled(w, s) && External(s)
    ensures NamesRun(Apply(w, s), k, latest)
  {
    ExternalAges(w, s);
    ExternalBackups(w, s);
    AgesLive(w, Apply(w, s));
    NewBackupHasNoRun(w, s, k);
    NamesRunKept(w, Apply(w, s), k, latest);
  }

  lemma NewBackupHasNoRun(w: World, s: Step, k: Key)
    requires Wellformed(w) && Enabled(w, s) && External(s)
    ensures k in Apply(w, s).runs ==> k in w.runs && k in w.backups
  {
  }

  lemma OwnerNamesRun(w: World, w': World, i: Key, k: Key, latest: Option<string>)
    requires Wellformed(w) && NamesRun(w, k, latest) && i != k && OnlyOwner(w, w', i)
    requires forall j :: Live(w', j, OfBackup(k), BackupJob) ==> Live(w, j, OfBackup(k), BackupJob)
    ensures NamesRun(w', k, latest)
  {
    if k in w'.runs {
      assert k in w'.runs - {i};
      assert k in w.runs;
    }
    NamesRunKept(w, w', k, latest);
  }

  lemma RestoreNamesRun(w: World, w': World, r: Key, inp: Inputs, k: Key, latest: Option<string>)
    requires Inv(w) && NamesRun(w, k, latest) && r in w.restores && OnlyRestore(w, w', r) && Preempts(w, w', r, inp)
    ensures NamesRun(w', k, latest)
  {
    if k in w.backups { RestoreStatus(w, w', r, inp, k); }
    NamesRunKept(w, w', k, latest);
  }

  /** The name of the backup Job last created for k in the first n steps of a run. */
  ghost function Latest(trace: seq<World>, steps: seq<Step>, n: nat, k: Key): Option<string>
    requires IsRun(trace, steps) && n < |trace|
  {
    if n == 0 then None else After(trace[n - 1], steps[n - 1], k, Latest(trace, steps, n - 1, k))
  }

  ghost predicate IsTimedRun(trace: seq<World>, steps: seq<Step>, k: Key) {
    IsRun(trace, steps) && NamesApart(trace[0], k) && forall i :: 0 <= i < |steps| ==> Timed(trace[i], steps[i], k)
  }

  lemma StepNamesRun(w: World, s: Step, k: Key, latest: Option<string>)
    requires Inv(w) && Stamped(w, k) && NamesApart(w, k) && Enabled(w, s) && |k.name| <= 42 && NamesRun(w, k, latest)
    ensures NamesRun(Apply(w, s), k, After(w, s, k, latest))
  {
    if s.ReconcileStep? && s.k == k {
      ReconcileNamesRun(w, k, s.inp, latest);
    } else if s.LaunchStep? && s.k == k {
      LaunchNamesRun(w, k, s.inp, latest);
    } else {
      OtherNamesRun(w, s, k, latest);
    }
  }

  lemma {:induction false} NamesRunAlways(trace: seq<World>, steps: seq<Step>, n: nat, k: Key)
    requires IsTimedRun(trace, steps, k) && n < |trace| && |k.name| <= 42
    ensures Inv(trace[n]) && Stamped(trace[n], k) && NamesApart(trace[n], k) && NamesRun(trace[n], k, Latest(trace, steps, n, k))
  {
    if n > 0 {
      NamesRunAlways(trace, steps, n - 1, k);
      StepKeeps(trace[n - 1], steps[n - 1]);
      StepStamped(trace[n - 1], steps[n - 1], k);
      StepApart(trace[n - 1], steps[n - 1], k);
      StepNamesRun(trace[n - 1], steps[n - 1], k, Latest(trace, steps, n - 1, k));
    }
  }

  /** In every state of every run that is timed for k, a status of phase Uploading names the backup Job last created for its
      object, and if that Job is still unfinished it is the only one. */
  lemma UploadingNamesLatestJob(trace: seq<World>, steps: seq<Step>, n: nat, k: Key)
    requires IsTimedRun(trace, steps, k) && n < |trace| && |k.name| <= 42
    requires k in trace[n].backups && trace[n].backups[k].status.phase.Uploading?
    ensures Latest(trace, steps, n, k) == Some(trace[n].backups[k].status.lastJobName)
    ensures forall j :: Live(trace[n], j, OfBackup(k), BackupJob) ==> j.name == trace[n].backups[k].status.lastJobName
  {
    NamesRunAlways(trace, steps, n, k);
  }

  /** Why the names matter: when the printed name is taken by a Job that already succeeded, creation is skipped as
      "already exists", and the run is recorded as a success without any Job of its own. */
  lemma TakenNameReportsSuccess(w: World, k: Key, inp: Inputs)
    requires Wellformed(w) && k in w.runs && !Aborts(w, k, inp) && inp.faults == {} && Lands(w, k, inp)
    requires var j := Key(k.ns, LaunchName(w.runs[k])); j in w.jobs && w.jobs[j].succeeded > 0
    ensures var w' := Launch(w, k, inp);
            w'.jobs == w.jobs && w'.backups[k].status.lastSuccessTime == Some(Sec(w.now)) &&
            w'.backups[k].status.phase == IdlePhase(w.backups[k].spec)
  {
    var run := w.runs[k];
    var b := run.b.(status := run.b.status.(phase := Uploading));
    var p := PersistQuiesce(WithJob(w, k), b, run.quiesced, inp.faults);
    var r := WriteStatus(p.w, p.b.(status := p.b.status.(lastJobName := LaunchName(run))), WriteUploading, inp.faults);
    assert r.ok && Synced(r.w, r.b);
    assert Launch(w, k, inp) == PollBackup(r.w, r.b, inp);
  }
}
