/** Replica conservation over whole runs: between two moments at which a backup has nothing in flight, its
    targets have the same replica counts, and in between the counts are saved in its run or in its annotation. */
module Replicas {
  import opened Text
  import opened Types
  import opened Workloads
  import opened Conservation
  import opened JobNames
  import opened Protocol
  import opened OneJob
  import opened Isolation
  import opened Footprint
  import opened Exclusion
  import opened Uploading
  import opened Preemption

  // ---------------------------------------------------------------------
  // Saved counts

  /** A backup that quiesces distinct existing-kind targets and wants them back. */
  ghost predicate Plain(b: PVCBackup) {
    && !b.spec.leaveDown && NeedQuiesce(b.spec) && b.spec.targets != []
    && AllScalable(b.spec.targets, b.key.ns)
    && forall v :: v in Ws(b) ==> multiset(Ws(b))[v] == 1
  }

  function Ws(b: PVCBackup): seq<Workload>
    requires AllScalable(b.spec.targets, b.key.ns)
  {
    WorkloadsOf(b.spec.targets, b.key.ns)
  }

  /** Every one of ws has its count in base. */
  ghost predicate At(s: Scene, ws: seq<Workload>, base: map<Workload, int>) {
    forall v :: v in ws ==> v in s.replicas && v in base && s.replicas[v] == base[v]
  }

  /** The recorded state is exactly the counts of ws in base. */
  ghost predicate Saves(state: map<string, int>, ws: seq<Workload>, base: map<Workload, int>) {
    && (forall key :: key in state.Keys <==> exists v :: v in ws && KeyOf(v) == key)
    && forall v :: v in ws ==> v in base && KeyOf(v) in state && state[KeyOf(v)] == base[v]
  }

  lemma PlainWorkloads(b: PVCBackup)
    requires Plain(b)
    ensures Ws(b) != [] && forall v :: v in Ws(b) ==> '/' !in v.ns
  {
    forall v | v in Ws(b) ensures '/' !in v.ns {
      var i :| 0 <= i < |Ws(b)| && Ws(b)[i] == v;
      assert Scalable(b.spec.targets[i], b.key.ns);
    }
  }

  lemma SavedNonempty(state: map<string, int>, ws: seq<Workload>, base: map<Workload, int>)
    requires Saves(state, ws, base) && ws != []
    ensures state != map[]
  {
    assert ws[0] in ws;
  }

  lemma SavedComesBack(b: PVCBackup, s: Scene, state: map<string, int>, base: map<Workload, int>, faults: set<Fault>)
    requires Plain(b) && Saves(state, Ws(b), base) && Present(s, Ws(b)) && NoFault(Ws(b), faults)
    ensures At(Unquiesce(s, state, faults), Ws(b), base)
  {
    PlainWorkloads(b);
    UnquiesceKeyedBy(s, Ws(b), state, faults);
  }

  lemma QuiesceSaves(b: PVCBackup, s: Scene, base: map<Workload, int>, faults: set<Fault>)
    requires Plain(b) && At(s, Ws(b), base) && NoFault(Ws(b), faults)
    ensures var q := Quiesce(s, b.spec.targets, b.key.ns, faults);
            q.ok && Saves(q.state, Ws(b), base) && Present(q.scene, Ws(b))
  {
    QuiesceRecords(s, b.spec.targets, b.key.ns, faults);
  }

  /** The fallback puts every target at one replica. */
  lemma FallbackAtOne(b: PVCBackup, s: Scene, faults: set<Fault>)
    requires Plain(b) && Present(s, Ws(b)) && NoFault(Ws(b), faults)
    ensures AllAtOne(Unquiesce(s, FallbackState(b.spec.targets, b.key.ns), faults), Ws(b))
  {
    FallbackSetsOne(s, b.spec.targets, b.key.ns, faults);
  }

  ghost predicate AllAtOne(s: Scene, ws: seq<Workload>) {
    forall v :: v in ws ==> v in s.replicas && s.replicas[v] == 1
  }

  // ---------------------------------------------------------------------
  // Where the counts of a backup are

  /** The annotation patch and the scaling of the targets go through. */
  ghost predicate Quietly(inp: Inputs, ws: seq<Workload>) {
    PatchAnnotation !in inp.faults && NoFault(ws, inp.scaleFaults)
  }

  /** Nothing in flight: the targets themselves have the counts. */
  ghost predicate AtRest(w: World, k: Key, base: map<Workload, int>)
    requires k in w.backups && AllScalable(w.backups[k].spec.targets, w.backups[k].key.ns)
  {
    k !in w.runs && w.backups[k].meta.quiesce == map[] && At(w.scene, Ws(w.backups[k]), base)
  }

  /** The annotation has the counts, and the status points at the Job whose end brings them back. */
  ghost predicate InAnnotation(w: World, k: Key, base: map<Workload, int>)
    requires k in w.backups && AllScalable(w.backups[k].spec.targets, w.backups[k].key.ns)
  {
    var b := w.backups[k];
    k !in w.runs && Saves(b.meta.quiesce, Ws(b), base) && b.status.phase.Uploading? && b.status.lastJobName != ""
  }

  /** The open run has the counts. */
  ghost predicate InRun(w: World, k: Key, base: map<Workload, int>)
    requires k in w.backups && AllScalable(w.backups[k].spec.targets, w.backups[k].key.ns)
  {
    k in w.runs && w.backups[k].meta.quiesce == map[] && w.runs[k].b.meta.quiesce == map[] &&
    Saves(w.runs[k].quiesced, Ws(w.backups[k]), base) && (Held(w.backups[k].status) || w.backups[k].status.phase.Failed?)
  }

  predicate Held(s: BackupStatus) { s.phase.Quiescing? || s.phase.Snapshotting? }

  /** The annotation has the counts, but the status does not show the Job: the write after its creation was lost. */
  ghost predicate Adrift(w: World, k: Key, base: map<Workload, int>)
    requires k in w.backups && AllScalable(w.backups[k].spec.targets, w.backups[k].key.ns)
  {
    var b := w.backups[k];
    && k !in w.runs && Saves(b.meta.quiesce, Ws(b), base) && Held(b.status)
    && |k.name| <= 46 && Idle(w, OfBackup(k), PruneJob)
  }

  /** The counts of k's targets are in one of these four places. */
  ghost predicate Located(w: World, k: Key, base: map<Workload, int>) {
    && k in w.backups && w.backups[k].key == k && Plain(w.backups[k]) && Present(w.scene, Ws(w.backups[k]))
    && (AtRest(w, k, base) || InAnnotation(w, k, base) || InRun(w, k, base) || Adrift(w, k, base))
  }

  /** And if they are in the annotation alone, the Job that was not noted is still there to be adopted. */
  ghost predicate Calm(w: World, k: Key, base: map<Workload, int>) {
    Located(w, k, base) && (Adrift(w, k, base) ==> !Idle(w, OfBackup(k), BackupJob))
  }

  // ---------------------------------------------------------------------
  // Failing and polling

  /** What an end of the run leaves: the record cleared, and the workloads as the release put them. */
  ghost predicate Ends(w: World, w': World, b: PVCBackup, inp: Inputs) {
    b.key in w'.backups && w'.runs == w.runs && w'.backups[b.key].meta.quiesce == map[] &&
    w'.scene == Unquiesce(w.scene, ReleaseState(b), inp.scaleFaults)
  }

  lemma FailEnds(w: World, b: PVCBackup, inp: Inputs)
    requires Synced(w, b) && !b.spec.leaveDown && PatchAnnotation !in inp.faults
    ensures Ends(w, Fail(w, b, inp).w, b, inp)
  {
  }

  /** The Job a poll looks at has ended or is gone. */
  predicate PollEnds(w: World, b: PVCBackup) {
    var job := Key(b.key.ns, b.status.lastJobName);
    job !in w.jobs || w.jobs[job].succeeded > 0 || w.jobs[job].failed > 0
  }

  /** A Job that succeeded, failed or vanished ends the run; a running one changes nothing. */
  lemma PollEndsRun(w: World, b: PVCBackup, inp: Inputs)
    requires Synced(w, b) && !b.spec.leaveDown && PatchAnnotation !in inp.faults
    ensures if PollEnds(w, b) then Ends(w, PollBackup(w, b, inp), b, inp) else PollBackup(w, b, inp) == w
  {
    FailEnds(w, b, inp);
  }

  /** An end with saved counts brings them back. */
  lemma EndSettles(w: World, w': World, b: PVCBackup, inp: Inputs, base: map<Workload, int>)
    requires Ends(w, w', b, inp) && Plain(b) && Present(w.scene, Ws(b)) && NoFault(Ws(b), inp.scaleFaults)
    requires Saves(b.meta.quiesce, Ws(b), base)
    ensures At(w'.scene, Ws(b), base)
  {
    PlainWorkloads(b);
    SavedNonempty(b.meta.quiesce, Ws(b), base);
    SavedComesBack(b, w.scene, b.meta.quiesce, base, inp.scaleFaults);
  }

  /** An end with nothing recorded puts every target at one replica. */
  lemma EndFallsBack(w: World, w': World, b: PVCBackup, inp: Inputs)
    requires Ends(w, w', b, inp) && Plain(b) && Present(w.scene, Ws(b)) && NoFault(Ws(b), inp.scaleFaults)
    requires b.meta.quiesce == map[]
    ensures AllAtOne(w'.scene, Ws(b))
  {
    FallbackAtOne(b, w.scene, inp.scaleFaults);
  }

  // ---------------------------------------------------------------------
  // Starting a run

  /** Nothing in flight for b's object, whose targets are at base; `mem` is the in-memory copy. */
  ghost predicate Resting(w: World, mem: PVCBackup, base: map<Workload, int>)
    requires AllScalable(mem.spec.targets, mem.key.ns)
  {
    Synced(w, mem) && mem.meta.quiesce == map[] && mem.key !in w.runs && At(w.scene, Ws(mem), base)
  }

  /** The backup is at rest with its counts, or its run holds them. */
  ghost predicate SavedOrBack(w': World, k: Key, ws: seq<Workload>, base: map<Workload, int>) {
    && k in w'.backups && w'.backups[k].meta.quiesce == map[] && Present(w'.scene, ws)
    && if k in w'.runs
       then w'.runs[k].b.meta.quiesce == map[] && Saves(w'.runs[k].quiesced, ws, base) && Held(w'.backups[k].status)
       else At(w'.scene, ws, base)
  }

  lemma {:induction false} SnapshotStepsKeep(w: World, b: PVCBackup, steps: seq<string>, inp: Inputs)
    requires Synced(w, b)
    ensures var m := SnapshotSteps(w, b, steps, inp).m;
            m.w.scene == w.scene && m.b.spec == b.spec && m.b.meta.quiesce == b.meta.quiesce &&
            m.w.backups[b.key].meta.quiesce == b.meta.quiesce &&
            (Held(w.backups[b.key].status) ==> Held(m.w.backups[b.key].status))
  {
    if steps != [] {
      SnapshotStepsKeep(w, b, steps[..|steps| - 1], inp);
    }
  }

  /** The rest of a run whose quiesce saved the counts: a failing snapshot first applies the one-replica fallback,
      then the deferred restore brings the counts back. */
  lemma SnapshotSaved(w: World, b: PVCBackup, state: map<string, int>, forced: bool, inp: Inputs, base: map<Workload, int>)
    requires Synced(w, b) && Plain(b) && b.meta.quiesce == map[] && b.key !in w.runs
    requires Present(w.scene, Ws(b)) && Quietly(inp, Ws(b)) && Saves(state, Ws(b), base) && Held(w.backups[b.key].status)
    ensures SavedOrBack(Snapshot(w, b, state, forced, inp), b.key, Ws(b), base)
  {
    SnapshotStepsKeep(w, b, Pipeline(b.spec), inp);
    var s := SnapshotSteps(w, b, Pipeline(b.spec), inp);
    if !s.ok {
      var f := Fail(s.m.w, s.m.b, inp).w;
      FailEnds(s.m.w, s.m.b, inp);
      EndFallsBack(s.m.w, f, s.m.b, inp);
      DeferredComesBack(f, b, state, inp, base);
    }
  }

  lemma DeferredComesBack(w: World, b: PVCBackup, state: map<string, int>, inp: Inputs, base: map<Workload, int>)
    requires Plain(b) && Present(w.scene, Ws(b)) && NoFault(Ws(b), inp.scaleFaults) && Saves(state, Ws(b), base)
    ensures var w' := Deferred(w, false, state, inp);
            At(w'.scene, Ws(b), base) && w'.backups == w.backups && w'.runs == w.runs
  {
    PlainWorkloads(b);
    SavedNonempty(state, Ws(b), base);
    SavedComesBack(b, w.scene, state, base, inp.scaleFaults);
  }

  /** The run gives up before it has quiesced anything, and fails. */
  ghost predicate PrepareFails(w: World, b: PVCBackup, inp: Inputs) {
    GetRepo in inp.faults || (!BackupBusy(w, b, inp) && EnsureSecrets in inp.faults)
  }

  lemma PrepareResting(w: World, b: PVCBackup, forced: bool, inp: Inputs, base: map<Workload, int>)
    requires Plain(b) && Resting(w, b, base) && Quietly(inp, Ws(b))
    ensures var w' := Prepare(w, b, forced, inp);
            if PrepareFails(w, b, inp) then Ends(w, w', b, inp) else SavedOrBack(w', b.key, Ws(b), base)
  {
    if PrepareFails(w, b, inp) {
      FailEnds(w, b, inp);
    } else if !BackupBusy(w, b, inp) {
      var quiescing := b.(status := b.status.(phase := Quiescing));
      var r := WriteStatus(w, quiescing, WriteQuiescing, inp.faults);
      if r.ok {
        QuiesceSaves(b, r.w.scene, base, inp.scaleFaults);
        var q := Quiesce(r.w.scene, b.spec.targets, b.key.ns, inp.scaleFaults);
        SnapshotSaved(r.w.(scene := q.scene), r.b, q.state, forced, inp, base);
      }
    }
  }

  /** The token claim that precedes a forced run. */
  function ClaimToken(w: World, b: PVCBackup, inp: Inputs): Reply
    requires Known(w, b)
  {
    if ForceRunPending(b)
    then WriteStatus(w, b.(status := b.status.(lastForceRun := b.meta.forceRun)), WriteToken, inp.faults)
    else Reply(w, b, true)
  }

  ghost predicate ClaimFails(w: World, b: PVCBackup, inp: Inputs)
    requires Known(w, b)
  {
    var r := ClaimToken(w, b, inp);
    r.ok && PrepareFails(r.w, r.b, inp)
  }

  lemma ClaimResting(w: World, b: PVCBackup, inp: Inputs, base: map<Workload, int>)
    requires Plain(b) && Resting(w, b, base) && Quietly(inp, Ws(b))
    ensures var w' := Claim(w, b, inp);
            if ClaimFails(w, b, inp) then Ends(w, w', b, inp) else SavedOrBack(w', b.key, Ws(b), base)
  {
    var r := ClaimToken(w, b, inp);
    PrepareResting(r.w, r.b, ForceRunPending(b), inp, base);
  }

  // ---------------------------------------------------------------------
  // Reconciling

  /** The reconciles that fail or finish the backup while nothing is recorded, so that releaseQuiesce falls back
      to one replica. */
  ghost predicate ReleasesUnrecorded(w: World, k: Key, inp: Inputs)
    requires k in w.backups && w.backups[k].key == k
  {
    var b := w.backups[k];
    if PvcList(b.spec) == [] then true
    else if ForceCancelPending(b) then BackupPhaseInFlight(b.status.phase)
    else if b.status.phase.Uploading? && b.status.lastJobName != "" then PollEnds(w, b)
    else if DealsWithPrune(w, k, inp) || FindBackupJob(w, k, inp).Some? || b.status.phase.Pruning? then false
    else if Starts(w, b) then ClaimFails(w, b, inp)
    else !b.spec.schedule.Unscheduled? && ScheduleDue(b, w.now).DueError?
  }

  lemma ReconcileResting(w: World, k: Key, inp: Inputs, base: map<Workload, int>)
    requires k in w.backups && w.backups[k].key == k && Plain(w.backups[k])
    requires AtRest(w, k, base) && Quietly(inp, Ws(w.backups[k]))
    ensures var w', b := Reconcile(w, k, inp), w.backups[k];
            if ReleasesUnrecorded(w, k, inp) then w'.runs == w.runs && w'.backups[k].meta.quiesce == map[] && AllAtOne(w'.scene, Ws(b))
            else SavedOrBack(w', k, Ws(b), base)
  {
    var b := w.backups[k];
    if PvcList(b.spec) == [] {
      FailEnds(w, b, inp);
      EndFallsBack(w, Fail(w, b, inp).w, b, inp);
    } else if DealsWithPrune(w, k, inp) {
      PruneIsolated(w, k, inp);
    } else if ForceCancelPending(b) {
      CancelResting(w, b, inp);
    } else if b.status.phase.Uploading? && b.status.lastJobName != "" {
      PollEndsRun(w, b, inp);
      if PollEnds(w, b) { EndFallsBack(w, PollBackup(w, b, inp), b, inp); }
    } else if FindBackupJob(w, k, inp).Some? {
      AdoptResting(w, b, inp);
    } else {
      StartResting(w, k, inp, base);
    }
  }

  lemma CancelResting(w: World, b: PVCBackup, inp: Inputs)
    requires b.key in w.backups && b == w.backups[b.key] && Plain(b) && Present(w.scene, Ws(b)) && Quietly(inp, Ws(b))
    requires b.meta.quiesce == map[] && !b.status.phase.Pruning?
    ensures var w' := Cancel(w, b, inp);
            w'.runs == w.runs && w'.backups[b.key].meta.quiesce == map[] &&
            if BackupPhaseInFlight(b.status.phase) then AllAtOne(w'.scene, Ws(b)) else w'.scene == w.scene
  {
    var b1 := b.(status := b.status.(lastForceCancel := b.meta.forceCancel));
    var w1 := DeleteJob(w, b.key.ns, b.status.lastJobName);
    if BackupPhaseInFlight(b.status.phase) {
      FailEnds(w1, b1, inp);
      EndFallsBack(w1, Fail(w1, b1, inp).w, b1, inp);
    }
  }

  /** Adopting finds an unfinished Job, so the poll that follows ends nothing. */
  lemma AdoptResting(w: World, b: PVCBackup, inp: Inputs)
    requires b.key in w.backups && b == w.backups[b.key] && !b.spec.leaveDown && PatchAnnotation !in inp.faults
    requires FindBackupJob(w, b.key, inp).Some?
    ensures var w' := AdoptBackup(w, b, FindBackupJob(w, b.key, inp).value, inp);
            w'.runs == w.runs && w'.scene == w.scene && w'.backups[b.key].meta.quiesce == b.meta.quiesce
  {
    var job := FindBackupJob(w, b.key, inp).value;
    var r := WriteStatus(w, b.(status := b.status.(phase := Uploading, lastJobName := job.name)), WriteAdopted, inp.faults);
    if r.ok {
      PollEndsRun(r.w, r.b, inp);
      assert job == Key(r.b.key.ns, r.b.status.lastJobName);
    }
  }

  lemma StartResting(w: World, k: Key, inp: Inputs, base: map<Workload, int>)
    requires k in w.backups && w.backups[k].key == k && Plain(w.backups[k])
    requires AtRest(w, k, base) && Quietly(inp, Ws(w.backups[k]))
    requires var b := w.backups[k];
             PvcList(b.spec) != [] && !DealsWithPrune(w, k, inp) && !ForceCancelPending(b) &&
             !(b.status.phase.Uploading? && b.status.lastJobName != "") && FindBackupJob(w, k, inp).None?
    ensures var w', b := Reconcile(w, k, inp), w.backups[k];
            if ReleasesUnrecorded(w, k, inp) then w'.runs == w.runs && w'.backups[k].meta.quiesce == map[] && AllAtOne(w'.scene, Ws(b))
            else SavedOrBack(w', k, Ws(b), base)
  {
    var b := w.backups[k];
    RunBranches(w, k, inp);
    if Starts(w, b) {
      ClaimResting(w, b, inp, base);
      if ClaimFails(w, b, inp) { EndFallsBack(w, Claim(w, b, inp), b, inp); }
    } else if !b.spec.schedule.Unscheduled? && ScheduleDue(b, w.now).DueError? {
      FailEnds(w, b, inp);
      EndFallsBack(w, Fail(w, b, inp).w, b, inp);
    }
  }

  /** While the counts are recorded, a reconcile keeps them recorded or brings them back. */
  lemma ReconcileRecorded(w: World, k: Key, inp: Inputs, base: map<Workload, int>)
    requires k in w.backups && w.backups[k].key == k && Plain(w.backups[k]) && Present(w.scene, Ws(w.backups[k]))
    requires InAnnotation(w, k, base) && Quietly(inp, Ws(w.backups[k]))
    ensures var w' := Reconcile(w, k, inp);
            w' == w || (w'.runs == w.runs && w'.backups[k].meta.quiesce == map[] && At(w'.scene, Ws(w.backups[k]), base))
  {
    var b := w.backups[k];
    if PvcList(b.spec) == [] {
      FailEnds(w, b, inp);
      EndSettles(w, Fail(w, b, inp).w, b, inp, base);
    } else if ForceCancelPending(b) {
      var b1 := b.(status := b.status.(lastForceCancel := b.meta.forceCancel));
      var w1 := DeleteJob(w, k.ns, b.status.lastJobName);
      FailEnds(w1, b1, inp);
      EndSettles(w1, Fail(w1, b1, inp).w, b1, inp, base);
    } else {
      PollEndsRun(w, b, inp);
      if PollEnds(w, b) { EndSettles(w, PollBackup(w, b, inp), b, inp, base); }
    }
  }

  /** Replica conservation of one reconcile from rest, with its exact condition: the counts survive, in the cluster
      or in the run it opens, if and only if it does not release an unrecorded backup, or all targets were at one. */
  lemma ReconcileConserves(w: World, k: Key, inp: Inputs, base: map<Workload, int>)
    requires k in w.backups && w.backups[k].key == k && Plain(w.backups[k])
    requires AtRest(w, k, base) && Quietly(inp, Ws(w.backups[k]))
    ensures SavedOrBack(Reconcile(w, k, inp), k, Ws(w.backups[k]), base)
            <==> (ReleasesUnrecorded(w, k, inp) ==> AllAtOne(w.scene, Ws(w.backups[k])))
  {
    ReconcileResting(w, k, inp, base);
    var ws, w' := Ws(w.backups[k]), Reconcile(w, k, inp);
    if ReleasesUnrecorded(w, k, inp) && SavedOrBack(w', k, ws, base) {
      forall v | v in ws ensures w.scene.replicas[v] == 1 {
        assert w'.scene.replicas[v] == 1 == base[v];
      }
    }
  }

  // ---------------------------------------------------------------------
  // The second half of a run

  /** The status write that points at the Job lands, or its loss can be made up for: the Job is a new one, and the
      backup's scans will recognise it. */
  ghost predicate Noted(w: World, k: Key, inp: Inputs)
    requires k in w.runs && k in w.backups
  {
    Lands(w, k, inp) || (|k.name| <= 46 && Key(k.ns, LaunchName(w.runs[k])) !in w.jobs)
  }

  /** Whatever happens after the re-check, the counts come back at once or wait in the annotation for the Job. */
  lemma LaunchConserves(w: World, k: Key, inp: Inputs, base: map<Workload, int>)
    requires Inv(w) && Calm(w, k, base) && k in w.runs && NoFault(Ws(w.backups[k]), inp.scaleFaults)
    requires !Aborts(w, k, inp) && CreateJob !in inp.faults ==> PatchAnnotation !in inp.faults && Noted(w, k, inp)
    ensures Calm(Launch(w, k, inp), k, base)
  {
    var run, ws := w.runs[k], Ws(w.backups[k]);
    var b := run.b.(status := run.b.status.(phase := Uploading));
    if Aborts(w, k, inp) {
      DeferredComesBack(Close(w, k), b, run.quiesced, inp, base);
      AtRestIsCalm(Launch(w, k, inp), k, base);
    } else if CreateJob in inp.faults {
      LaunchFails(w, k, b, inp, base);
      AtRestIsCalm(Launch(w, k, inp), k, base);
    } else {
      LaunchNameNonempty(run);
      PlainWorkloads(b);
      SavedNonempty(run.quiesced, ws, base);
      if WriteUploading in inp.faults {
        LaunchDrifts(w, k, b, inp, base);
      } else {
        UploadSaves(WithJob(w, k), b, run.quiesced, LaunchName(run), inp, base);
      }
    }
  }

  /** The write is lost: the counts are in the annotation, the phase is still that of the quiesce or snapshot, and the
      new Job is there. */
  lemma LaunchDrifts(w: World, k: Key, b: PVCBackup, inp: Inputs, base: map<Workload, int>)
    requires Inv(w) && k in w.runs && k in w.backups && b.key == k && Known(w, b) && Plain(b) && b.meta.quiesce == map[]
    requires Present(w.scene, Ws(b)) && PatchAnnotation !in inp.faults && WriteUploading in inp.faults
    requires Held(w.backups[k].status) && w.backups[k].key == k
    requires Saves(w.runs[k].quiesced, Ws(b), base) && w.runs[k].quiesced != map[]
    requires |k.name| <= 46 && Key(k.ns, LaunchName(w.runs[k])) !in w.jobs
    ensures Calm(Upload(WithJob(w, k), b, w.runs[k].quiesced, LaunchName(w.runs[k]), inp), k, base)
  {
    var run := w.runs[k];
    LostUpload(WithJob(w, k), b, run.quiesced, LaunchName(run), inp);
    DriftsWith(w, Upload(WithJob(w, k), b, run.quiesced, LaunchName(run), inp), k, Key(k.ns, LaunchName(run)), base);
  }

  lemma DriftsWith(w: World, w': World, k: Key, n: Key, base: map<Workload, int>)
    requires Inv(w) && k in w.runs && k in w.backups && k in w'.backups && SameIdentity(w.backups[k], w'.backups[k])
    requires Plain(w.backups[k]) && w.backups[k].key == k && Present(w'.scene, Ws(w.backups[k])) && k !in w'.runs
    requires Saves(w'.backups[k].meta.quiesce, Ws(w.backups[k]), base) && Held(w'.backups[k].status) && |k.name| <= 46
    requires n !in w.jobs && n in w'.jobs && w'.jobs == w.jobs[n := w'.jobs[n]]
    requires w'.jobs[n].owner == OfBackup(k) && w'.jobs[n].kind.BackupJob? && Unfinished(w'.jobs[n])
    ensures Calm(w', k, base)
  {
    assert Live(w', n, OfBackup(k), BackupJob);
    assert forall j :: Live(w', j, OfBackup(k), PruneJob) ==> Live(w, j, OfBackup(k), PruneJob);
  }

  lemma LostUpload(w: World, b: PVCBackup, state: map<string, int>, name: string, inp: Inputs)
    requires Known(w, b) && b.meta.quiesce == map[] && state != map[]
    requires PatchAnnotation !in inp.faults && WriteUploading in inp.faults
    ensures var w' := Upload(w, b, state, name, inp);
            w'.jobs == w.jobs && w'.runs == w.runs && w'.scene == w.scene &&
            w'.backups[b.key].meta.quiesce == state && w'.backups[b.key].status == w.backups[b.key].status
  {
  }

  /** The Job could not be created: fail() falls back to one replica, and the deferred restore follows. */
  lemma LaunchFails(w: World, k: Key, b: PVCBackup, inp: Inputs, base: map<Workload, int>)
    requires k in w.runs && Plain(b) && b.key == k && Known(w, b) && !w.backups[k].status.phase.Failed?
    requires b.meta.quiesce == map[] && w.backups[k].meta.quiesce == map[]
    requires Present(w.scene, Ws(b)) && NoFault(Ws(b), inp.scaleFaults) && Saves(w.runs[k].quiesced, Ws(b), base)
    ensures var w' := Deferred(Fail(Close(w, k), b, inp).w, false, w.runs[k].quiesced, inp);
            k in w'.backups && w'.backups[k].meta.quiesce == map[] && k !in w'.runs && At(w'.scene, Ws(b), base)
  {
    var f := Fail(Close(w, k), b, inp).w;
    assert f.scene == Unquiesce(w.scene, ReleaseState(b), inp.scaleFaults);
    DeferredComesBack(f, b, w.runs[k].quiesced, inp, base);
  }

  lemma UploadSaves(w: World, b: PVCBackup, state: map<string, int>, name: string, inp: Inputs, base: map<Workload, int>)
    requires Known(w, b) && Plain(b) && Present(w.scene, Ws(b)) && Quietly(inp, Ws(b)) && b.key !in w.runs
    requires Saves(state, Ws(b), base) && state != map[] && WriteUploading !in inp.faults
    requires b.meta.quiesce == map[] && b.status.phase.Uploading? && name != ""
    ensures var w' := Upload(w, b, state, name, inp);
            Calm(w', b.key, base)
  {
    var p := PersistQuiesce(w, b, state, inp.faults);
    PatchedSynced(w, b, state, inp);
    var named := p.b.(status := p.b.status.(lastJobName := name));
    var r := WriteStatus(p.w, named, WriteUploading, inp.faults);
    WriteLands(p.w, named, WriteUploading, inp.faults);
    PollUploaded(r.w, r.b, inp, base);
  }

  lemma WriteLands(w: World, b: PVCBackup, call: Call, faults: set<Call>)
    requires Synced(w, b) && call !in faults
    ensures var r := WriteStatus(w, b, call, faults);
            r.ok && r.w.backups[b.key] == r.b && r.b.status == b.status && r.b.meta.quiesce == b.meta.quiesce &&
            r.b.spec == b.spec && r.w.scene == w.scene
  {
  }

  /** The first poll of a run whose counts are in the annotation. */
  lemma PollUploaded(w: World, b: PVCBackup, inp: Inputs, base: map<Workload, int>)
    requires b.key in w.backups && w.backups[b.key] == b && Plain(b) && Present(w.scene, Ws(b)) && Quietly(inp, Ws(b))
    requires InAnnotation(w, b.key, base)
    ensures var w' := PollBackup(w, b, inp);
            Calm(w', b.key, base)
  {
    PollEndsRun(w, b, inp);
    if PollEnds(w, b) { EndSettles(w, PollBackup(w, b, inp), b, inp, base); }
  }

  lemma PatchedSynced(w: World, b: PVCBackup, state: map<string, int>, inp: Inputs)
    requires Known(w, b) && state != map[] && PatchAnnotation !in inp.faults
    requires b.meta.quiesce == map[] || Synced(w, b)
    ensures var p := PersistQuiesce(w, b, state, inp.faults);
            Synced(p.w, p.b) && p.b.meta.quiesce == state && p.b.spec == b.spec && p.b.status == b.status &&
            p.w.scene == w.scene
  {
  }

  /** While the counts are adrift, a reconcile adopts the Job, waits, or brings the counts back. */
  lemma ReconcileAdrift(w: World, k: Key, inp: Inputs, base: map<Workload, int>)
    requires Inv(w) && Enabled(w, ReconcileStep(k, inp)) && Calm(w, k, base) && Adrift(w, k, base)
    requires Quietly(inp, Ws(w.backups[k]))
    ensures Calm(Reconcile(w, k, inp), k, base)
  {
    var b := w.backups[k];
    if PvcList(b.spec) == [] {
      FailEnds(w, b, inp);
      EndSettles(w, Fail(w, b, inp).w, b, inp, base);
      AtRestIsCalm(Reconcile(w, k, inp), k, base);
    } else if ForceCancelPending(b) {
      CancelSettles(w, b, inp, base);
    } else if !ForcePrunePending(b) {
      AdriftIsFound(w, k, inp, base);
      AdoptsFound(w, k, inp);
      AdoptedAdrift(w, k, inp, base);
    }
  }

  lemma AdriftIsFound(w: World, k: Key, inp: Inputs, base: map<Workload, int>)
    requires Inv(w) && Lists(w, inp) && Calm(w, k, base) && Adrift(w, k, base)
    ensures FindPruneJob(w, k, inp).None? && FindBackupJob(w, k, inp).Some?
  {
    if FindPruneJob(w, k, inp).Some? {
      PruneScanFindsPrune(w, k, inp);
    }
    BackupScanComplete(w, k, inp);
  }

  lemma CancelSettles(w: World, b: PVCBackup, inp: Inputs, base: map<Workload, int>)
    requires b.key in w.backups && b == w.backups[b.key] && Plain(b) && Present(w.scene, Ws(b)) && Quietly(inp, Ws(b))
    requires Saves(b.meta.quiesce, Ws(b), base) && BackupPhaseInFlight(b.status.phase) && b.key !in w.runs
    ensures Calm(Cancel(w, b, inp), b.key, base)
  {
    var b1 := b.(status := b.status.(lastForceCancel := b.meta.forceCancel));
    var w1 := DeleteJob(w, b.key.ns, b.status.lastJobName);
    FailEnds(w1, b1, inp);
    EndSettles(w1, Fail(w1, b1, inp).w, b1, inp, base);
    AtRestIsCalm(Cancel(w, b, inp), b.key, base);
  }

  /** At rest there is nothing in the annotation, so nothing is adrift. */
  lemma AtRestIsCalm(w: World, k: Key, base: map<Workload, int>)
    requires k in w.backups && w.backups[k].key == k && Plain(w.backups[k]) && AtRest(w, k, base)
    ensures Calm(w, k, base)
  {
    PlainWorkloads(w.backups[k]);
    if Adrift(w, k, base) {
      SavedNonempty(w.backups[k].meta.quiesce, Ws(w.backups[k]), base);
    }
  }

  lemma AdoptedAdrift(w: World, k: Key, inp: Inputs, base: map<Workload, int>)
    requires Calm(w, k, base) && Adrift(w, k, base) && Quietly(inp, Ws(w.backups[k])) && FindBackupJob(w, k, inp).Some?
    ensures Calm(AdoptBackup(w, w.backups[k], FindBackupJob(w, k, inp).value, inp), k, base)
  {
    var b, job := w.backups[k], FindBackupJob(w, k, inp).value;
    assert |BackupPrefix(k.name)| > 0 && HasPrefix(job.name, BackupPrefix(k.name));
    var r := WriteStatus(w, b.(status := b.status.(phase := Uploading, lastJobName := job.name)), WriteAdopted, inp.faults);
    if r.ok {
      PollUploaded(r.w, r.b, inp, base);
    }
  }

  // ---------------------------------------------------------------------
  // Preemption and the steps of others

  lemma InterruptConserves(w: World, k: Key, inp: Inputs, base: map<Workload, int>)
    requires Keyed(w) && Located(w, k, base) && Quietly(inp, Ws(w.backups[k]))
    requires AtRest(w, k, base) ==> AllAtOne(w.scene, Ws(w.backups[k]))
    ensures Calm(Interrupt(w, k, inp), k, base)
  {
    var stopped, b := StopJobs(w, k, inp), w.backups[k];
    var w' := Interrupt(w, k, inp);
    FailEnds(stopped, b, inp);
    FailStatus(stopped, b, inp);
    if !InRun(w, k, base) {
      if AtRest(w, k, base) {
        EndFallsBack(stopped, w', b, inp);
      } else {
        EndSettles(stopped, w', b, inp, base);
      }
      AtRestIsCalm(w', k, base);
    }
  }

  /** Backup i lists none of k's targets. */
  ghost predicate Apart(w: World, i: Key, k: Key)
    requires i in w.backups && k in w.backups && AllScalable(w.backups[k].spec.targets, w.backups[k].key.ns)
  {
    forall v :: v in Ws(w.backups[k]) ==> KeyOf(v) !in Own(w.backups[i])
  }

  /** The counts of ws are the same in both scenes. */
  ghost predicate LeavesCounts(s: Scene, s': Scene, ws: seq<Workload>) {
    forall v :: v in ws && v in s.replicas ==> v in s'.replicas && s'.replicas[v] == s.replicas[v]
  }

  /** Whoever leaves k, its run and its targets alone and gives it no Job leaves its counts where they are. */
  lemma OthersConserve(w: World, w': World, k: Key, base: map<Workload, int>)
    requires Located(w, k, base) && k in w'.backups && SameBackup(w.backups[k], w'.backups[k])
    requires w'.backups[k].meta.quiesce == w.backups[k].meta.quiesce
    requires if k in w.runs then k in w'.runs && w'.runs[k] == w.runs[k] else k !in w'.runs
    requires forall v :: v in Ws(w.backups[k]) ==> v in w'.scene.replicas && w'.scene.replicas[v] == w.scene.replicas[v]
    requires forall j :: Live(w', j, OfBackup(k), PruneJob) ==> Live(w, j, OfBackup(k), PruneJob)
    ensures Located(w', k, base) && (Adrift(w', k, base) ==> Adrift(w, k, base))
  {
    if Adrift(w', k, base) {
      PlainWorkloads(w'.backups[k]);
      SavedNonempty(w'.backups[k].meta.quiesce, Ws(w'.backups[k]), base);
      assert Adrift(w, k, base);
    }
  }

  lemma ElsewhereLeaves(w: World, k: Key, i: Key, s: Scene, s': Scene)
    requires k in w.backups && AllScalable(w.backups[k].spec.targets, w.backups[k].key.ns)
    requires i in w.backups && Apart(w, i, k) && Present(s, Ws(w.backups[k])) && Elsewhere(s, s', Own(w.backups[i]))
    ensures LeavesCounts(s, s', Ws(w.backups[k])) && Present(s', Ws(w.backups[k]))
  {
  }

  lemma {:induction false} InterruptAllConserves(w: World, holders: seq<Key>, inp: Inputs, k: Key, base: map<Workload, int>)
    requires Kept(w) && Located(w, k, base) && NoRepeats(holders) && forall h :: h in holders ==> h in w.backups
    requires forall h :: h in holders && h != k ==> Apart(w, h, k)
    requires k in holders ==> Quietly(inp, Ws(w.backups[k]))
    requires k in holders && BackupPhaseActive(w.backups[k].status.phase) && AtRest(w, k, base) ==>
               AllAtOne(w.scene, Ws(w.backups[k]))
    ensures var w' := InterruptAll(w, holders, inp);
            Located(w', k, base) && (Adrift(w', k, base) ==> Adrift(w, k, base)) &&
            (k !in holders ==> w'.backups[k] == w.backups[k])
  {
    if holders != [] {
      var front, h := holders[..|holders| - 1], holders[|holders| - 1];
      InterruptAllConserves(w, front, inp, k, base);
      InterruptAllKeeps(w, front, inp);
      var init := InterruptAll(w, front, inp);
      if BackupPhaseActive(init.backups[h].status.phase) {
        if h == k {
          assert k !in front;
          RestingStays(w, init, k, base);
          InterruptConserves(init, k, inp, base);
          NotAdriftAfter(init, k, inp, base);
        } else {
          ApartStays(w, init, h, k);
          OtherInterruptConserves(init, h, inp, k, base);
        }
      }
    }
  }

  /** An interrupted backup has nothing in its annotation. */
  lemma NotAdriftAfter(w: World, k: Key, inp: Inputs, base: map<Workload, int>)
    requires Keyed(w) && Located(w, k, base) && Quietly(inp, Ws(w.backups[k]))
    requires Located(Interrupt(w, k, inp), k, base)
    ensures !Adrift(Interrupt(w, k, inp), k, base)
  {
    FailEnds(StopJobs(w, k, inp), w.backups[k], inp);
    PlainWorkloads(w.backups[k]);
    if Adrift(Interrupt(w, k, inp), k, base) {
      SavedNonempty(Interrupt(w, k, inp).backups[k].meta.quiesce, Ws(w.backups[k]), base);
    }
  }

  lemma ApartStays(w: World, w': World, i: Key, k: Key)
    requires i in w.backups && k in w.backups && AllScalable(w.backups[k].spec.targets, w.backups[k].key.ns) && Apart(w, i, k)
    requires OnlyBackups(w, w')
    ensures AllScalable(w'.backups[k].spec.targets, w'.backups[k].key.ns) && Apart(w', i, k)
  {
    assert Own(w'.backups[i]) == Own(w.backups[i]) && Ws(w'.backups[k]) == Ws(w.backups[k]);
  }

  lemma OtherInterruptConserves(w: World, h: Key, inp: Inputs, k: Key, base: map<Workload, int>)
    requires Kept(w) && Located(w, k, base) && h in w.backups && h != k && Apart(w, h, k)
    ensures var w' := Interrupt(w, h, inp);
            Located(w', k, base) && (Adrift(w', k, base) ==> Adrift(w, k, base)) && w'.backups[k] == w.backups[k]
  {
    InterruptWithin(w, h, inp);
    ElsewhereLeaves(w, k, h, w.scene, Interrupt(w, h, inp).scene);
    OthersConserve(w, Interrupt(w, h, inp), k, base);
  }

  /** Resting after others' interrupts means resting before, at the same counts. */
  lemma RestingStays(w: World, init: World, k: Key, base: map<Workload, int>)
    requires Located(w, k, base) && Located(init, k, base) && init.backups[k] == w.backups[k] && init.runs == w.runs
    ensures AtRest(init, k, base) ==> AtRest(w, k, base)
    ensures AtRest(init, k, base) && AllAtOne(w.scene, Ws(w.backups[k])) ==> AllAtOne(init.scene, Ws(w.backups[k]))
  {
    PlainWorkloads(w.backups[k]);
    if AtRest(init, k, base) && (InAnnotation(w, k, base) || Adrift(w, k, base)) {
      SavedNonempty(w.backups[k].meta.quiesce, Ws(w.backups[k]), base);
    }
    if AtRest(init, k, base) && AllAtOne(w.scene, Ws(w.backups[k])) {
      forall v | v in Ws(w.backups[k]) ensures init.scene.replicas[v] == 1 {
      }
    }
  }

  // ---------------------------------------------------------------------
  // Over every run

  /** What conservation needs of a step. Where it matters, the annotation patch and the scaling of k's own targets go
      through; its open run is not lost with the process; if the write that points at its Job is lost, that Job is adopted
      before it ends; nobody else scales its targets in this step; and it is not released while it rests, unless all its
      targets are at one anyway. */
  ghost predicate Careful(w: World, s: Step, k: Key)
    requires Enabled(w, s)
  {
    && k in w.backups && w.backups[k].key == k && AllScalable(w.backups[k].spec.targets, w.backups[k].key.ns)
    && Followed(w, Apply(w, s), k)
    && var b := w.backups[k];
       match s
       case ReconcileStep(i, inp) =>
         if i == k then Stands(w, Apply(w, s), k) || (Quietly(inp, Ws(b)) && (ReleasesUnrecorded(w, k, inp) ==> AwayOrAtOne(w, k)))
         else LeavesCounts(w.scene, Apply(w, s).scene, Ws(b))
       case LaunchStep(i, inp) =>
         if i == k then
           NoFault(Ws(b), inp.scaleFaults) &&
           (!Aborts(w, k, inp) && CreateJob !in inp.faults ==> PatchAnnotation !in inp.faults && Noted(w, k, inp))
         else LeavesCounts(w.scene, Apply(w, s).scene, Ws(b))
       case RestoreStep(r, inp) => PreemptsNone(w, s) || PreemptsCarefully(w, k, r, inp)
       case Crash(i) => i != k
       case ScaleByUser(v, _) => v !in Ws(b)
       case _ => true
  }

  /** An unnoted Job of k that is gone in w' was adopted, or the counts it was to bring back were released. */
  ghost predicate Followed(w: World, w': World, k: Key) {
    k in w.backups && k in w'.backups && Held(w.backups[k].status) && k !in w.runs && w.backups[k].meta.quiesce != map[] &&
    !Idle(w, OfBackup(k), BackupJob) && Idle(w', OfBackup(k), BackupJob) ==>
      w'.backups[k].status.phase.Uploading? || w'.backups[k].meta.quiesce == map[]
  }

  /** A reconcile that scales nothing and opens no run, and where counts are recorded changes nothing at all. */
  ghost predicate Stands(w: World, w': World, k: Key) {
    k in w.backups && k in w'.backups && w'.scene == w.scene && w'.runs == w.runs &&
    w'.backups[k].meta.quiesce == w.backups[k].meta.quiesce && (w.backups[k].meta.quiesce == map[] || w' == w)
  }

  /** A restore that only polls, waits or fails: no backup and no workload changes. */
  ghost predicate PreemptsNone(w: World, s: Step)
    requires Enabled(w, s)
  {
    Apply(w, s).backups == w.backups && Apply(w, s).scene == w.scene
  }

  /** What restore r preempts shares no target with k, and if it is k itself, the calls get through and k does not rest,
      unless all its targets are at one. */
  ghost predicate PreemptsCarefully(w: World, k: Key, r: Key, inp: Inputs)
    requires k in w.backups && AllScalable(w.backups[k].spec.targets, w.backups[k].key.ns)
  {
    && (forall h :: h in w.backups && h != k && Preempted(w, h, r) ==> Apart(w, h, k))
    && (Preempted(w, k, r) ==> Quietly(inp, Ws(w.backups[k])) && AwayOrAtOne(w, k))
  }

  /** The counts are recorded or in an open run, or the fallback would not change them. */
  ghost predicate AwayOrAtOne(w: World, k: Key)
    requires k in w.backups && AllScalable(w.backups[k].spec.targets, w.backups[k].key.ns)
  {
    k !in w.runs && w.backups[k].meta.quiesce == map[] ==> AllAtOne(w.scene, Ws(w.backups[k]))
  }

  /** Restore r would preempt h. */
  ghost predicate Preempted(w: World, h: Key, r: Key) {
    r in w.restores && BackupHolds(w, h, RestorePVCKeys(w.restores[r]), OfRestore(r))
  }

  /** A backup that lists none of k's targets leaves k's counts alone, whatever it does. */
  lemma ApartLeavesCounts(w: World, s: Step, k: Key)
    requires Kept(w) && Enabled(w, s) && (s.ReconcileStep? || s.LaunchStep?) && s.k in w.backups && k in w.backups
    requires AllScalable(w.backups[k].spec.targets, w.backups[k].key.ns) && Apart(w, s.k, k) && Present(w.scene, Ws(w.backups[k]))
    ensures LeavesCounts(w.scene, Apply(w, s).scene, Ws(w.backups[k]))
  {
    if s.ReconcileStep? {
      ReconcileWithin(w, s.k, s.inp);
    } else {
      LaunchWithin(w, s.k, s.inp);
    }
    ElsewhereLeaves(w, k, s.k, w.scene, Apply(w, s).scene);
  }

  /** Adrift stays calm where the Job is followed. */
  lemma FollowedIsCalm(w: World, w': World, k: Key, base: map<Workload, int>)
    requires Calm(w, k, base) && Located(w', k, base) && (Adrift(w', k, base) ==> Adrift(w, k, base)) && Followed(w, w', k)
    ensures Calm(w', k, base)
  {
    if Adrift(w', k, base) {
      PlainWorkloads(w.backups[k]);
      PlainWorkloads(w'.backups[k]);
      SavedNonempty(w.backups[k].meta.quiesce, Ws(w.backups[k]), base);
      SavedNonempty(w'.backups[k].meta.quiesce, Ws(w'.backups[k]), base);
    }
  }

  lemma OwnStepConserves(w: World, s: Step, k: Key, base: map<Workload, int>)
    requires Inv(w) && Calm(w, k, base) && Enabled(w, s) && Careful(w, s, k)
    requires (s.ReconcileStep? || s.LaunchStep?) && s.k == k
    ensures Calm(Apply(w, s), k, base)
  {
    if s.LaunchStep? {
      LaunchConserves(w, k, s.inp, base);
    } else {
      OwnReconcileConserves(w, k, s.inp, base);
    }
  }

  lemma OwnReconcileConserves(w: World, k: Key, inp: Inputs, base: map<Workload, int>)
    requires Inv(w) && Calm(w, k, base) && Enabled(w, ReconcileStep(k, inp))
    requires Stands(w, Reconcile(w, k, inp), k) ||
             (Quietly(inp, Ws(w.backups[k])) && (ReleasesUnrecorded(w, k, inp) ==> AwayOrAtOne(w, k)))
    ensures Calm(Reconcile(w, k, inp), k, base)
  {
    var w' := Reconcile(w, k, inp);
    if Stands(w, w', k) {
      StandingIsCalm(w, w', k, base);
    } else if Adrift(w, k, base) {
      ReconcileAdrift(w, k, inp, base);
    } else if InAnnotation(w, k, base) {
      ReconcileRecorded(w, k, inp, base);
      if w' != w { AtRestIsCalm(w', k, base); }
    } else {
      ReconcileConserves(w, k, inp, base);
      BackIsCalm(w, w', k, base);
    }
  }

  lemma StandingIsCalm(w: World, w': World, k: Key, base: map<Workload, int>)
    requires Calm(w, k, base) && k !in w.runs && Stands(w, w', k) && OnlyOwner(w, w', k)
    ensures Calm(w', k, base)
  {
    if w' != w {
      PlainWorkloads(w.backups[k]);
      if InAnnotation(w, k, base) || Adrift(w, k, base) {
        SavedNonempty(w.backups[k].meta.quiesce, Ws(w.backups[k]), base);
      }
      AtRestIsCalm(w', k, base);
    }
  }

  lemma BackIsCalm(w: World, w': World, k: Key, base: map<Workload, int>)
    requires k in w.backups && Plain(w.backups[k]) && OnlyOwner(w, w', k) && w'.backups[k].key == k
    requires SavedOrBack(w', k, Ws(w.backups[k]), base)
    ensures Calm(w', k, base)
  {
    if k !in w'.runs { AtRestIsCalm(w', k, base); }
  }

  lemma OtherStepConserves(w: World, s: Step, k: Key, base: map<Workload, int>)
    requires Wellformed(w) && Calm(w, k, base) && Enabled(w, s) && Followed(w, Apply(w, s), k)
    requires (s.ReconcileStep? || s.LaunchStep?) && s.k != k && LeavesCounts(w.scene, Apply(w, s).scene, Ws(w.backups[k]))
    ensures Calm(Apply(w, s), k, base)
  {
    OwnerLeavesRun(w, Apply(w, s), s.k, k);
    OthersConserve(w, Apply(w, s), k, base);
    FollowedIsCalm(w, Apply(w, s), k, base);
  }

  lemma OwnerLeavesRun(w: World, w': World, i: Key, k: Key)
    requires OnlyOwner(w, w', i) && i != k && k in w.backups
    ensures k in w'.backups && w'.backups[k] == w.backups[k]
    ensures if k in w.runs then k in w'.runs && w'.runs[k] == w.runs[k] else k !in w'.runs
  {
    if k in w'.runs { assert k in w'.runs - {i}; }
    if k in w.runs { assert k in w.runs - {i}; }
  }

  lemma {:induction false} HoldersOnce(w: World, listing: seq<Key>, keys: seq<string>, self: Owner)
    requires NoRepeats(listing)
    ensures NoRepeats(BackupHolders(w, listing, keys, self))
  {
    if listing != [] {
      HoldersOnce(w, listing[..|listing| - 1], keys, self);
    }
  }

  lemma RestoreStepConserves(w: World, s: Step, k: Key, base: map<Workload, int>)
    requires Kept(w) && Calm(w, k, base) && Enabled(w, s) && s.RestoreStep? && Careful(w, s, k)
    ensures Calm(Apply(w, s), k, base)
  {
    var w' := Apply(w, s);
    if PreemptsNone(w, s) {
      assert forall j :: Live(w', j, OfBackup(k), PruneJob) ==> Live(w, j, OfBackup(k), PruneJob);
      SameIsLocated(w, w, w', k, base);
    } else {
      PreemptionConserves(w, s.k, s.inp, k, base);
    }
    FollowedIsCalm(w, w', k, base);
  }

  lemma PreemptionConserves(w: World, r: Key, inp: Inputs, k: Key, base: map<Workload, int>)
    requires Kept(w) && Calm(w, k, base) && Enabled(w, RestoreStep(r, inp)) && PreemptsCarefully(w, k, r, inp)
    ensures var w' := RestoreReconcile(w, r, inp); Located(w', k, base) && (Adrift(w', k, base) ==> Adrift(w, k, base))
  {
    var keys, self := RestorePVCKeys(w.restores[r]), OfRestore(w.restores[r].key);
    var holders := BackupHolders(w, inp.backupList, keys, self);
    HoldersOnce(w, inp.backupList, keys, self);
    forall h | h in holders && h != k ensures Apart(w, h, k) {
      assert Preempted(w, h, r);
    }
    InterruptAllConserves(w, holders, inp, k, base);
    PreemptedConserves(w, RestoreReconcile(w, r, inp), r, inp, k, base);
  }

  lemma PreemptedConserves(w: World, w': World, r: Key, inp: Inputs, k: Key, base: map<Workload, int>)
    requires r in w.restores && Keyed(w) && Located(w, k, base)
    requires var p := Preempt(w, w.restores[r], inp); Located(p, k, base) && (Adrift(p, k, base) ==> Adrift(w, k, base))
    requires OnlyRestore(w, w', r) && Preempts(w, w', r, inp)
    ensures Located(w', k, base) && (Adrift(w', k, base) ==> Adrift(w, k, base))
  {
    assert forall j :: Live(w', j, OfBackup(k), PruneJob) ==> Live(w, j, OfBackup(k), PruneJob);
    if w'.backups == w.backups && w'.scene == w.scene {
      SameIsLocated(w, w, w', k, base);
    } else {
      SameIsLocated(w, Preempt(w, w.restores[r], inp), w', k, base);
    }
  }

  lemma SameIsLocated(w: World, p: World, w': World, k: Key, base: map<Workload, int>)
    requires Located(w, k, base) && Located(p, k, base) && (Adrift(p, k, base) ==> Adrift(w, k, base))
    requires w'.backups == p.backups && w'.scene == p.scene && w'.runs == p.runs
    requires forall j :: Live(w', j, OfBackup(k), PruneJob) ==> Live(w, j, OfBackup(k), PruneJob)
    ensures Located(w', k, base) && (Adrift(w', k, base) ==> Adrift(w, k, base))
  {
    if Adrift(p, k, base) {
      assert Adrift(w', k, base);
    } else {
      NoLongerAdrift(p, w', k, base);
    }
  }

  lemma NoLongerAdrift(p: World, w': World, k: Key, base: map<Workload, int>)
    requires Located(p, k, base) && !Adrift(p, k, base)
    requires w'.backups == p.backups && w'.scene == p.scene && w'.runs == p.runs
    ensures Located(w', k, base) && !Adrift(w', k, base)
  {
    if Adrift(w', k, base) {
      PlainWorkloads(p.backups[k]);
      SavedNonempty(p.backups[k].meta.quiesce, Ws(p.backups[k]), base);
    }
  }

  lemma ExternalConserves(w: World, s: Step, k: Key, base: map<Workload, int>)
    requires Kept(w) && Calm(w, k, base) && Enabled(w, s) && Careful(w, s, k) && External(s)
    ensures Calm(Apply(w, s), k, base)
  {
    ExternalBackups(w, s);
    ExternalLeaves(w, s, k);
    ExternalAges(w, s);
    AgesLive(w, Apply(w, s));
    OthersConserve(w, Apply(w, s), k, base);
    FollowedIsCalm(w, Apply(w, s), k, base);
  }

  lemma ExternalLeaves(w: World, s: Step, k: Key)
    requires Enabled(w, s) && k in w.backups && Careful(w, s, k) && External(s) && Present(w.scene, Ws(w.backups[k]))
    ensures var w' := Apply(w, s);
            k in w'.backups && w'.backups[k].meta.quiesce == w.backups[k].meta.quiesce &&
            (if k in w.runs then k in w'.runs && w'.runs[k] == w.runs[k] else k !in w'.runs) &&
            forall v :: v in Ws(w.backups[k]) ==> v in w'.scene.replicas && w'.scene.replicas[v] == w.scene.replicas[v]
  {
  }

  lemma StepConserves(w: World, s: Step, k: Key, base: map<Workload, int>)
    requires Inv(w) && Kept(w) && Calm(w, k, base) && Enabled(w, s) && Careful(w, s, k)
    ensures Calm(Apply(w, s), k, base)
  {
    if External(s) {
      ExternalConserves(w, s, k, base);
    } else if s.RestoreStep? {
      RestoreStepConserves(w, s, k, base);
    } else if s.k == k {
      OwnStepConserves(w, s, k, base);
    } else {
      OtherStepConserves(w, s, k, base);
    }
  }

  lemma IdentityStays(w: World, s: Step, k: Key)
    requires Enabled(w, s) && k in w.backups
    ensures k in Apply(w, s).backups && SameIdentity(w.backups[k], Apply(w, s).backups[k])
  {
    if External(s) { ExternalBackups(w, s); }
  }

  ghost predicate CarefulAt(trace: seq<World>, steps: seq<Step>, i: nat, k: Key)
    requires IsRun(trace, steps) && i < |steps|
  {
    Careful(trace[i], steps[i], k)
  }

  /** Steps m to n of a run are careful with k. */
  ghost predicate IsCarefulRun(trace: seq<World>, steps: seq<Step>, m: nat, n: nat, k: Key) {
    IsRun(trace, steps) && m <= n < |trace| && forall i :: m <= i < n ==> CarefulAt(trace, steps, i, k)
  }

  lemma CarefulStepConserves(trace: seq<World>, steps: seq<Step>, i: nat, k: Key, base: map<Workload, int>)
    requires IsRun(trace, steps) && i < |steps| && CarefulAt(trace, steps, i, k)
    ensures CalmStep(trace, i, k, base)
  {
    if Calm(trace[i], k, base) {
      KeptAlways(trace, steps, i);
      InvAlways(trace, steps, i);
      StepConserves(trace[i], steps[i], k, base);
    }
  }

  /** Along careful steps the counts of k's targets are never lost: they are in the cluster, in the open run, or in the
      annotation of a backup whose status points at the Job it waits for or whose next reconcile will adopt that Job. */
  lemma CountsNeverLost(trace: seq<World>, steps: seq<Step>, m: nat, n: nat, k: Key, base: map<Workload, int>)
    requires IsCarefulRun(trace, steps, m, n, k) && Calm(trace[m], k, base)
    ensures Calm(trace[n], k, base)
  {
    forall i | m <= i < n ensures CalmStep(trace, i, k, base) {
      CarefulStepConserves(trace, steps, i, k, base);
    }
    CalmAlong(trace, m, n, k, base);
  }

  ghost predicate CalmStep(trace: seq<World>, i: nat, k: Key, base: map<Workload, int>)
    requires i + 1 < |trace|
  {
    Calm(trace[i], k, base) ==> Calm(trace[i + 1], k, base)
  }

  lemma {:induction false} CalmAlong(trace: seq<World>, m: nat, n: nat, k: Key, base: map<Workload, int>)
    requires m <= n < |trace| && Calm(trace[m], k, base) && forall i :: m <= i < n ==> CalmStep(trace, i, k, base)
    ensures Calm(trace[n], k, base)
  {
    if m < n {
      CalmAlong(trace, m, n - 1, k, base);
      assert CalmStep(trace, n - 1, k, base);
    }
  }

  lemma {:induction false} IdentityAlong(trace: seq<World>, steps: seq<Step>, m: nat, n: nat, k: Key)
    requires IsRun(trace, steps) && m <= n < |trace| && k in trace[m].backups
    ensures k in trace[n].backups && SameIdentity(trace[m].backups[k], trace[n].backups[k])
  {
    if m < n {
      IdentityAlong(trace, steps, m, n - 1, k);
      IdentityStays(trace[n - 1], steps[n - 1], k);
    }
  }

  /** Whenever a backup has nothing in flight again, every target has the replica count it had before, however many
      backups ran, failed, were cancelled or were preempted in between. */
  lemma ReplicasConserved(trace: seq<World>, steps: seq<Step>, m: nat, n: nat, k: Key)
    requires IsCarefulRun(trace, steps, m, n, k) && k in trace[m].backups && Plain(trace[m].backups[k])
    requires k !in trace[m].runs && trace[m].backups[k].meta.quiesce == map[]
    requires Present(trace[m].scene, Ws(trace[m].backups[k]))
    requires k !in trace[n].runs && k in trace[n].backups && trace[n].backups[k].meta.quiesce == map[]
    ensures forall v :: v in Ws(trace[m].backups[k]) ==>
              v in trace[n].scene.replicas && trace[n].scene.replicas[v] == trace[m].scene.replicas[v]
  {
    var base := trace[m].scene.replicas;
    KeptAlways(trace, steps, m);
    AtRestIsCalm(trace[m], k, base);
    CountsNeverLost(trace, steps, m, n, k, base);
    IdentityAlong(trace, steps, m, n, k);
    PlainWorkloads(trace[n].backups[k]);
    if InAnnotation(trace[n], k, base) || Adrift(trace[n], k, base) {
      SavedNonempty(trace[n].backups[k].meta.quiesce, Ws(trace[n].backups[k]), base);
    }
  }

  // ---------------------------------------------------------------------
  // Why each condition is there

  /** Preempting an active backup with nothing recorded and no open run, such as one that found the session busy after
      its quiesce and still says Quiescing, keeps the counts if and only if all targets were at one. */
  lemma InterruptConservesIff(w: World, k: Key, inp: Inputs, base: map<Workload, int>)
    requires Keyed(w) && k in w.backups && Plain(w.backups[k]) && AtRest(w, k, base) && Quietly(inp, Ws(w.backups[k]))
    ensures At(Interrupt(w, k, inp).scene, Ws(w.backups[k]), base) <==> AllAtOne(w.scene, Ws(w.backups[k]))
  {
    var ws, w' := Ws(w.backups[k]), Interrupt(w, k, inp);
    FailEnds(StopJobs(w, k, inp), w.backups[k], inp);
    EndFallsBack(StopJobs(w, k, inp), w', w.backups[k], inp);
    if At(w'.scene, ws, base) {
      forall v | v in ws ensures w.scene.replicas[v] == 1 {
        assert w'.scene.replicas[v] == 1 == base[v];
      }
    }
  }

  /** The status write that ends a successful run gets lost: the record is gone, the next poll ends the run again
      and puts every target at one replica. */
  lemma LostCompletionFallsBack(w: World, k: Key, inp: Inputs, again: Inputs, base: map<Workload, int>)
    requires k in w.backups && w.backups[k].key == k && Plain(w.backups[k]) && Present(w.scene, Ws(w.backups[k]))
    requires InAnnotation(w, k, base) && Quietly(inp, Ws(w.backups[k])) && Quietly(again, Ws(w.backups[k]))
    requires var job := Key(k.ns, w.backups[k].status.lastJobName); job in w.jobs && w.jobs[job].succeeded > 0
    requires WriteDone in inp.faults
    ensures var w1 := PollBackup(w, w.backups[k], inp);
            At(w1.scene, Ws(w.backups[k]), base) && k in w1.backups && w1.backups[k].key == k &&
            AllAtOne(PollBackup(w1, w1.backups[k], again).scene, Ws(w.backups[k]))
  {
    var b := w.backups[k];
    var w1 := PollBackup(w, b, inp);
    PollEndsRun(w, b, inp);
    EndSettles(w, w1, b, inp, base);
    LostWriteKeepsStatus(w, b, inp);
    PollEndsRun(w1, w1.backups[k], again);
    EndFallsBack(w1, PollBackup(w1, w1.backups[k], again), w1.backups[k], again);
  }

  /** The annotation patch of a launch fails while its status write lands: the counts are gone with the run, and the end
      of the Job puts every target at one replica. */
  lemma FailedRecordFallsBack(w: World, k: Key, inp: Inputs, again: Inputs, base: map<Workload, int>)
    requires Wellformed(w) && Calm(w, k, base) && k in w.runs && !Aborts(w, k, inp) && CreateJob !in inp.faults
    requires PatchAnnotation in inp.faults && Lands(w, k, inp) && Key(k.ns, LaunchName(w.runs[k])) !in w.jobs
    requires Quietly(again, Ws(w.backups[k]))
    ensures var w1, n := Launch(w, k, inp), Key(k.ns, LaunchName(w.runs[k]));
            k in w1.backups && w1.backups[k].key == k && n in w1.jobs &&
            var w2 := w1.(jobs := w1.jobs[n := w1.jobs[n].(succeeded := 1)]);
            AllAtOne(PollBackup(w2, w2.backups[k], again).scene, Ws(w.backups[k]))
  {
    var w1, n := Launch(w, k, inp), Key(k.ns, LaunchName(w.runs[k]));
    UnrecordedLaunch(w, k, inp);
    var w2 := w1.(jobs := w1.jobs[n := w1.jobs[n].(succeeded := 1)]);
    var b := w2.backups[k];
    PollEndsRun(w2, b, again);
    EndFallsBack(w2, PollBackup(w2, b, again), b, again);
  }

  lemma UnrecordedLaunch(w: World, k: Key, inp: Inputs)
    requires Wellformed(w) && k in w.runs && k in w.backups && w.backups[k].key == k && !Aborts(w, k, inp)
    requires CreateJob !in inp.faults && PatchAnnotation in inp.faults && Lands(w, k, inp)
    requires Key(k.ns, LaunchName(w.runs[k])) !in w.jobs && w.runs[k].b.meta.quiesce == map[]
    requires w.backups[k].meta.quiesce == map[]
    ensures var w1, n := Launch(w, k, inp), Key(k.ns, LaunchName(w.runs[k]));
            w1.backups[k].meta.quiesce == map[] && w1.backups[k].key == k && w1.scene == w.scene && n in w1.jobs &&
            w1.backups[k].status.lastJobName == n.name
  {
    var run := w.runs[k];
    var b := run.b.(status := run.b.status.(phase := Uploading));
    var named := b.(status := b.status.(lastJobName := LaunchName(run)));
    var w1 := WithJob(w, k);
    assert PersistQuiesce(w1, b, run.quiesced, inp.faults) == Mem(w1, b);
    var r := WriteStatus(w1, named, WriteUploading, inp.faults);
    assert r.ok && r.b.status == named.status;
    assert Launch(w, k, inp) == PollBackup(r.w, r.b, inp) == r.w;
  }

  /** A preemption whose status write gets lost: the record is gone, the Job is gone, the phase still says Uploading, and
      the next poll puts every target at one replica. */
  lemma LostPreemptionFallsBack(w: World, k: Key, inp: Inputs, again: Inputs, base: map<Workload, int>)
    requires Keyed(w) && k in w.backups && Plain(w.backups[k]) && Present(w.scene, Ws(w.backups[k]))
    requires InAnnotation(w, k, base) && Quietly(inp, Ws(w.backups[k])) && Quietly(again, Ws(w.backups[k]))
    requires WriteFailed in inp.faults
    ensures var w1 := Interrupt(w, k, inp);
            At(w1.scene, Ws(w.backups[k]), base) && k in w1.backups && w1.backups[k].key == k &&
            w1.backups[k].status == w.backups[k].status &&
            AllAtOne(PollBackup(w1, w1.backups[k], again).scene, Ws(w.backups[k]))
  {
    var stopped, b := StopJobs(w, k, inp), w.backups[k];
    var w1 := Interrupt(w, k, inp);
    FailEnds(stopped, b, inp);
    EndSettles(stopped, w1, b, inp, base);
    assert Key(k.ns, b.status.lastJobName) !in w1.jobs;
    PollEndsRun(w1, w1.backups[k], again);
    EndFallsBack(w1, PollBackup(w1, w1.backups[k], again), w1.backups[k], again);
  }

  /** A target that cannot be scaled when the run ends stays where it is, and its count is gone with the record. */
  lemma ScaleFaultLosesCount(w: World, b: PVCBackup, inp: Inputs, v: Workload)
    requires Synced(w, b) && !b.spec.leaveDown && PatchAnnotation !in inp.faults && PollEnds(w, b)
    requires v in w.scene.replicas && ScaleFault(v) in inp.scaleFaults
    ensures var w' := PollBackup(w, b, inp);
            w'.backups[b.key].meta.quiesce == map[] && v in w'.scene.replicas && w'.scene.replicas[v] == w.scene.replicas[v]
  {
    PollEndsRun(w, b, inp);
  }

  lemma LostWriteKeepsStatus(w: World, b: PVCBackup, inp: Inputs)
    requires Known(w, b) && WriteDone in inp.faults
    requires var job := Key(b.key.ns, b.status.lastJobName); job in w.jobs && w.jobs[job].succeeded > 0
    ensures PollBackup(w, b, inp).backups[b.key].status == w.backups[b.key].status
  {
  }

  /** A run records what it finds: the counts its quiesce read, whatever an earlier run left in the annotation. */
  lemma RunRecordsScene(w: World, k: Key, inp: Inputs)
    requires k in w.backups && w.backups[k].key == k && NeedQuiesce(w.backups[k].spec)
    requires k !in w.runs && k in Reconcile(w, k, inp).runs
    ensures var b := w.backups[k];
            Reconcile(w, k, inp).runs[k].quiesced == Quiesce(w.scene, b.spec.targets, k.ns, inp.scaleFaults).state
  {
    var b := w.backups[k];
    assert Reconcile(w, k, inp) == Claim(w, b, inp) by { OnlyClaimOpens(w, k, inp); }
    var r := ClaimToken(w, b, inp);
    PrepareRecordsScene(r.w, r.b, ForceRunPending(b), inp);
  }

  lemma OnlyClaimOpens(w: World, k: Key, inp: Inputs)
    requires k in w.backups && w.backups[k].key == k && k !in w.runs && k in Reconcile(w, k, inp).runs
    ensures Reconcile(w, k, inp) == Claim(w, w.backups[k], inp)
  {
  }

  lemma PrepareRecordsScene(w: World, b: PVCBackup, forced: bool, inp: Inputs)
    requires Known(w, b) && NeedQuiesce(b.spec) && b.key !in w.runs && b.key in Prepare(w, b, forced, inp).runs
    ensures Prepare(w, b, forced, inp).runs[b.key].quiesced == Quiesce(w.scene, b.spec.targets, b.key.ns, inp.scaleFaults).state
  {
    var r := WriteStatus(w, b.(status := b.status.(phase := Quiescing)), WriteQuiescing, inp.faults);
    var q := Quiesce(r.w.scene, b.spec.targets, b.key.ns, inp.scaleFaults);
    assert Prepare(w, b, forced, inp) == AfterQuiesce(r.w.(scene := q.scene), r.b, q, forced, inp);
    AfterQuiesceOpens(r.w.(scene := q.scene), r.b, q, forced, inp);
  }

  lemma AfterQuiesceOpens(w: World, b: PVCBackup, q: Quiet, forced: bool, inp: Inputs)
    requires Known(w, b) && b.key !in w.runs
    ensures b.key in AfterQuiesce(w, b, q, forced, inp).runs ==>
              AfterQuiesce(w, b, q, forced, inp).runs[b.key].quiesced == q.state
  {
  }

  /** A run opened while the targets are already down, after a crash lost the run that took them down or after a lost
      status write whose Job has ended, records zero for all of them: their counts are gone. */
  lemma RunOverDownedTargets(w: World, k: Key, inp: Inputs)
    requires k in w.backups && w.backups[k].key == k && Plain(w.backups[k])
    requires k !in w.runs && k in Reconcile(w, k, inp).runs && NoFault(Ws(w.backups[k]), inp.scaleFaults)
    requires forall v :: v in Ws(w.backups[k]) ==> v in w.scene.replicas && w.scene.replicas[v] == 0
    ensures forall v :: v in Ws(w.backups[k]) ==>
              KeyOf(v) in Reconcile(w, k, inp).runs[k].quiesced && Reconcile(w, k, inp).runs[k].quiesced[KeyOf(v)] == 0
  {
    RunRecordsScene(w, k, inp);
    QuiesceSaves(w.backups[k], w.scene, w.scene.replicas, inp.scaleFaults);
  }
}
