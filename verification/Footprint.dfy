/** A backup scales and records its own quiesce targets and nothing else. */
module Footprint {
  import opened Text
  import opened Types
  import opened Workloads
  import opened JobNames
  import opened Protocol
  import opened OneJob
  import opened Isolation

  /** The recorded-state keys of a backup's targets. */
  ghost function Own(b: PVCBackup): set<string> {
    set t | t in b.spec.targets :: TargetKey(t, b.key.ns)
  }

  /** Only workloads keyed by `keys` may differ in their replica count. */
  ghost predicate Elsewhere(s: Scene, s': Scene, keys: set<string>) {
    s'.replicas.Keys == s.replicas.Keys &&
    forall v :: v in s.replicas && KeyOf(v) !in keys ==> s'.replicas[v] == s.replicas[v]
  }

  /** The in-memory and the stored copy of b have recorded targets of b only. */
  ghost predicate Recorded(w: World, b: PVCBackup) {
    Known(w, b) && b.meta.quiesce.Keys <= Own(b) && w.backups[b.key].meta.quiesce.Keys <= Own(b)
  }

  lemma UnquiesceWithin(s: Scene, state: map<string, int>, keys: set<string>, faults: set<Fault>)
    requires state.Keys <= keys
    ensures Elsewhere(s, Unquiesce(s, state, faults), keys)
  {
  }

  lemma {:induction false} QuiesceWithin(s: Scene, targets: seq<Target>, ns: string, keys: set<string>, faults: set<Fault>)
    requires forall t :: t in targets ==> TargetKey(t, ns) in keys
    ensures var q := Quiesce(s, targets, ns, faults); Elsewhere(s, q.scene, keys) && q.state.Keys <= keys
  {
    if targets != [] {
      QuiesceWithin(s, targets[..|targets| - 1], ns, keys, faults);
    }
  }

  lemma ReleaseStateOwn(b: PVCBackup)
    requires b.meta.quiesce.Keys <= Own(b)
    ensures ReleaseState(b).Keys <= Own(b)
  {
  }

  lemma ReleaseWithin(w: World, b: PVCBackup, inp: Inputs)
    requires Recorded(w, b)
    ensures var m := ReleaseQuiesce(w, b, inp); Recorded(m.w, m.b) && Elsewhere(w.scene, m.w.scene, Own(b))
  {
    ReleaseStateOwn(b);
    UnquiesceWithin(w.scene, ReleaseState(b), Own(b), inp.scaleFaults);
  }

  lemma FailWithin(w: World, b: PVCBackup, inp: Inputs)
    requires Recorded(w, b)
    ensures var m := Fail(w, b, inp);
            Recorded(m.w, m.b) && Recorded(m.w, m.w.backups[b.key]) && Elsewhere(w.scene, m.w.scene, Own(b))
  {
    if w.backups[b.key].status.phase.Failed? {
      ReleaseWithin(w, w.backups[b.key], inp);
    } else {
      ReleaseWithin(w, b, inp);
    }
  }

  lemma DeferredWithin(w: World, leaveDown: bool, state: map<string, int>, keys: set<string>, inp: Inputs)
    requires state.Keys <= keys
    ensures var w' := Deferred(w, leaveDown, state, inp);
            Elsewhere(w.scene, w'.scene, keys) && w'.backups == w.backups && w'.runs == w.runs
  {
    UnquiesceWithin(w.scene, state, keys, inp.scaleFaults);
  }

  /** A step of the owner of k keeps its footprint: the scene, the stored record and the open run. */
  ghost predicate Within(w: World, w': World, k: Key)
    requires k in w.backups
  {
    && k in w'.backups && SameIdentity(w.backups[k], w'.backups[k])
    && Elsewhere(w.scene, w'.scene, Own(w.backups[k]))
    && w'.backups[k].meta.quiesce.Keys <= Own(w.backups[k])
    && (k in w'.runs && k !in w.runs ==> OwnRun(w', k))
  }

  ghost predicate OwnRun(w: World, k: Key)
    requires k in w.runs
  {
    k in w.backups && w.runs[k].quiesced.Keys <= Own(w.backups[k]) && Recorded(w, w.runs[k].b)
  }

  lemma PollWithin(w: World, b: PVCBackup, inp: Inputs)
    requires Recorded(w, b)
    ensures Within(w, PollBackup(w, b, inp), b.key)
  {
    var job := Key(b.key.ns, b.status.lastJobName);
    if job in w.jobs && w.jobs[job].succeeded > 0 {
      ReleaseWithin(w, b, inp);
    } else {
      FailWithin(w, b, inp);
    }
  }

  lemma {:induction false} SnapshotStepsWithin(w: World, b: PVCBackup, steps: seq<string>, inp: Inputs)
    requires Recorded(w, b)
    ensures var s := SnapshotSteps(w, b, steps, inp);
            Recorded(s.m.w, s.m.b) && s.m.w.scene == w.scene
  {
    if steps != [] {
      SnapshotStepsWithin(w, b, steps[..|steps| - 1], inp);
    }
  }

  lemma SnapshotWithin(w: World, b: PVCBackup, state: map<string, int>, forced: bool, inp: Inputs)
    requires Recorded(w, b) && state.Keys <= Own(b)
    ensures Within(w, Snapshot(w, b, state, forced, inp), b.key)
  {
    SnapshotStepsWithin(w, b, Pipeline(b.spec), inp);
    var s := SnapshotSteps(w, b, Pipeline(b.spec), inp);
    FailWithin(s.m.w, s.m.b, inp);
    DeferredWithin(Fail(s.m.w, s.m.b, inp).w, b.spec.leaveDown, state, Own(b), inp);
  }

  lemma AfterQuiesceWithin(w: World, b: PVCBackup, q: Quiet, forced: bool, inp: Inputs)
    requires Recorded(w, b) && q.state.Keys <= Own(b)
    ensures Within(w, AfterQuiesce(w, b, q, forced, inp), b.key)
  {
    FailWithin(w, b, inp);
    DeferredWithin(Fail(w, b, inp).w, b.spec.leaveDown, q.state, Own(b), inp);
    SnapshotWithin(w, b, q.state, forced, inp);
  }

  lemma QuiescingWithin(w: World, b: PVCBackup, forced: bool, inp: Inputs)
    requires Recorded(w, b)
    ensures var r := WriteStatus(w, b.(status := b.status.(phase := Quiescing)), WriteQuiescing, inp.faults);
            var q := Quiesce(r.w.scene, b.spec.targets, b.key.ns, inp.scaleFaults);
            Within(w, r.w, b.key) && Within(w, AfterQuiesce(r.w.(scene := q.scene), r.b, q, forced, inp), b.key)
  {
    var r := WriteStatus(w, b.(status := b.status.(phase := Quiescing)), WriteQuiescing, inp.faults);
    QuiesceWithin(r.w.scene, b.spec.targets, b.key.ns, Own(b), inp.scaleFaults);
    var q := Quiesce(r.w.scene, b.spec.targets, b.key.ns, inp.scaleFaults);
    AfterQuiesceWithin(r.w.(scene := q.scene), r.b, q, forced, inp);
  }

  lemma PrepareWithin(w: World, b: PVCBackup, forced: bool, inp: Inputs)
    requires Recorded(w, b)
    ensures Within(w, Prepare(w, b, forced, inp), b.key)
  {
    if GetRepo in inp.faults || BackupBusy(w, b, inp) || EnsureSecrets in inp.faults {
      FailWithin(w, b, inp);
    } else if !NeedQuiesce(b.spec) {
      SnapshotWithin(w, b, map[], forced, inp);
    } else {
      QuiescingWithin(w, b, forced, inp);
    }
  }

  lemma ClaimWithin(w: World, b: PVCBackup, inp: Inputs)
    requires Recorded(w, b)
    ensures Within(w, Claim(w, b, inp), b.key)
  {
    PrepareWithin(w, b, false, inp);
    var r := WriteStatus(w, b.(status := b.status.(lastForceRun := b.meta.forceRun)), WriteToken, inp.faults);
    PrepareWithin(r.w, r.b, true, inp);
  }

  lemma CancelWithin(w: World, b: PVCBackup, inp: Inputs)
    requires Recorded(w, b)
    ensures Within(w, Cancel(w, b, inp), b.key)
  {
    var b1 := b.(status := b.status.(lastForceCancel := b.meta.forceCancel));
    var w1 := DeleteJob(w, b.key.ns, b.status.lastJobName);
    if CancelPhaseBusy(b.status.phase) && !b.status.phase.Pruning? {
      FailWithin(w1, b1, inp);
    } else {
      StatusWritesWithin(w1, b1, inp);
    }
  }

  lemma StatusWritesWithin(w: World, b: PVCBackup, inp: Inputs)
    requires Recorded(w, b)
    ensures Within(w, FailPrune(w, b, inp), b.key)
    ensures Within(w, WriteStatus(w, b, WriteCancel, inp.faults).w, b.key)
  {
  }

  lemma AdoptWithin(w: World, b: PVCBackup, job: Key, inp: Inputs)
    requires Recorded(w, b)
    ensures Within(w, AdoptBackup(w, b, job, inp), b.key)
  {
    var r := WriteStatus(w, b.(status := b.status.(phase := Uploading, lastJobName := job.name)), WriteAdopted, inp.faults);
    PollWithin(r.w, r.b, inp);
  }

  /** Reconciling a backup scales only its own targets, and what it records or holds on to is keyed by them. */
  lemma ReconcileWithin(w: World, k: Key, inp: Inputs)
    requires k in w.backups && w.backups[k].key == k && Recorded(w, w.backups[k])
    ensures Within(w, Reconcile(w, k, inp), k)
  {
    var b := w.backups[k];
    if PvcList(b.spec) == [] {
      FailWithin(w, b, inp);
    } else if DealsWithPrune(w, k, inp) {
      PruneIsolated(w, k, inp);
    } else if ForceCancelPending(b) {
      CancelWithin(w, b, inp);
    } else if b.status.phase.Uploading? && b.status.lastJobName != "" {
      PollWithin(w, b, inp);
    } else {
      RunBranchWithin(w, k, inp);
    }
  }

  lemma RunBranchWithin(w: World, k: Key, inp: Inputs)
    requires k in w.backups && w.backups[k].key == k && Recorded(w, w.backups[k])
    requires var b := w.backups[k];
             PvcList(b.spec) != [] && !DealsWithPrune(w, k, inp) && !ForceCancelPending(b) &&
             !(b.status.phase.Uploading? && b.status.lastJobName != "")
    ensures Within(w, Reconcile(w, k, inp), k)
  {
    var b := w.backups[k];
    RunBranches(w, k, inp);
    if FindBackupJob(w, k, inp).Some? {
      AdoptWithin(w, b, FindBackupJob(w, k, inp).value, inp);
    } else if Starts(w, b) {
      ClaimWithin(w, b, inp);
    } else {
      FailWithin(w, b, inp);
      WaitWithin(w, b, inp);
    }
  }

  lemma WaitWithin(w: World, b: PVCBackup, inp: Inputs)
    requires Recorded(w, b)
    ensures Within(w, w, b.key) && Within(w, WaitForSlot(w, b, inp), b.key)
  {
  }

  lemma UploadWithin(w: World, b: PVCBackup, state: map<string, int>, name: string, inp: Inputs)
    requires Recorded(w, b) && state.Keys <= Own(b)
    ensures Within(w, Upload(w, b, state, name, inp), b.key)
  {
    var p := PersistQuiesce(w, b, state, inp.faults);
    var r := WriteStatus(p.w, p.b.(status := p.b.status.(lastJobName := name)), WriteUploading, inp.faults);
    PollWithin(r.w, r.b, inp);
  }

  lemma LaunchWithin(w: World, k: Key, inp: Inputs)
    requires Wellformed(w) && k in w.runs && OwnRun(w, k)
    ensures Within(w, Launch(w, k, inp), k)
  {
    var run := w.runs[k];
    var b := run.b.(status := run.b.status.(phase := Uploading));
    DeferredWithin(Close(w, k), run.b.spec.leaveDown, run.quiesced, Own(b), inp);
    FailWithin(Close(w, k), b, inp);
    DeferredWithin(Fail(Close(w, k), b, inp).w, b.spec.leaveDown, run.quiesced, Own(b), inp);
    UploadWithin(WithJob(w, k), b, run.quiesced, LaunchName(run), inp);
  }

  lemma InterruptWithin(w: World, k: Key, inp: Inputs)
    requires k in w.backups && w.backups[k].key == k && Recorded(w, w.backups[k])
    ensures Within(w, Interrupt(w, k, inp), k)
  {
    FailWithin(StopJobs(w, k, inp), w.backups[k], inp);
  }

  // ---------------------------------------------------------------------
  // Over every run

  /** Everything recorded or held for a backup is keyed by its own targets. */
  ghost predicate Kept(w: World) {
    && Wellformed(w)
    && (forall k :: k in w.backups ==> w.backups[k].meta.quiesce.Keys <= Own(w.backups[k]))
    && (forall k :: k in w.runs ==> OwnRun(w, k))
  }

  lemma OwnerKeeps(w: World, w': World, k: Key)
    requires Kept(w) && k in w.backups && OnlyOwner(w, w', k) && Within(w, w', k) && Wellformed(w')
    requires k in w.runs ==> k !in w'.runs
    ensures Kept(w')
  {
    forall i | i in w'.runs ensures OwnRun(w', i) {
      if i != k {
        assert i in w'.runs - {k} && w'.runs[i] == (w'.runs - {k})[i];
      }
    }
  }

  lemma InterruptKeeps(w: World, w': World, k: Key)
    requires Kept(w) && k in w.backups && OnlyBackups(w, w') && w'.backups == w.backups[k := w'.backups[k]]
    requires w'.backups[k].meta.quiesce.Keys <= Own(w.backups[k])
    ensures Kept(w')
  {
  }

  lemma {:induction false} InterruptAllKeeps(w: World, holders: seq<Key>, inp: Inputs)
    requires Kept(w) && forall h :: h in holders ==> h in w.backups
    ensures Kept(InterruptAll(w, holders, inp))
  {
    if holders != [] {
      var front, h := holders[..|holders| - 1], holders[|holders| - 1];
      InterruptAllKeeps(w, front, inp);
      var init := InterruptAll(w, front, inp);
      if BackupPhaseActive(init.backups[h].status.phase) {
        InterruptWithin(init, h, inp);
        InterruptKeeps(init, Interrupt(init, h, inp), h);
      }
    }
  }

  lemma RestoreKeepsOwn(w: World, w': World, r: Key, inp: Inputs)
    requires Kept(w) && r in w.restores && OnlyRestore(w, w', r) && Preempts(w, w', r, inp) && Wellformed(w')
    ensures Kept(w')
  {
    InterruptAllKeeps(w, BackupHolders(w, inp.backupList, RestorePVCKeys(w.restores[r]), OfRestore(w.restores[r].key)), inp);
    if w'.backups == w.backups {
      SameIsKept(w, w');
    } else {
      SameIsKept(Preempt(w, w.restores[r], inp), w');
    }
  }

  lemma SameIsKept(w: World, w': World)
    requires Kept(w) && w'.backups == w.backups && w'.runs == w.runs && Wellformed(w')
    ensures Kept(w')
  {
  }

  lemma ExternalKeepsOwn(w: World, s: Step)
    requires Kept(w) && Enabled(w, s) && External(s) && Wellformed(Apply(w, s))
    ensures Kept(Apply(w, s))
  {
    ExternalWellformed(w, s);
    ExternalRecords(w, s);
    RecordsKept(w, Apply(w, s));
  }

  ghost predicate SameRecord(b: PVCBackup, b': PVCBackup) {
    SameIdentity(b, b') && b'.meta.quiesce == b.meta.quiesce
  }

  /** No environment step writes a quiesce record. */
  lemma ExternalRecords(w: World, s: Step)
    requires Enabled(w, s) && External(s)
    ensures forall k :: k in Apply(w, s).backups && k !in w.backups ==> Apply(w, s).backups[k].meta.quiesce == map[]
    ensures forall k :: k in w.backups ==> k in Apply(w, s).backups && SameRecord(w.backups[k], Apply(w, s).backups[k])
  {
  }

  lemma RecordsKept(w: World, w': World)
    requires Kept(w) && Wellformed(w')
    requires forall k :: k in w'.runs ==> k in w.runs && w'.runs[k] == w.runs[k]
    requires forall k :: k in w'.backups && k !in w.backups ==> w'.backups[k].meta.quiesce == map[]
    requires forall k :: k in w.backups ==> k in w'.backups && SameRecord(w.backups[k], w'.backups[k])
    ensures Kept(w')
  {
    forall k | k in w'.backups ensures w'.backups[k].meta.quiesce.Keys <= Own(w'.backups[k]) {
      if k in w.backups { assert Own(w'.backups[k]) == Own(w.backups[k]); }
    }
  }

  lemma StepKeepsFootprint(w: World, s: Step)
    requires Kept(w) && Enabled(w, s) && Wellformed(Apply(w, s))
    ensures Kept(Apply(w, s))
  {
    match s
    case ReconcileStep(k, inp) =>
      ReconcileWithin(w, k, inp);
      OwnerKeeps(w, Reconcile(w, k, inp), k);
    case LaunchStep(k, inp) =>
      LaunchWithin(w, k, inp);
      OwnerKeeps(w, Launch(w, k, inp), k);
    case RestoreStep(r, inp) => RestoreKeepsOwn(w, RestoreReconcile(w, r, inp), r, inp);
    case _ => ExternalKeepsOwn(w, s);
  }

  lemma {:induction false} KeptAlways(trace: seq<World>, steps: seq<Step>, n: nat)
    requires IsRun(trace, steps) && n < |trace|
    ensures Kept(trace[n])
  {
    InvAlways(trace, steps, n);
    if n > 0 {
      KeptAlways(trace, steps, n - 1);
      StepKeepsFootprint(trace[n - 1], steps[n - 1]);
    }
  }

  /** In every run, whatever a backup's own steps scale is one of its targets, and so is whatever is recorded in
      its annotation for a later release. */
  lemma OnlyOwnTargets(trace: seq<World>, steps: seq<Step>, n: nat, k: Key)
    requires IsRun(trace, steps) && n < |steps| && k in trace[n].backups
    ensures trace[n].backups[k].meta.quiesce.Keys <= Own(trace[n].backups[k])
    ensures (steps[n].ReconcileStep? || steps[n].LaunchStep?) && steps[n].k == k ==>
              Elsewhere(trace[n].scene, trace[n + 1].scene, Own(trace[n].backups[k]))
  {
    KeptAlways(trace, steps, n);
    var w, s := trace[n], steps[n];
    if s.ReconcileStep? && s.k == k {
      ReconcileWithin(w, k, s.inp);
    } else if s.LaunchStep? && s.k == k {
      LaunchWithin(w, k, s.inp);
    }
  }

  // ---------------------------------------------------------------------
  // leaveDown over every run

  /** Only backups that leave their targets down list v. */
  ghost predicate OnlyLeftDown(w: World, v: Workload) {
    forall i :: i in w.backups && KeyOf(v) in Own(w.backups[i]) ==> w.backups[i].spec.leaveDown
  }

  /** v has its old count, or is at zero. */
  ghost predicate NotRaised(s: Scene, s': Scene, v: Workload) {
    v in s.replicas ==> v in s'.replicas && (s'.replicas[v] == s.replicas[v] || s'.replicas[v] == 0)
  }

  lemma OwnerNotRaised(w: World, s: Step, v: Workload)
    requires Kept(w) && Enabled(w, s) && (s.ReconcileStep? || s.LaunchStep?) && OnlyLeftDown(w, v)
    ensures NotRaised(w.scene, Apply(w, s).scene, v)
  {
    if s.ReconcileStep? {
      if KeyOf(v) in Own(w.backups[s.k]) {
        ReconcileNeverRaises(w, s.k, s.inp);
      } else {
        ReconcileWithin(w, s.k, s.inp);
      }
    } else if KeyOf(v) in Own(w.backups[s.k]) {
      LaunchLeavesDown(w, s.k, s.inp);
    } else {
      LaunchWithin(w, s.k, s.inp);
    }
  }

  lemma {:induction false} InterruptAllNotRaised(w: World, holders: seq<Key>, inp: Inputs, v: Workload)
    requires Kept(w) && (forall h :: h in holders ==> h in w.backups) && OnlyLeftDown(w, v)
    ensures NotRaised(w.scene, InterruptAll(w, holders, inp).scene, v)
  {
    if holders != [] {
      var front, h := holders[..|holders| - 1], holders[|holders| - 1];
      InterruptAllNotRaised(w, front, inp, v);
      InterruptAllKeeps(w, front, inp);
      InterruptNotRaised(w, InterruptAll(w, front, inp), h, inp, v);
    }
  }

  lemma InterruptNotRaised(w: World, init: World, h: Key, inp: Inputs, v: Workload)
    requires OnlyLeftDown(w, v) && OnlyBackups(w, init) && Kept(init) && h in w.backups
    ensures NotRaised(init.scene, Interrupt(init, h, inp).scene, v)
  {
    assert Own(init.backups[h]) == Own(w.backups[h]);
    if KeyOf(v) in Own(w.backups[h]) {
      InterruptLeavesDown(init, h, inp);
    } else {
      InterruptWithin(init, h, inp);
    }
  }

  lemma RestoreNotRaised(w: World, w': World, r: Key, inp: Inputs, v: Workload)
    requires Kept(w) && r in w.restores && Preempts(w, w', r, inp) && OnlyLeftDown(w, v)
    ensures NotRaised(w.scene, w'.scene, v)
  {
    InterruptAllNotRaised(w, BackupHolders(w, inp.backupList, RestorePVCKeys(w.restores[r]), OfRestore(w.restores[r].key)), inp, v);
  }

  lemma StepNotRaised(w: World, s: Step, v: Workload)
    requires Kept(w) && Enabled(w, s) && OnlyLeftDown(w, v) && !(s.ScaleByUser? && s.workload == v)
    ensures NotRaised(w.scene, Apply(w, s).scene, v)
  {
    if s.RestoreStep? {
      RestoreNotRaised(w, Apply(w, s), s.k, s.inp, v);
    } else if s.ReconcileStep? || s.LaunchStep? {
      OwnerNotRaised(w, s, v);
    }
  }

  /** leaveDown is absolute: over any stretch of a run in which only leaveDown backups list a workload and no user scales
      it, it keeps its count or is at zero, through every success, failure, cancel, preemption, crash and lost write. */
  lemma {:induction false} LeftDownStaysDown(trace: seq<World>, steps: seq<Step>, m: nat, n: nat, v: Workload)
    requires IsRun(trace, steps) && m <= n < |trace|
    requires forall i :: m <= i < n ==> OnlyLeftDown(trace[i], v) && !(steps[i].ScaleByUser? && steps[i].workload == v)
    ensures NotRaised(trace[m].scene, trace[n].scene, v)
  {
    if m < n {
      LeftDownStaysDown(trace, steps, m, n - 1, v);
      KeptAlways(trace, steps, n - 1);
      StepNotRaised(trace[n - 1], steps[n - 1], v);
    }
  }
}
