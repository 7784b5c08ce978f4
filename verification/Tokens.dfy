/** Force tokens are consumed at most once per write of their annotation. */
module Tokens {
  import opened Text
  import opened Types
  import opened Workloads
  import opened JobNames
  import opened Protocol
  import opened OneJob
  import opened Exclusion

  function Ann(m: Meta, t: Token): string {
    match t
    case RunToken => m.forceRun
    case PruneToken => m.forcePrune
    case CancelToken => m.forceCancel
  }

  function Last(s: BackupStatus, t: Token): string {
    match t
    case RunToken => s.lastForceRun
    case PruneToken => s.lastForcePrune
    case CancelToken => s.lastForceCancel
  }

  /** Each token of s is the one a has recorded, or the one a's annotation carries. */
  ghost predicate ClaimedFrom(a: PVCBackup, s: BackupStatus) {
    forall t :: Last(s, t) == Last(a.status, t) || (Last(s, t) == Ann(a.meta, t) && Ann(a.meta, t) != "")
  }

  ghost predicate SameAnnotations(m: Meta, n: Meta) {
    forall t :: Ann(m, t) == Ann(n, t)
  }

  /** The stored object k of w is a, up to the claiming of tokens. */
  ghost predicate Claims(a: PVCBackup, w: World, k: Key) {
    k in w.backups && SameAnnotations(w.backups[k].meta, a.meta) && ClaimedFrom(a, w.backups[k].status)
  }

  /** Releasing workloads touches no token annotation. */
  lemma ReleaseKeepsAnnotations(w: World, b: PVCBackup, inp: Inputs)
    requires Known(w, b)
    ensures var m := ReleaseQuiesce(w, b, inp);
            SameAnnotations(m.w.backups[b.key].meta, w.backups[b.key].meta) &&
            (SameAnnotations(b.meta, w.backups[b.key].meta) ==> SameAnnotations(m.b.meta, w.backups[b.key].meta))
  {
  }

  lemma FailClaims(a: PVCBackup, w: World, b: PVCBackup, inp: Inputs)
    requires Known(w, b) && Claims(a, w, b.key) && ClaimedFrom(a, b.status)
    ensures Claims(a, Fail(w, b, inp).w, b.key)
  {
    var cur := w.backups[b.key];
    if cur.status.phase.Failed? {
      ReleaseKeepsAnnotations(w, cur, inp);
    } else {
      ReleaseKeepsAnnotations(w, b, inp);
      var r := ReleaseQuiesce(w, b, inp);
      var status := r.b.status.(phase := Failed, lastBackupTime := Some(Sec(w.now)));
      WriteClaims(a, r.w, r.b.(status := status), WriteFailed, inp.faults);
    }
  }

  lemma FailPruneClaims(a: PVCBackup, w: World, b: PVCBackup, inp: Inputs)
    requires Known(w, b) && Claims(a, w, b.key) && ClaimedFrom(a, b.status)
    ensures Claims(a, FailPrune(w, b, inp), b.key)
  {
  }

  lemma PollBackupClaims(a: PVCBackup, w: World, b: PVCBackup, inp: Inputs)
    requires Known(w, b) && Claims(a, w, b.key) && ClaimedFrom(a, b.status) && SameAnnotations(b.meta, a.meta)
    ensures Claims(a, PollBackup(w, b, inp), b.key)
  {
    FailClaims(a, w, b, inp);
    ReleaseKeepsAnnotations(w, b, inp);
    var r := ReleaseQuiesce(w, b, inp);
    var t, force := Some(Sec(w.now)), r.b.meta.forceRun;
    var status := r.b.status.(
      lastForceRun := if force != "" then force else r.b.status.lastForceRun,
      phase := IdlePhase(b.spec), lastBackupTime := t, lastSuccessTime := t);
    assert force == Ann(a.meta, RunToken);
    WriteClaims(a, r.w, r.b.(status := status), WriteDone, inp.faults);
  }

  lemma PollPruneClaims(a: PVCBackup, w: World, b: PVCBackup, inp: Inputs)
    requires Known(w, b) && Claims(a, w, b.key) && ClaimedFrom(a, b.status)
    ensures Claims(a, PollPrune(w, b, inp), b.key)
  {
    FailPruneClaims(a, w, b, inp);
  }

  lemma CancelClaims(w: World, b: PVCBackup, inp: Inputs)
    requires Known(w, b) && b == w.backups[b.key] && ForceCancelPending(b)
    ensures Claims(b, Cancel(w, b, inp), b.key)
  {
    var b1 := b.(status := b.status.(lastForceCancel := b.meta.forceCancel));
    var w1 := DeleteJob(w, b.key.ns, b.status.lastJobName);
    assert Claims(b, w1, b.key) && ClaimedFrom(b, b1.status);
    if !CancelPhaseBusy(b.status.phase) {
      WriteClaims(b, w1, b1, WriteCancel, inp.faults);
    } else if b.status.phase.Pruning? {
      FailPruneClaims(b, w1, b1, inp);
    } else {
      FailClaims(b, w1, b1, inp);
    }
  }

  lemma WriteClaims(a: PVCBackup, w: World, b: PVCBackup, call: Call, faults: set<Call>)
    requires Known(w, b) && Claims(a, w, b.key) && ClaimedFrom(a, b.status)
    ensures var r := WriteStatus(w, b, call, faults);
            Claims(a, r.w, b.key) && ClaimedFrom(a, r.b.status) && (r.ok ==> SameAnnotations(r.b.meta, a.meta))
  {
  }

  lemma StartPruneClaims(w: World, b: PVCBackup, inp: Inputs)
    requires Known(w, b) && b == w.backups[b.key] && ForcePrunePending(b)
    ensures Claims(b, StartPrune(w, b, inp), b.key)
  {
    var claimed := b.(status := b.status.(lastForcePrune := b.meta.forcePrune));
    if b.spec.keepLast.None? || b.spec.keepLast.value <= 0 {
      WriteClaims(b, w, claimed, WritePruneToken, inp.faults);
      var r := WriteStatus(w, claimed, WritePruneToken, inp.faults);
      FailPruneClaims(b, r.w, r.b, inp);
    } else {
      var pruning := claimed.(status := claimed.status.(phase := Pruning));
      WriteClaims(b, w, pruning, WritePruning, inp.faults);
      var r := WriteStatus(w, pruning, WritePruning, inp.faults);
      FailPruneClaims(b, r.w, r.b, inp);
      StartedPruneClaims(b, r.w, r.b, inp);
    }
  }

  lemma StartedPruneClaims(a: PVCBackup, w: World, b: PVCBackup, inp: Inputs)
    requires Known(w, b) && Claims(a, w, b.key) && ClaimedFrom(a, b.status)
    ensures Claims(a, StartedPrune(w, b, inp), b.key)
  {
    var name := PruneJobName(b.key.name, Sec(w.now));
    var job := Job(OfBackup(b.key), PruneJob, Sec(w.now), Sec(w.now), 0, 0, []);
    var w1 := w.(jobs := CreateJobIfAbsent(w.jobs, Key(b.key.ns, name), job));
    var named := b.(status := b.status.(lastJobName := name));
    WriteClaims(a, w1, named, WritePruneJob, inp.faults);
    var s := WriteStatus(w1, named, WritePruneJob, inp.faults);
    PollPruneClaims(a, s.w, s.b, inp);
  }

  lemma AdoptPruneClaims(w: World, b: PVCBackup, job: Key, inp: Inputs)
    requires Known(w, b) && b == w.backups[b.key]
    ensures Claims(b, AdoptPrune(w, b, job, inp), b.key)
  {
    var adopted := b.(status := b.status.(phase := Pruning, lastJobName := job.name));
    WriteClaims(b, w, adopted, WriteAdopted, inp.faults);
    var r := WriteStatus(w, adopted, WriteAdopted, inp.faults);
    PollPruneClaims(b, r.w, r.b, inp);
  }

  lemma AdoptBackupClaims(w: World, b: PVCBackup, job: Key, inp: Inputs)
    requires Known(w, b) && b == w.backups[b.key]
    ensures Claims(b, AdoptBackup(w, b, job, inp), b.key)
  {
    var adopted := b.(status := b.status.(phase := Uploading, lastJobName := job.name));
    WriteClaims(b, w, adopted, WriteAdopted, inp.faults);
    var r := WriteStatus(w, adopted, WriteAdopted, inp.faults);
    if r.ok {
      PollBackupClaims(b, r.w, r.b, inp);
    }
  }

  lemma {:induction false} SnapshotClaims(a: PVCBackup, w: World, b: PVCBackup, steps: seq<string>, inp: Inputs)
    requires Known(w, b) && Claims(a, w, b.key) && ClaimedFrom(a, b.status)
    ensures var s := SnapshotSteps(w, b, steps, inp); Claims(a, s.m.w, b.key) && ClaimedFrom(a, s.m.b.status)
  {
    if steps != [] {
      SnapshotClaims(a, w, b, steps[..|steps| - 1], inp);
      var init := SnapshotSteps(w, b, steps[..|steps| - 1], inp);
      WriteClaims(a, init.m.w, init.m.b.(status := init.m.b.status.(phase := Snapshotting)), WriteSnapshotting, inp.faults);
    }
  }

  lemma SnapshotRunClaims(a: PVCBackup, w: World, b: PVCBackup, state: map<string, int>, forced: bool, inp: Inputs)
    requires Known(w, b) && Claims(a, w, b.key) && ClaimedFrom(a, b.status)
    ensures Claims(a, Snapshot(w, b, state, forced, inp), b.key)
  {
    SnapshotClaims(a, w, b, Pipeline(b.spec), inp);
    var s := SnapshotSteps(w, b, Pipeline(b.spec), inp);
    FailClaims(a, s.m.w, s.m.b, inp);
  }

  lemma PrepareClaims(a: PVCBackup, w: World, b: PVCBackup, forced: bool, inp: Inputs)
    requires Known(w, b) && Claims(a, w, b.key) && ClaimedFrom(a, b.status)
    ensures Claims(a, Prepare(w, b, forced, inp), b.key)
  {
    FailClaims(a, w, b, inp);
    SnapshotRunClaims(a, w, b, map[], forced, inp);
    var quiescing := b.(status := b.status.(phase := Quiescing));
    WriteClaims(a, w, quiescing, WriteQuiescing, inp.faults);
    var r := WriteStatus(w, quiescing, WriteQuiescing, inp.faults);
    var q := Quiesce(r.w.scene, b.spec.targets, b.key.ns, inp.scaleFaults);
    AfterQuiesceClaims(a, r.w.(scene := q.scene), r.b, q, forced, inp);
  }

  lemma AfterQuiesceClaims(a: PVCBackup, w: World, b: PVCBackup, q: Quiet, forced: bool, inp: Inputs)
    requires Known(w, b) && Claims(a, w, b.key) && ClaimedFrom(a, b.status)
    ensures Claims(a, AfterQuiesce(w, b, q, forced, inp), b.key)
  {
    FailClaims(a, w, b, inp);
    SnapshotRunClaims(a, w, b, q.state, forced, inp);
  }

  lemma ClaimClaims(w: World, b: PVCBackup, inp: Inputs)
    requires Known(w, b) && b == w.backups[b.key]
    ensures Claims(b, Claim(w, b, inp), b.key)
  {
    PrepareClaims(b, w, b, false, inp);
    if ForceRunPending(b) {
      var claimed := b.(status := b.status.(lastForceRun := b.meta.forceRun));
      WriteClaims(b, w, claimed, WriteToken, inp.faults);
      var r := WriteStatus(w, claimed, WriteToken, inp.faults);
      PrepareClaims(b, r.w, r.b, true, inp);
    }
  }

  /** A reconcile leaves the annotations of its object alone, and changes a recorded token only to the token
      its annotation carries. */
  lemma ReconcileClaims(w: World, k: Key, inp: Inputs)
    requires k in w.backups && w.backups[k].key == k
    ensures Claims(w.backups[k], Reconcile(w, k, inp), k)
  {
    var b := w.backups[k];
    if PvcList(b.spec) == [] {
      FailClaims(b, w, b, inp);
    } else if ForceCancelPending(b) {
      CancelClaims(w, b, inp);
    } else if b.status.phase.Uploading? && b.status.lastJobName != "" {
      PollBackupClaims(b, w, b, inp);
    } else if b.status.phase.Pruning? && b.status.lastJobName != "" {
      PollPruneClaims(b, w, b, inp);
    } else if ForcePrunePending(b) {
      StartPruneClaims(w, b, inp);
    } else {
      RunBranchClaims(w, k, inp);
    }
  }

  lemma RunBranchClaims(w: World, k: Key, inp: Inputs)
    requires k in w.backups && w.backups[k].key == k && PvcList(w.backups[k].spec) != []
    requires var b := w.backups[k];
             !ForceCancelPending(b) && !ForcePrunePending(b) &&
             !((b.status.phase.Uploading? || b.status.phase.Pruning?) && b.status.lastJobName != "")
    ensures Claims(w.backups[k], Reconcile(w, k, inp), k)
  {
    var b := w.backups[k];
    if FindPruneJob(w, k, inp).Some? {
      AdoptPruneClaims(w, b, FindPruneJob(w, k, inp).value, inp);
    } else if FindBackupJob(w, k, inp).Some? {
      AdoptBackupClaims(w, b, FindBackupJob(w, k, inp).value, inp);
    } else {
      StartBranchClaims(w, k, inp);
    }
  }

  lemma StartBranchClaims(w: World, k: Key, inp: Inputs)
    requires k in w.backups && w.backups[k].key == k && PvcList(w.backups[k].spec) != []
    requires var b := w.backups[k];
             !ForceCancelPending(b) && !ForcePrunePending(b) &&
             !((b.status.phase.Uploading? || b.status.phase.Pruning?) && b.status.lastJobName != "")
    requires FindPruneJob(w, k, inp).None? && FindBackupJob(w, k, inp).None?
    ensures Claims(w.backups[k], Reconcile(w, k, inp), k)
  {
    var b := w.backups[k];
    FailClaims(b, w, b, inp);
    WriteClaims(b, w, b.(status := b.status.(phase := Scheduled)), WriteScheduled, inp.faults);
    ClaimClaims(w, b, inp);
  }

  lemma LaunchClaims(w: World, k: Key, inp: Inputs)
    requires Wellformed(w) && k in w.runs && SameTokens(w.runs[k].b.status, w.backups[k].status)
    ensures Claims(w.backups[k], Launch(w, k, inp), k)
  {
    var a, run := w.backups[k], w.runs[k];
    if !Aborts(w, k, inp) {
      var b := run.b.(status := run.b.status.(phase := Uploading));
      if CreateJob in inp.faults {
        FailClaims(a, Close(w, k), b, inp);
      } else {
        UploadClaims(a, WithJob(w, k), b, run.quiesced, LaunchName(run), inp);
      }
    }
  }

  lemma UploadClaims(a: PVCBackup, w: World, b: PVCBackup, state: map<string, int>, name: string, inp: Inputs)
    requires Known(w, b) && Claims(a, w, b.key) && ClaimedFrom(a, b.status)
    ensures Claims(a, Upload(w, b, state, name, inp), b.key)
  {
    var p := PersistQuiesce(w, b, state, inp.faults);
    assert Claims(a, p.w, b.key) && p.b.status == b.status;
    var named := p.b.(status := p.b.status.(lastJobName := name));
    WriteClaims(a, p.w, named, WriteUploading, inp.faults);
    var r := WriteStatus(p.w, named, WriteUploading, inp.faults);
    if r.ok {
      PollBackupClaims(a, r.w, r.b, inp);
    }
  }

  /** Preemption keeps tokens and annotations. */
  lemma {:induction false} InterruptAllTokens(w: World, holders: seq<Key>, inp: Inputs, k: Key)
    requires Keyed(w) && (forall h :: h in holders ==> h in w.backups) && k in w.backups
    ensures var b' := InterruptAll(w, holders, inp).backups[k];
            SameTokens(b'.status, w.backups[k].status) && SameAnnotations(b'.meta, w.backups[k].meta)
  {
    if holders != [] {
      var front, h := holders[..|holders| - 1], holders[|holders| - 1];
      InterruptAllTokens(w, front, inp, k);
      var init := InterruptAll(w, front, inp);
      FailTokens(StopJobs(init, h, inp), init.backups[h], inp);
    }
  }

  lemma FailTokens(w: World, b: PVCBackup, inp: Inputs)
    requires Known(w, b) && SameTokens(b.status, w.backups[b.key].status)
    ensures var b' := Fail(w, b, inp).w.backups[b.key];
            SameTokens(b'.status, w.backups[b.key].status) && SameAnnotations(b'.meta, w.backups[b.key].meta)
  {
    ReleaseKeepsAnnotations(w, w.backups[b.key], inp);
    ReleaseKeepsAnnotations(w, b, inp);
    var r := ReleaseQuiesce(w, b, inp);
    var status := r.b.status.(phase := Failed, lastBackupTime := Some(Sec(w.now)));
    WriteKeepsTokens(r.w, r.b.(status := status), WriteFailed, inp.faults);
  }

  lemma WriteKeepsTokens(w: World, b: PVCBackup, call: Call, faults: set<Call>)
    requires Known(w, b) && SameTokens(b.status, w.backups[b.key].status)
    ensures var b' := WriteStatus(w, b, call, faults).w.backups[b.key];
            SameTokens(b'.status, w.backups[b.key].status) && SameAnnotations(b'.meta, w.backups[b.key].meta)
  {
  }

  lemma RestoreTokens(w: World, w': World, r: Key, inp: Inputs, k: Key)
    requires r in w.restores && Keyed(w) && k in w.backups && k in w'.backups && Preempts(w, w', r, inp)
    ensures SameTokens(w'.backups[k].status, w.backups[k].status) && SameAnnotations(w'.backups[k].meta, w.backups[k].meta)
  {
    InterruptAllTokens(w, BackupHolders(w, inp.backupList, RestorePVCKeys(w.restores[r]), OfRestore(w.restores[r].key)), inp, k);
  }

  // ---------------------------------------------------------------------
  // Counting

  /** Open runs carry the stored tokens. */
  ghost predicate RunsClaimed(w: World) {
    forall k :: k in w.runs && k in w.backups ==> SameTokens(w.runs[k].b.status, w.backups[k].status)
  }

  function Pending(w: World, k: Key, t: Token): nat {
    if k in w.backups && Ann(w.backups[k].meta, t) != "" && Ann(w.backups[k].meta, t) != Last(w.backups[k].status, t)
    then 1 else 0
  }

  /** 1 if the step changes the recorded token of k. */
  function Changed(w: World, w': World, k: Key, t: Token): nat {
    if k in w.backups && k in w'.backups && Last(w'.backups[k].status, t) != Last(w.backups[k].status, t) then 1 else 0
  }

  /** 1 if the step writes the annotation from outside, or creates the object with it. */
  function Written(s: Step, k: Key, t: Token): nat {
    if s.Annotate? && s.k == k && s.token == t then 1
    else if s.NewBackup? && s.b.key == k && Ann(s.b.meta, t) != "" then 1
    else 0
  }

  lemma OwnerRunsClaimed(w: World, w': World, k: Key)
    requires Wellformed(w) && RunsClaimed(w) && OnlyOwner(w, w', k)
    requires k in w'.runs && k in w'.backups ==> SameTokens(w'.runs[k].b.status, w'.backups[k].status)
    ensures RunsClaimed(w')
  {
    forall i | i in w'.runs && i in w'.backups
      ensures SameTokens(w'.runs[i].b.status, w'.backups[i].status)
    {
      if i != k {
        assert i in w'.runs - {k};
        assert i in w.runs && w.runs[i] == w'.runs[i];
      }
    }
  }

  lemma RestoreRunsClaimed(w: World, w': World, r: Key, inp: Inputs)
    requires Wellformed(w) && RunsClaimed(w) && r in w.restores && OnlyRestore(w, w', r) && Preempts(w, w', r, inp)
    ensures RunsClaimed(w')
  {
    forall k | k in w'.runs && k in w'.backups
      ensures SameTokens(w'.runs[k].b.status, w'.backups[k].status)
    {
      RestoreTokens(w, w', r, inp, k);
    }
  }

  lemma StepRunsClaimed(w: World, s: Step)
    requires Wellformed(w) && RunsClaimed(w) && Enabled(w, s)
    ensures RunsClaimed(Apply(w, s))
  {
    match s
    case ReconcileStep(k, inp) => OwnerRunsClaimed(w, Reconcile(w, k, inp), k);
    case LaunchStep(k, inp) => OwnerRunsClaimed(w, Launch(w, k, inp), k);
    case RestoreStep(r, inp) => RestoreRunsClaimed(w, RestoreReconcile(w, r, inp), r, inp);
    case _ => ExternalRunsClaimed(w, s);
  }

  lemma ExternalRunsClaimed(w: World, s: Step)
    requires Wellformed(w) && RunsClaimed(w) && Enabled(w, s) && External(s)
    ensures RunsClaimed(Apply(w, s))
  {
  }

  /** A change of the recorded token uses up the pending one; only an external write makes one pending. */
  lemma StepSpendsToken(w: World, s: Step, k: Key, t: Token)
    requires Wellformed(w) && RunsClaimed(w) && Enabled(w, s)
    ensures Changed(w, Apply(w, s), k, t) + Pending(Apply(w, s), k, t) <= Pending(w, k, t) + Written(s, k, t)
  {
    match s
    case ReconcileStep(i, inp) =>
      ReconcileClaims(w, i, inp);
      OwnerSpends(w, Reconcile(w, i, inp), i, k, t);
    case LaunchStep(i, inp) =>
      LaunchClaims(w, i, inp);
      OwnerSpends(w, Launch(w, i, inp), i, k, t);
    case RestoreStep(r, inp) => RestoreSpends(w, RestoreReconcile(w, r, inp), r, inp, k, t);
    case _ => ExternalSpends(w, s, k, t);
  }

  lemma OwnerSpends(w: World, w': World, i: Key, k: Key, t: Token)
    requires i in w.backups && OnlyOwner(w, w', i) && Claims(w.backups[i], w', i)
    ensures Changed(w, w', k, t) + Pending(w', k, t) <= Pending(w, k, t)
  {
    if k in w.backups {
      ClaimSpends(w, w', k, t);
    }
  }

  lemma RestoreSpends(w: World, w': World, r: Key, inp: Inputs, k: Key, t: Token)
    requires r in w.restores && Keyed(w) && OnlyRestore(w, w', r) && Preempts(w, w', r, inp)
    ensures Changed(w, w', k, t) + Pending(w', k, t) <= Pending(w, k, t)
  {
    if k in w.backups {
      RestoreTokens(w, w', r, inp, k);
      ClaimSpends(w, w', k, t);
    }
  }

  lemma ClaimSpends(w: World, w': World, k: Key, t: Token)
    requires k in w.backups && Claims(w.backups[k], w', k)
    ensures Changed(w, w', k, t) + Pending(w', k, t) <= Pending(w, k, t)
  {
  }

  lemma ExternalSpends(w: World, s: Step, k: Key, t: Token)
    requires Wellformed(w) && Enabled(w, s) && External(s)
    ensures Changed(w, Apply(w, s), k, t) + Pending(Apply(w, s), k, t) <= Pending(w, k, t) + Written(s, k, t)
  {
  }

  function Changes(trace: seq<World>, n: nat, k: Key, t: Token): nat
    requires n < |trace|
  {
    if n == 0 then 0 else Changes(trace, n - 1, k, t) + Changed(trace[n - 1], trace[n], k, t)
  }

  /** External writes of the annotation, counting one that was there from the start. */
  function Writes(trace: seq<World>, steps: seq<Step>, n: nat, k: Key, t: Token): nat
    requires n < |trace| && |trace| == |steps| + 1
  {
    if n == 0 then (if k in trace[0].backups && Ann(trace[0].backups[k].meta, t) != "" then 1 else 0)
    else Writes(trace, steps, n - 1, k, t) + Written(steps[n - 1], k, t)
  }

  /** Over any run the recorded token of a backup changes at most as often as its annotation is written: the tokens
      still pending count against the same writes. */
  lemma {:induction false} TokensSpentOnce(trace: seq<World>, steps: seq<Step>, n: nat, k: Key, t: Token)
    requires IsRun(trace, steps) && n < |trace|
    ensures RunsClaimed(trace[n])
    ensures Changes(trace, n, k, t) + Pending(trace[n], k, t) <= Writes(trace, steps, n, k, t)
  {
    if n > 0 {
      TokensSpentOnce(trace, steps, n - 1, k, t);
      StepRunsClaimed(trace[n - 1], steps[n - 1]);
      StepSpendsToken(trace[n - 1], steps[n - 1], k, t);
    }
  }
}
