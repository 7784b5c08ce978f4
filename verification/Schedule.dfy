/** Scheduled starts never outrun the schedule. */
module Schedule {
  import opened Text
  import opened Types
  import opened Workloads
  import opened JobNames
  import opened Protocol
  import opened OneJob
  import opened Exclusion
  import opened Uploading
  import opened Isolation

  // ---------------------------------------------------------------------
  // Slots

  /** next yields the least slot strictly after its argument. */
  ghost predicate LeastSlot(next: int -> int) {
    (forall x :: next(x) > x) && (forall x, y :: x <= y < next(x) ==> next(y) == next(x))
  }

  /** The number of slots in (a, b]. */
  ghost function Slots(next: int -> int, a: int, b: int): nat
    requires LeastSlot(next)
    decreases b - a
  {
    if next(a) <= b then 1 + Slots(next, next(a), b) else 0
  }

  ghost predicate IsSlot(next: int -> int, t: int) { next(t - 1) == t }

  ghost function SlotSet(next: int -> int, a: int, b: int): set<int> {
    set t | a < t <= b && IsSlot(next, t)
  }

  /** Slots counts exactly the seconds of (a, b] that are slots. */
  lemma {:induction false} SlotsCount(next: int -> int, a: int, b: int)
    requires LeastSlot(next)
    ensures Slots(next, a, b) == |SlotSet(next, a, b)|
    decreases b - a
  {
    var s := next(a);
    forall t | a < t < s ensures !IsSlot(next, t) {
      assert next(t - 1) == s;
    }
    assert IsSlot(next, s) by {
      assert next(s - 1) == s;
    }
    if s <= b {
      SlotsCount(next, s, b);
      assert SlotSet(next, a, b) == {s} + SlotSet(next, s, b);
    } else {
      assert SlotSet(next, a, b) == {};
    }
  }

  lemma {:induction false} SlotsSplit(next: int -> int, a: int, b: int, c: int)
    requires LeastSlot(next) && a <= b <= c
    ensures Slots(next, a, c) == Slots(next, a, b) + Slots(next, b, c)
    decreases b - a
  {
    if next(a) <= b {
      SlotsSplit(next, next(a), b, c);
    } else {
      assert next(b) == next(a);
    }
  }

  // ---------------------------------------------------------------------
  // The schedule cursor

  /** A status whose cursor is the old one or the current second. */
  ghost predicate CursorKept(w: World, s: BackupStatus, s': BackupStatus) {
    s'.lastBackupTime == s.lastBackupTime || s'.lastBackupTime == Some(Sec(w.now))
  }

  lemma FailCursor(w: World, b: PVCBackup, inp: Inputs)
    requires Known(w, b)
    ensures var s, s' := w.backups[b.key].status, Fail(w, b, inp).w.backups[b.key].status;
            s' == s || s'.lastBackupTime == Some(Sec(w.now))
  {
  }

  lemma PollCursor(w: World, b: PVCBackup, inp: Inputs)
    requires Known(w, b)
    ensures var s, s' := w.backups[b.key].status, PollBackup(w, b, inp).backups[b.key].status;
            s' == s || s'.lastBackupTime == Some(Sec(w.now))
  {
    FailCursor(w, b, inp);
  }

  /** In-memory statuses that would keep the stored cursor. */
  ghost predicate Aligned(w: World, b: PVCBackup) {
    Known(w, b) && b.status.lastBackupTime == w.backups[b.key].status.lastBackupTime
  }

  lemma WriteCursor(w: World, b: PVCBackup, call: Call, faults: set<Call>)
    requires Aligned(w, b)
    ensures var r := WriteStatus(w, b, call, faults);
            Aligned(r.w, r.b) && r.w.now == w.now &&
            r.w.backups[b.key].status.lastBackupTime == w.backups[b.key].status.lastBackupTime
  {
  }

  lemma PruneCursor(w: World, b: PVCBackup, inp: Inputs)
    requires Aligned(w, b)
    ensures FailPrune(w, b, inp).backups[b.key].status.lastBackupTime == w.backups[b.key].status.lastBackupTime
    ensures PollPrune(w, b, inp).backups[b.key].status.lastBackupTime == w.backups[b.key].status.lastBackupTime
  {
  }

  lemma StartPruneCursor(w: World, b: PVCBackup, inp: Inputs)
    requires Aligned(w, b)
    ensures StartPrune(w, b, inp).backups[b.key].status.lastBackupTime == w.backups[b.key].status.lastBackupTime
  {
    var claimed := b.(status := b.status.(lastForcePrune := b.meta.forcePrune));
    if b.spec.keepLast.None? || b.spec.keepLast.value <= 0 {
      WriteCursor(w, claimed, WritePruneToken, inp.faults);
      var r := WriteStatus(w, claimed, WritePruneToken, inp.faults);
      PruneCursor(r.w, r.b, inp);
    } else {
      var pruning := claimed.(status := claimed.status.(phase := Pruning));
      WriteCursor(w, pruning, WritePruning, inp.faults);
      var r := WriteStatus(w, pruning, WritePruning, inp.faults);
      PruneCursor(r.w, r.b, inp);
      StartedPruneCursor(r.w, r.b, inp);
    }
  }

  lemma StartedPruneCursor(w: World, b: PVCBackup, inp: Inputs)
    requires Aligned(w, b)
    ensures StartedPrune(w, b, inp).backups[b.key].status.lastBackupTime == w.backups[b.key].status.lastBackupTime
  {
    var name := PruneJobName(b.key.name, Sec(w.now));
    var job := Job(OfBackup(b.key), PruneJob, Sec(w.now), Sec(w.now), 0, 0, []);
    var w1 := w.(jobs := CreateJobIfAbsent(w.jobs, Key(b.key.ns, name), job));
    WriteCursor(w1, b.(status := b.status.(lastJobName := name)), WritePruneJob, inp.faults);
    var s := WriteStatus(w1, b.(status := b.status.(lastJobName := name)), WritePruneJob, inp.faults);
    PruneCursor(s.w, s.b, inp);
  }

  lemma {:induction false} SnapshotCursor(w: World, b: PVCBackup, steps: seq<string>, inp: Inputs)
    requires Aligned(w, b)
    ensures var s := SnapshotSteps(w, b, steps, inp);
            Aligned(s.m.w, s.m.b) &&
            s.m.w.backups[b.key].status.lastBackupTime == w.backups[b.key].status.lastBackupTime
  {
    if steps != [] {
      SnapshotCursor(w, b, steps[..|steps| - 1], inp);
      var init := SnapshotSteps(w, b, steps[..|steps| - 1], inp);
      WriteCursor(init.m.w, init.m.b.(status := init.m.b.status.(phase := Snapshotting)), WriteSnapshotting, inp.faults);
    }
  }

  lemma RunCursor(w: World, b: PVCBackup, state: map<string, int>, forced: bool, inp: Inputs)
    requires Aligned(w, b)
    ensures CursorKept(w, w.backups[b.key].status, Snapshot(w, b, state, forced, inp).backups[b.key].status)
  {
    SnapshotCursor(w, b, Pipeline(b.spec), inp);
    var s := SnapshotSteps(w, b, Pipeline(b.spec), inp);
    FailCursor(s.m.w, s.m.b, inp);
  }

  lemma AfterQuiesceCursor(w: World, b: PVCBackup, q: Quiet, forced: bool, inp: Inputs)
    requires Aligned(w, b)
    ensures CursorKept(w, w.backups[b.key].status, AfterQuiesce(w, b, q, forced, inp).backups[b.key].status)
  {
    FailCursor(w, b, inp);
    RunCursor(w, b, q.state, forced, inp);
  }

  lemma PrepareCursor(w: World, b: PVCBackup, forced: bool, inp: Inputs)
    requires Aligned(w, b)
    ensures CursorKept(w, w.backups[b.key].status, Prepare(w, b, forced, inp).backups[b.key].status)
  {
    FailCursor(w, b, inp);
    RunCursor(w, b, map[], forced, inp);
    WriteCursor(w, b.(status := b.status.(phase := Quiescing)), WriteQuiescing, inp.faults);
    var r := WriteStatus(w, b.(status := b.status.(phase := Quiescing)), WriteQuiescing, inp.faults);
    var q := Quiesce(r.w.scene, b.spec.targets, b.key.ns, inp.scaleFaults);
    AfterQuiesceCursor(r.w.(scene := q.scene), r.b, q, forced, inp);
  }

  lemma ClaimCursor(w: World, b: PVCBackup, inp: Inputs)
    requires Aligned(w, b)
    ensures CursorKept(w, w.backups[b.key].status, Claim(w, b, inp).backups[b.key].status)
  {
    PrepareCursor(w, b, false, inp);
    var claimed := b.(status := b.status.(lastForceRun := b.meta.forceRun));
    WriteCursor(w, claimed, WriteToken, inp.faults);
    var r := WriteStatus(w, claimed, WriteToken, inp.faults);
    PrepareCursor(r.w, r.b, true, inp);
  }

  /** A reconcile keeps the cursor or moves it to now, and a run whose Job is up never ends without moving it. */
  lemma ReconcileCursor(w: World, k: Key, inp: Inputs)
    requires k in w.backups && w.backups[k].key == k
    ensures var s, s' := w.backups[k].status, Reconcile(w, k, inp).backups[k].status;
            CursorKept(w, s, s') &&
            (s.phase.Uploading? && s.lastJobName != "" ==> s'.phase.Uploading? || s'.lastBackupTime == Some(Sec(w.now)))
  {
    var b := w.backups[k];
    if PvcList(b.spec) == [] {
      FailCursor(w, b, inp);
    } else if ForceCancelPending(b) {
      CancelCursor(w, b, inp);
    } else if b.status.phase.Uploading? && b.status.lastJobName != "" {
      PollCursor(w, b, inp);
    } else {
      OtherBranchCursor(w, k, inp);
    }
  }

  lemma CancelCursor(w: World, b: PVCBackup, inp: Inputs)
    requires Known(w, b) && b.status == w.backups[b.key].status
    ensures var s, s' := b.status, Cancel(w, b, inp).backups[b.key].status;
            CursorKept(w, s, s') &&
            (s.phase.Uploading? ==> s'.phase.Uploading? || s'.lastBackupTime == Some(Sec(w.now)))
  {
    var b1 := b.(status := b.status.(lastForceCancel := b.meta.forceCancel));
    var w1 := DeleteJob(w, b.key.ns, b.status.lastJobName);
    if !CancelPhaseBusy(b.status.phase) {
      WriteCursor(w1, b1, WriteCancel, inp.faults);
    } else if b.status.phase.Pruning? {
      PruneCursor(w1, b1, inp);
    } else {
      FailCursor(w1, b1, inp);
    }
  }

  lemma OtherBranchCursor(w: World, k: Key, inp: Inputs)
    requires k in w.backups && w.backups[k].key == k && PvcList(w.backups[k].spec) != []
    requires !ForceCancelPending(w.backups[k])
    requires !(w.backups[k].status.phase.Uploading? && w.backups[k].status.lastJobName != "")
    ensures CursorKept(w, w.backups[k].status, Reconcile(w, k, inp).backups[k].status)
  {
    var b := w.backups[k];
    if b.status.phase.Pruning? && b.status.lastJobName != "" {
      PruneCursor(w, b, inp);
    } else if ForcePrunePending(b) {
      StartPruneCursor(w, b, inp);
    } else if FindPruneJob(w, k, inp).Some? {
      AdoptPruneCursor(w, b, FindPruneJob(w, k, inp).value, inp);
    } else if FindBackupJob(w, k, inp).Some? {
      AdoptBackupCursor(w, b, FindBackupJob(w, k, inp).value, inp);
    } else {
      StartBranchCursor(w, k, inp);
    }
  }

  lemma StartBranchCursor(w: World, k: Key, inp: Inputs)
    requires k in w.backups && w.backups[k].key == k && PvcList(w.backups[k].spec) != []
    requires !ForceCancelPending(w.backups[k]) && !ForcePrunePending(w.backups[k])
    requires !((w.backups[k].status.phase.Uploading? || w.backups[k].status.phase.Pruning?) && w.backups[k].status.lastJobName != "")
    requires FindPruneJob(w, k, inp).None? && FindBackupJob(w, k, inp).None?
    ensures CursorKept(w, w.backups[k].status, Reconcile(w, k, inp).backups[k].status)
  {
    var b := w.backups[k];
    RunBranches(w, k, inp);
    if Starts(w, b) {
      ClaimCursor(w, b, inp);
    } else {
      FailCursor(w, b, inp);
      WriteCursor(w, b.(status := b.status.(phase := Scheduled)), WriteScheduled, inp.faults);
    }
  }

  lemma AdoptPruneCursor(w: World, b: PVCBackup, job: Key, inp: Inputs)
    requires Aligned(w, b)
    ensures CursorKept(w, w.backups[b.key].status, AdoptPrune(w, b, job, inp).backups[b.key].status)
  {
    var adopted := b.(status := b.status.(phase := Pruning, lastJobName := job.name));
    WriteCursor(w, adopted, WriteAdopted, inp.faults);
    var r := WriteStatus(w, adopted, WriteAdopted, inp.faults);
    PruneCursor(r.w, r.b, inp);
  }

  lemma AdoptBackupCursor(w: World, b: PVCBackup, job: Key, inp: Inputs)
    requires Aligned(w, b)
    ensures CursorKept(w, w.backups[b.key].status, AdoptBackup(w, b, job, inp).backups[b.key].status)
  {
    var adopted := b.(status := b.status.(phase := Uploading, lastJobName := job.name));
    WriteCursor(w, adopted, WriteAdopted, inp.faults);
    var r := WriteStatus(w, adopted, WriteAdopted, inp.faults);
    PollCursor(r.w, r.b, inp);
  }

  /** The same for the second half of a run. */
  lemma LaunchCursor(w: World, k: Key, inp: Inputs)
    requires Wellformed(w) && k in w.runs
    requires w.backups[k].status.phase.Failed? ||
             w.runs[k].b.status.lastBackupTime == w.backups[k].status.lastBackupTime
    ensures CursorKept(w, w.backups[k].status, Launch(w, k, inp).backups[k].status)
  {
    var run := w.runs[k];
    if !Aborts(w, k, inp) {
      var b := run.b.(status := run.b.status.(phase := Uploading));
      if CreateJob in inp.faults {
        FailCursor(Close(w, k), b, inp);
      } else {
        UploadCursor(WithJob(w, k), b, run.quiesced, LaunchName(run), inp);
      }
    }
  }

  lemma UploadCursor(w: World, b: PVCBackup, state: map<string, int>, name: string, inp: Inputs)
    requires Aligned(w, b)
    ensures CursorKept(w, w.backups[b.key].status, Upload(w, b, state, name, inp).backups[b.key].status)
  {
    var p := PersistQuiesce(w, b, state, inp.faults);
    var named := p.b.(status := p.b.status.(lastJobName := name));
    WriteCursor(p.w, named, WriteUploading, inp.faults);
    var r := WriteStatus(p.w, named, WriteUploading, inp.faults);
    PollCursor(r.w, r.b, inp);
  }

  lemma InterruptCursor(w: World, h: Key, inp: Inputs)
    requires Keyed(w) && h in w.backups
    ensures var s, s' := w.backups[h].status, Interrupt(w, h, inp).backups[h].status;
            s' == s || (s'.phase.Failed? && s'.lastBackupTime == Some(Sec(w.now)))
  {
    FailCursor(StopJobs(w, h, inp), w.backups[h], inp);
    FailStatus(StopJobs(w, h, inp), w.backups[h], inp);
  }

  lemma {:induction false} InterruptAllCursor(w: World, holders: seq<Key>, inp: Inputs, k: Key)
    requires Keyed(w) && (forall h :: h in holders ==> h in w.backups) && k in w.backups
    ensures var s, s' := w.backups[k].status, InterruptAll(w, holders, inp).backups[k].status;
            s' == s || (s'.phase.Failed? && s'.lastBackupTime == Some(Sec(w.now)))
  {
    if holders != [] {
      var front, h := holders[..|holders| - 1], holders[|holders| - 1];
      InterruptAllCursor(w, front, inp, k);
      InterruptCursor(InterruptAll(w, front, inp), h, inp);
    }
  }

  lemma RestoreCursor(w: World, w': World, r: Key, inp: Inputs, k: Key)
    requires r in w.restores && Keyed(w) && k in w.backups && k in w'.backups && Preempts(w, w', r, inp)
    ensures var s, s' := w.backups[k].status, w'.backups[k].status;
            s' == s || (s'.phase.Failed? && s'.lastBackupTime == Some(Sec(w.now)))
  {
    InterruptAllCursor(w, BackupHolders(w, inp.backupList, RestorePVCKeys(w.restores[r]), OfRestore(w.restores[r].key)), inp, k);
  }

  // ---------------------------------------------------------------------
  // Counting scheduled starts

  /** k has an unfinished backup Job that its status does not show: the status write after its creation was lost. */
  ghost predicate Unadopted(w: World, k: Key) {
    k in w.backups && |k.name| <= 52 && !w.backups[k].status.phase.Uploading? && !Idle(w, OfBackup(k), BackupJob)
  }

  /** `starts` Jobs created for due slots never exceed the slots since creation: up to the cursor while no Job is
      up, up to now always, and an open scheduled run has a slot of its own in hand. */
  ghost predicate OnSchedule(w: World, k: Key, next: int -> int, starts: nat)
    requires LeastSlot(next)
  {
    if k !in w.backups then starts == 0
    else
      var b, now := w.backups[k], Sec(w.now);
      var made := b.meta.created;
      && b.spec.schedule == Cron(next) && made <= Cursor(b) <= now
      && starts <= Slots(next, made, now)
      && (!b.status.phase.Uploading? && !Unadopted(w, k) ==> starts <= Slots(next, made, Cursor(b)))
      && (b.status.phase.Uploading? ==> b.status.lastJobName != "")
      && (k in w.runs ==>
            && !b.status.phase.Uploading?
            && (b.status.phase.Failed? || w.runs[k].b.status.lastBackupTime == b.status.lastBackupTime)
            && (!w.runs[k].forced ==> starts + 1 <= Slots(next, made, now)))
  }

  /** 1 if the step creates a backup Job for k that was started by a due slot, not by a force-run token. */
  ghost function Started(w: World, s: Step, k: Key): nat
    requires Enabled(w, s)
  {
    if s.LaunchStep? && s.k == k && !w.runs[k].forced && AddsBackup(w, Apply(w, s), k) then 1 else 0
  }

  /** A due slot lies strictly after the cursor and not after now. */
  lemma DueHasSlot(next: int -> int, made: int, cursor: int, now: nat)
    requires LeastSlot(next) && made <= cursor <= Sec(now) && now >= next(cursor) * NANOS
    ensures Slots(next, made, Sec(now)) >= Slots(next, made, cursor) + 1
  {
    assert next(cursor) <= Sec(now);
    SlotsSplit(next, made, cursor, Sec(now));
  }

  /** An unadopted Job of k that is gone in w' was adopted, or its attempt was dated. */
  ghost predicate Observed(w: World, w': World, k: Key) {
    Unadopted(w, k) && k in w'.backups && !w'.backups[k].status.phase.Uploading? && Idle(w', OfBackup(k), BackupJob) ==>
      w'.backups[k].status.lastBackupTime == Some(Sec(w.now))
  }

  /** The state of k moves on without a scheduled start: its cursor stays or jumps to now. */
  lemma CursorMoves(w: World, w': World, k: Key, next: int -> int, starts: nat)
    requires LeastSlot(next) && OnSchedule(w, k, next, starts) && k in w.backups && k in w'.backups
    requires SameIdentity(w.backups[k], w'.backups[k]) && w'.now == w.now
    requires CursorKept(w, w.backups[k].status, w'.backups[k].status) && Observed(w, w', k)
    requires w.backups[k].status.phase.Uploading? ==>
               w'.backups[k].status.phase.Uploading? || w'.backups[k].status.lastBackupTime == Some(Sec(w.now))
    requires w'.backups[k].status.phase.Uploading? ==> w'.backups[k].status.lastJobName != ""
    requires k !in w'.runs
    ensures OnSchedule(w', k, next, starts)
  {
    var made := w.backups[k].meta.created;
    SlotsSplit(next, made, Cursor(w.backups[k]), Sec(w.now));
  }

  lemma ReconcileOnSchedule(w: World, k: Key, inp: Inputs, next: int -> int, starts: nat)
    requires Inv(w) && Enabled(w, ReconcileStep(k, inp)) && LeastSlot(next) && OnSchedule(w, k, next, starts)
    requires Observed(w, Reconcile(w, k, inp), k)
    ensures OnSchedule(Reconcile(w, k, inp), k, next, starts)
  {
    var w' := Reconcile(w, k, inp);
    ReconcileCursor(w, k, inp);
    ReconcileStatus(w, k, inp);
    if w'.backups[k].status.phase.Uploading? && FindPruneJob(w, k, inp).None? && FindBackupJob(w, k, inp).Some? {
      var j := FindBackupJob(w, k, inp).value;
      assert |BackupPrefix(k.name)| > 0 && HasPrefix(j.name, BackupPrefix(k.name));
    }
    if w'.runs == w.runs {
      CursorMoves(w, w', k, next, starts);
    } else {
      OpensNotUploading(w, k, inp);
      ScansComplete(w, k, inp);
      OpeningOnSchedule(w, w', k, inp, next, starts);
    }
  }

  lemma OpeningOnSchedule(w: World, w': World, k: Key, inp: Inputs, next: int -> int, starts: nat)
    requires LeastSlot(next) && OnSchedule(w, k, next, starts) && k in w.backups && k !in w.runs && !Unadopted(w, k)
    requires OnlyOwner(w, w', k) && OpensRun(w, w', k) && Current(w', w'.runs[k].b)
    requires w'.runs[k].forced == ForceRunPending(w.backups[k]) && ScheduleDue(w.backups[k], w.now).DueNow?
    requires CursorKept(w, w.backups[k].status, w'.backups[k].status)
    requires !w.backups[k].status.phase.Uploading? && !w'.backups[k].status.phase.Uploading?
    ensures OnSchedule(w', k, next, starts)
  {
    var b := w.backups[k];
    SlotsSplit(next, b.meta.created, Cursor(b), Sec(w.now));
    if !ForceRunPending(b) {
      DueHasSlot(next, b.meta.created, Cursor(b), w.now);
    }
  }

  /** The second half of a run: its Job, if it creates one, lands in the status or waits to be adopted. */
  lemma LaunchOnSchedule(w: World, k: Key, inp: Inputs, next: int -> int, starts: nat)
    requires Inv(w) && Enabled(w, LaunchStep(k, inp)) && LeastSlot(next) && OnSchedule(w, k, next, starts)
    requires AddsBackup(w, Launch(w, k, inp), k) && |k.name| > 52 ==> Lands(w, k, inp)
    ensures OnSchedule(Launch(w, k, inp), k, next, starts + Started(w, LaunchStep(k, inp), k))
  {
    var w' := Launch(w, k, inp);
    LaunchCursor(w, k, inp);
    LaunchStatus(w, k, inp);
    LaunchNameNonempty(w.runs[k]);
    if !AddsBackup(w, w', k) {
      CursorMoves(w, w', k, next, starts);
    } else if Lands(w, k, inp) {
      LaunchLands(w, k, inp);
      LaunchedOnSchedule(w, w', k, next, starts);
    } else {
      LostLaunchStaysDue(w, k, inp);
      LostOnSchedule(w, w', k, next, starts);
    }
  }

  lemma LaunchedOnSchedule(w: World, w': World, k: Key, next: int -> int, starts: nat)
    requires LeastSlot(next) && OnSchedule(w, k, next, starts) && k in w.runs && k in w.backups && k !in w'.runs
    requires OnlyOwner(w, w', k) && CursorKept(w, w.backups[k].status, w'.backups[k].status)
    requires w'.backups[k].status.phase.Uploading? && w'.backups[k].status.lastJobName != ""
    ensures OnSchedule(w', k, next, starts + if w.runs[k].forced then 0 else 1)
  {
  }

  lemma LostOnSchedule(w: World, w': World, k: Key, next: int -> int, starts: nat)
    requires LeastSlot(next) && OnSchedule(w, k, next, starts) && k in w.runs && k in w.backups && k !in w'.runs
    requires OnlyOwner(w, w', k) && w'.backups[k].status == w.backups[k].status && AddsBackup(w, w', k) && |k.name| <= 52
    ensures OnSchedule(w', k, next, starts + if w.runs[k].forced then 0 else 1)
  {
    assert Live(w', Key(k.ns, LaunchName(w.runs[k])), OfBackup(k), BackupJob);
  }

  lemma LaunchLands(w: World, k: Key, inp: Inputs)
    requires Wellformed(w) && k in w.runs && Lands(w, k, inp) && AddsBackup(w, Launch(w, k, inp), k)
    ensures Launch(w, k, inp).backups[k].status.phase.Uploading?
  {
    var run, w' := w.runs[k], Launch(w, k, inp);
    assert !Aborts(w, k, inp) && CreateJob !in inp.faults;
    var b := run.b.(status := run.b.status.(phase := Uploading));
    var p := PersistQuiesce(WithJob(w, k), b, run.quiesced, inp.faults);
    var r := WriteStatus(p.w, p.b.(status := p.b.status.(lastJobName := LaunchName(run))), WriteUploading, inp.faults);
    assert r.ok;
    assert w' == PollBackup(r.w, r.b, inp) == r.w;
  }

  /** A lost status write leaves the status, and with it the due slot, as they were. */
  lemma LostLaunchStaysDue(w: World, k: Key, inp: Inputs)
    requires Wellformed(w) && k in w.runs && AddsBackup(w, Launch(w, k, inp), k) && !Lands(w, k, inp)
    ensures var w' := Launch(w, k, inp);
            w'.backups[k].status == w.backups[k].status &&
            ScheduleDue(w'.backups[k], w'.now) == ScheduleDue(w.backups[k], w.now)
  {
    var run, w' := w.runs[k], Launch(w, k, inp);
    assert !Aborts(w, k, inp) && CreateJob !in inp.faults;
    var b := run.b.(status := run.b.status.(phase := Uploading));
    var p := PersistQuiesce(WithJob(w, k), b, run.quiesced, inp.faults);
    var r := WriteStatus(p.w, p.b.(status := p.b.status.(lastJobName := LaunchName(run))), WriteUploading, inp.faults);
    assert !r.ok && w' == r.w;
  }

  /** A restore's step: the status of k is untouched, or it is Failed with the cursor at now. */
  lemma RestoreOnSchedule(w: World, w': World, r: Key, inp: Inputs, k: Key, next: int -> int, starts: nat)
    requires Inv(w) && LeastSlot(next) && OnSchedule(w, k, next, starts) && Observed(w, w', k)
    requires r in w.restores && OnlyRestore(w, w', r) && Preempts(w, w', r, inp)
    ensures OnSchedule(w', k, next, starts)
  {
    if k in w.backups {
      RestoreCursor(w, w', r, inp, k);
      RestoredOnSchedule(w, w', k, next, starts);
    }
  }

  lemma RestoredOnSchedule(w: World, w': World, k: Key, next: int -> int, starts: nat)
    requires Inv(w) && LeastSlot(next) && OnSchedule(w, k, next, starts) && Observed(w, w', k) && k in w.backups && k in w'.backups
    requires SameIdentity(w.backups[k], w'.backups[k]) && w'.runs == w.runs && w'.now == w.now
    requires var s, s' := w.backups[k].status, w'.backups[k].status;
             s' == s || (s'.phase.Failed? && s'.lastBackupTime == Some(Sec(w.now)))
    ensures OnSchedule(w', k, next, starts)
  {
    SlotsSplit(next, w.backups[k].meta.created, Cursor(w.backups[k]), Sec(w.now));
  }

  /** Another backup's step. */
  lemma OwnerOnSchedule(w: World, w': World, i: Key, k: Key, next: int -> int, starts: nat)
    requires Inv(w) && LeastSlot(next) && OnSchedule(w, k, next, starts) && i != k && OnlyOwner(w, w', i) && Observed(w, w', k)
    ensures OnSchedule(w', k, next, starts)
  {
    if k in w'.runs { assert k in w'.runs - {i}; }
    if k in w.runs { assert k in w.runs - {i}; }
    if k in w.backups { SlotsSplit(next, w.backups[k].meta.created, Cursor(w.backups[k]), Sec(w.now)); }
  }

  lemma ExternalOnSchedule(w: World, s: Step, k: Key, next: int -> int, starts: nat)
    requires Inv(w) && LeastSlot(next) && OnSchedule(w, k, next, starts) && Enabled(w, s) && External(s)
    requires Punctual(w, s, k, next)
    ensures OnSchedule(Apply(w, s), k, next, starts)
  {
    var w' := Apply(w, s);
    if k in w.backups {
      ExternalBackups(w, s);
      ExternalRuns(w, s);
      TimeOnSchedule(w, w', k, next, starts);
    } else {
      NewOnSchedule(w, s, k, next, starts);
    }
  }

  /** Time passing, an annotation or a crash: status and identity of k stay, its run stays or is lost. */
  lemma TimeOnSchedule(w: World, w': World, k: Key, next: int -> int, starts: nat)
    requires LeastSlot(next) && OnSchedule(w, k, next, starts) && k in w.backups && k in w'.backups && Observed(w, w', k)
    requires SameIdentity(w.backups[k], w'.backups[k]) && w'.backups[k].status == w.backups[k].status
    requires Sec(w.now) <= Sec(w'.now)
    requires k in w'.runs ==> k in w.runs && w'.runs[k] == w.runs[k]
    ensures OnSchedule(w', k, next, starts)
  {
    SlotsSplit(next, w.backups[k].meta.created, Sec(w.now), Sec(w'.now));
  }

  lemma ExternalRuns(w: World, s: Step)
    requires Enabled(w, s) && External(s)
    ensures Sec(w.now) <= Sec(Apply(w, s).now)
    ensures forall k: Key :: k in Apply(w, s).runs ==> k in w.runs && Apply(w, s).runs[k] == w.runs[k]
  {
    SecMonotone(w.now, Apply(w, s).now);
  }

  lemma NewOnSchedule(w: World, s: Step, k: Key, next: int -> int, starts: nat)
    requires Wellformed(w) && LeastSlot(next) && k !in w.backups && Enabled(w, s) && External(s)
    requires starts == 0 && Punctual(w, s, k, next)
    ensures OnSchedule(Apply(w, s), k, next, starts)
  {
  }

  ghost predicate CreatedWith(w: World, b: PVCBackup, next: int -> int) {
    b.spec.schedule == Cron(next) && b.meta.created <= Sec(w.now)
  }

  /** What the result needs of the environment: k is created with this schedule and not in the future; and if the status
      write after one of its Jobs is lost, that Job is adopted before it ends, or the step that ends it dates the
      attempt. Beyond 52 characters no Job is ever adopted, and the write must land. */
  ghost predicate Punctual(w: World, s: Step, k: Key, next: int -> int)
    requires Enabled(w, s)
  {
    && Observed(w, Apply(w, s), k)
    && match s
       case LaunchStep(i, inp) => i == k && AddsBackup(w, Apply(w, s), k) && |k.name| > 52 ==> Lands(w, k, inp)
       case NewBackup(b) => b.key == k ==> CreatedWith(w, b, next)
       case _ => true
  }

  lemma OtherOnSchedule(w: World, s: Step, k: Key, next: int -> int, starts: nat)
    requires Inv(w) && Enabled(w, s) && (((s.ReconcileStep? || s.LaunchStep?) && s.k != k) || s.RestoreStep?)
    requires LeastSlot(next) && OnSchedule(w, k, next, starts) && Observed(w, Apply(w, s), k)
    ensures OnSchedule(Apply(w, s), k, next, starts)
  {
    if s.RestoreStep? {
      RestoreOnSchedule(w, Apply(w, s), s.k, s.inp, k, next, starts);
    } else {
      OwnerOnSchedule(w, Apply(w, s), s.k, k, next, starts);
    }
  }

  lemma StepOnSchedule(w: World, s: Step, k: Key, next: int -> int, starts: nat)
    requires Inv(w) && Enabled(w, s) && LeastSlot(next) && Punctual(w, s, k, next)
    requires OnSchedule(w, k, next, starts)
    ensures OnSchedule(Apply(w, s), k, next, starts + Started(w, s, k))
  {
    if External(s) {
      ExternalOnSchedule(w, s, k, next, starts);
    } else if !s.RestoreStep? && s.k == k {
      OwnOnSchedule(w, s, k, next, starts);
    } else {
      OtherOnSchedule(w, s, k, next, starts);
    }
  }

  lemma OwnOnSchedule(w: World, s: Step, k: Key, next: int -> int, starts: nat)
    requires Inv(w) && Enabled(w, s) && LeastSlot(next) && Punctual(w, s, k, next)
    requires OnSchedule(w, k, next, starts) && (s.ReconcileStep? || s.LaunchStep?) && s.k == k
    ensures OnSchedule(Apply(w, s), k, next, starts + Started(w, s, k))
  {
    if s.ReconcileStep? {
      ReconcileOnSchedule(w, k, s.inp, next, starts);
    } else {
      LaunchOnSchedule(w, k, s.inp, next, starts);
    }
  }

  /** The number of Jobs created for k by due slots in the first n steps of a run. */
  ghost function ScheduledStarts(trace: seq<World>, steps: seq<Step>, n: nat, k: Key): nat
    requires IsRun(trace, steps) && n < |trace|
  {
    if n == 0 then 0 else ScheduledStarts(trace, steps, n - 1, k) + Started(trace[n - 1], steps[n - 1], k)
  }

  ghost predicate IsPunctualRun(trace: seq<World>, steps: seq<Step>, k: Key, next: int -> int) {
    && IsRun(trace, steps)
    && (k in trace[0].backups ==> CreatedWith(trace[0], trace[0].backups[k], next))
    && forall i :: 0 <= i < |steps| ==> Punctual(trace[i], steps[i], k, next)
  }

  lemma {:induction false} OnScheduleAlways(trace: seq<World>, steps: seq<Step>, n: nat, k: Key, next: int -> int)
    requires LeastSlot(next) && IsPunctualRun(trace, steps, k, next) && n < |trace|
    ensures OnSchedule(trace[n], k, next, ScheduledStarts(trace, steps, n, k))
  {
    if n > 0 {
      OnScheduleAlways(trace, steps, n - 1, k, next);
      InvAlways(trace, steps, n - 1);
      StepOnSchedule(trace[n - 1], steps[n - 1], k, next, ScheduledStarts(trace, steps, n - 1, k));
    }
  }

  /** Over any run the Jobs created by due slots number at most the slots between the creation of the object and
      now, however long the operator was down in between, and whatever status writes were lost, as long as each Job
      whose write was lost is adopted before it ends. */
  lemma StartsWithinSlots(trace: seq<World>, steps: seq<Step>, n: nat, k: Key, next: int -> int)
    requires LeastSlot(next) && IsPunctualRun(trace, steps, k, next) && n < |trace|
    requires k in trace[n].backups
    ensures ScheduledStarts(trace, steps, n, k) <= |SlotSet(next, trace[n].backups[k].meta.created, Sec(trace[n].now))|
  {
    OnScheduleAlways(trace, steps, n, k, next);
    SlotsCount(next, trace[n].backups[k].meta.created, Sec(trace[n].now));
  }
}
