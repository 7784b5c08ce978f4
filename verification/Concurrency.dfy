/** Optimistic concurrency: which status writes can meet a stale resource version. */
module Concurrency {
  import opened Text
  import opened Types
  import opened Workloads
  import opened Protocol
  import opened OneJob
  import opened Uploading

  /** The end of a launch meets a conflict exactly when the status write is attempted on a stale version: the object
      was written since the claim, and no quiesce-state patch refreshed the in-memory metadata. */
  lemma LaunchConflicts(w: World, k: Key, inp: Inputs)
    requires Wellformed(w) && k in w.runs && !Aborts(w, k, inp) && CreateJob !in inp.faults
    ensures Launch(w, k, inp).conflicts ==
            w.conflicts + (if WriteUploading !in inp.faults && !Lands(w, k, inp) then 1 else 0)
  {
    var run := w.runs[k];
    var b := run.b.(status := run.b.status.(phase := Uploading));
    var p := PersistQuiesce(WithJob(w, k), b, run.quiesced, inp.faults);
    var r := WriteStatus(p.w, p.b.(status := p.b.status.(lastJobName := LaunchName(run))), WriteUploading, inp.faults);
    assert r.ok <==> Lands(w, k, inp);
    if r.ok {
      assert Synced(r.w, r.b);
      assert Launch(w, k, inp) == PollBackup(r.w, r.b, inp);
    } else {
      assert Launch(w, k, inp) == r.w;
    }
  }

  /** A launch whose object nobody else wrote meets none. */
  lemma CurrentLaunchIsClean(w: World, k: Key, inp: Inputs)
    requires Wellformed(w) && k in w.runs && (Synced(w, w.runs[k].b) || w.backups[k].status.phase.Failed?)
    ensures Launch(w, k, inp).conflicts == w.conflicts
  {
    if !Aborts(w, k, inp) {
      if CreateJob in inp.faults {
        var b := w.runs[k].b.(status := w.runs[k].b.status.(phase := Uploading));
        assert Synced(Close(w, k), b);
      } else {
        LaunchConflicts(w, k, inp);
      }
    }
  }

  /** Restore r would preempt k while its run is open. */
  ghost predicate PreemptsRun(w: World, k: Key, r: Key) {
    k in w.runs && r in w.restores && BackupHolds(w, k, RestorePVCKeys(w.restores[r]), OfRestore(r))
  }

  /** Nobody else writes an object between the claim and the Job: no annotation lands on an open run, and a restore
      that interrupts one gets its Failed status stored. */
  ghost predicate Undisturbed(w: World, s: Step) {
    match s
    case Annotate(k, _, _) => k !in w.runs
    case RestoreStep(r, inp) => WriteFailed in inp.faults ==> forall k :: !PreemptsRun(w, k, r)
    case _ => true
  }

  /** An open run still holds the current object, or has been interrupted. */
  ghost predicate RunsCurrent(w: World) {
    forall k :: k in w.runs && k in w.backups ==> Synced(w, w.runs[k].b) || w.backups[k].status.phase.Failed?
  }

  lemma InterruptWrites(w: World, h: Key, inp: Inputs)
    requires Keyed(w) && h in w.backups && WriteFailed !in inp.faults
    ensures Interrupt(w, h, inp).backups[h].status.phase.Failed?
  {
    assert Synced(StopJobs(w, h, inp), w.backups[h]);
  }

  lemma {:induction false} InterruptAllWrites(w: World, holders: seq<Key>, inp: Inputs, k: Key)
    requires Keyed(w) && (forall h :: h in holders ==> h in w.backups) && k in w.backups
    requires WriteFailed in inp.faults ==> k !in holders
    ensures var b' := InterruptAll(w, holders, inp).backups[k]; b' == w.backups[k] || b'.status.phase.Failed?
  {
    if holders != [] {
      var front, h := holders[..|holders| - 1], holders[|holders| - 1];
      InterruptAllWrites(w, front, inp, k);
      if h == k { InterruptWrites(InterruptAll(w, front, inp), h, inp); }
    }
  }

  lemma RestoreWrites(w: World, w': World, r: Key, inp: Inputs, k: Key)
    requires r in w.restores && Keyed(w) && k in w.backups && k in w'.backups && Preempts(w, w', r, inp)
    requires WriteFailed in inp.faults ==> !BackupHolds(w, k, RestorePVCKeys(w.restores[r]), OfRestore(w.restores[r].key))
    ensures w'.backups[k] == w.backups[k] || w'.backups[k].status.phase.Failed?
  {
    InterruptAllWrites(w, BackupHolders(w, inp.backupList, RestorePVCKeys(w.restores[r]), OfRestore(w.restores[r].key)), inp, k);
  }

  lemma OwnerRunsCurrent(w: World, w': World, k: Key)
    requires Wellformed(w) && RunsCurrent(w) && OnlyOwner(w, w', k)
    requires k in w'.runs ==> Synced(w', w'.runs[k].b)
    ensures RunsCurrent(w')
  {
    forall i | i in w'.runs && i in w'.backups
      ensures Synced(w', w'.runs[i].b) || w'.backups[i].status.phase.Failed?
    {
      if i != k {
        assert i in w'.runs - {k};
        assert i in w.runs && w.runs[i] == w'.runs[i];
      }
    }
  }

  lemma RestoreRunsCurrent(w: World, w': World, r: Key, inp: Inputs)
    requires Wellformed(w) && RunsCurrent(w) && r in w.restores && OnlyRestore(w, w', r) && Preempts(w, w', r, inp)
    requires WriteFailed in inp.faults ==> forall k :: !PreemptsRun(w, k, r)
    ensures RunsCurrent(w')
  {
    forall k | k in w'.runs && k in w'.backups
      ensures Synced(w', w'.runs[k].b) || w'.backups[k].status.phase.Failed?
    {
      assert !PreemptsRun(w, k, r) || WriteFailed !in inp.faults;
      RestoreWrites(w, w', r, inp, k);
    }
  }

  lemma ExternalRunsCurrent(w: World, s: Step)
    requires Wellformed(w) && RunsCurrent(w) && Enabled(w, s) && External(s) && Undisturbed(w, s)
    ensures RunsCurrent(Apply(w, s)) && Apply(w, s).conflicts == w.conflicts
  {
    var w' := Apply(w, s);
    ExternalRunsKept(w, s);
    assert RunsCurrent(w');
  }

  lemma ExternalRunsKept(w: World, s: Step)
    requires Wellformed(w) && Enabled(w, s) && External(s) && Undisturbed(w, s)
    ensures var w' := Apply(w, s);
            w'.conflicts == w.conflicts &&
            forall k :: k in w'.runs ==> k in w.runs && w'.runs[k] == w.runs[k] && k in w'.backups && w'.backups[k] == w.backups[k]
  {
  }

  lemma StepRunsCurrent(w: World, s: Step)
    requires Inv(w) && RunsCurrent(w) && Enabled(w, s) && Undisturbed(w, s)
    ensures RunsCurrent(Apply(w, s)) && Apply(w, s).conflicts == w.conflicts
  {
    if External(s) {
      ExternalRunsCurrent(w, s);
    } else {
      match s
      case ReconcileStep(k, inp) => OwnerRunsCurrent(w, Reconcile(w, k, inp), k);
      case LaunchStep(k, inp) =>
        CurrentLaunchIsClean(w, k, inp);
        OwnerRunsCurrent(w, Launch(w, k, inp), k);
      case RestoreStep(r, inp) => RestoreRunsCurrent(w, RestoreReconcile(w, r, inp), r, inp);
    }
  }

  ghost predicate IsUndisturbedRun(trace: seq<World>, steps: seq<Step>) {
    IsRun(trace, steps) && forall i :: 0 <= i < |steps| ==> Undisturbed(trace[i], steps[i])
  }

  /** In every undisturbed run, whatever else fails, no status write of either controller ever meets a conflict. */
  lemma {:induction false} NoWriteConflicts(trace: seq<World>, steps: seq<Step>, n: nat)
    requires IsUndisturbedRun(trace, steps) && n < |trace|
    ensures RunsCurrent(trace[n]) && trace[n].conflicts == 0
  {
    if n > 0 {
      NoWriteConflicts(trace, steps, n - 1);
      InvAlways(trace, steps, n - 1);
      StepRunsCurrent(trace[n - 1], steps[n - 1]);
    }
  }
}
