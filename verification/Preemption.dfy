/** What a restore leaves of the backups it preempts. */
module Preemption {
  import opened Text
  import opened Types
  import opened Workloads
  import opened Conservation
  import opened JobNames
  import opened Protocol
  import opened OneJob
  import opened Exclusion

  /** Unquiescing applies every recorded count to the workload its key names, if that can be scaled. */
  lemma RecordedCountApplied(s: Scene, state: map<string, int>, v: Workload, faults: set<Fault>)
    requires v in s.replicas && '/' !in v.ns && KeyOf(v) in state && ScaleFault(v) !in faults
    ensures Unquiesce(s, state, faults).replicas[v] == state[KeyOf(v)]
  {
    NamesItself(v);
  }

  /** fail() on an object with recorded counts: they are applied, the record is cleared, and the attempt is
      dated now so that its slot is not retried. */
  lemma FailReleasesRecorded(w: World, b: PVCBackup, inp: Inputs)
    requires Synced(w, b) && PatchAnnotation !in inp.faults && WriteFailed !in inp.faults
    requires !w.backups[b.key].status.phase.Failed? && !b.spec.leaveDown && b.meta.quiesce != map[]
    ensures var w' := Fail(w, b, inp).w; var b' := w'.backups[b.key];
            b'.status.phase.Failed? && b'.meta.quiesce == map[] &&
            b'.status.lastBackupTime == Some(Sec(w.now)) &&
            w'.scene == Unquiesce(w.scene, b.meta.quiesce, inp.scaleFaults)
  {
  }

  /** Preempting an active backup that recorded its workloads stops its Jobs, marks it Failed, brings every recorded
      workload that can be scaled back to its recorded count and clears the record. Of the other backups nothing is
      asked; of its own Jobs, that the status names them or its scan can recognise them; of the calls, that the two
      writes of fail() get through. */
  lemma PreemptionPostcondition(w: World, k: Key, inp: Inputs)
    requires Inv(w) && Lists(w, inp) && k in w.backups && StopsCover(w, k)
    requires PatchAnnotation !in inp.faults && WriteFailed !in inp.faults
    requires BackupPhaseActive(w.backups[k].status.phase)
    requires !w.backups[k].spec.leaveDown && w.backups[k].meta.quiesce != map[]
    ensures var w', state := Interrupt(w, k, inp), w.backups[k].meta.quiesce;
            Idle(w', OfBackup(k), BackupJob) &&
            w'.backups[k].status.phase.Failed? && w'.backups[k].meta.quiesce == map[] &&
            forall v :: v in w.scene.replicas && '/' !in v.ns && KeyOf(v) in state && ScaleFault(v) !in inp.scaleFaults ==>
              v in w'.scene.replicas && w'.scene.replicas[v] == state[KeyOf(v)]
  {
    var stopped, state := StopJobs(w, k, inp), w.backups[k].meta.quiesce;
    var w' := Interrupt(w, k, inp);
    InterruptClears(w, w', k, inp);
    FailReleasesRecorded(stopped, w.backups[k], inp);
    forall v | v in w.scene.replicas && '/' !in v.ns && KeyOf(v) in state && ScaleFault(v) !in inp.scaleFaults
      ensures v in w'.scene.replicas && w'.scene.replicas[v] == state[KeyOf(v)]
    {
      RecordedCountApplied(w.scene, state, v, inp.scaleFaults);
    }
  }

  /** In any reachable state a backup of up to 46 characters that has no unfinished prune Job beside an unfinished backup
      Job is covered. */
  lemma ShortNamesCovered(w: World, k: Key)
    requires k in w.backups && |k.name| <= 46
    requires Idle(w, OfBackup(k), BackupJob) || Idle(w, OfBackup(k), PruneJob)
    ensures StopsCover(w, k)
  {
  }

  /** And in any state of a run whose status writes after Job creation get through, so is every backup. */
  lemma LandedRunsCovered(trace: seq<World>, steps: seq<Step>, n: nat, k: Key)
    requires IsGuardedRun(trace, steps, false) && n < |trace| && k in trace[n].backups
    ensures StopsCover(trace[n], k)
  {
    SessionInvAlways(trace, steps, n, false);
    forall j | Live(trace[n], j, OfBackup(k), BackupJob) ensures j.name == trace[n].backups[k].status.lastJobName {
      assert BackupTied(trace[n], k, j, false);
    }
  }

  /** An interrupted backup is no longer active, whatever it had recorded. */
  lemma InterruptDeactivates(w: World, k: Key, inp: Inputs)
    requires Keyed(w) && k in w.backups && WriteFailed !in inp.faults && BackupPhaseActive(w.backups[k].status.phase)
    ensures Interrupt(w, k, inp).backups[k].status.phase.Failed?
  {
    var stopped := StopJobs(w, k, inp);
    assert Synced(stopped, w.backups[k]);
  }

  lemma {:induction false} InterruptAllDeactivates(w: World, holders: seq<Key>, inp: Inputs)
    requires Keyed(w) && WriteFailed !in inp.faults && forall k :: k in holders ==> k in w.backups
    ensures var w' := InterruptAll(w, holders, inp);
            (forall k :: k in holders ==> !BackupPhaseActive(w'.backups[k].status.phase)) &&
            forall k :: k in w.backups && !BackupPhaseActive(w.backups[k].status.phase) ==>
              w'.backups[k] == w.backups[k]
  {
    if holders != [] {
      var front, k := holders[..|holders| - 1], holders[|holders| - 1];
      InterruptAllDeactivates(w, front, inp);
      var init := InterruptAll(w, front, inp);
      if BackupPhaseActive(init.backups[k].status.phase) {
        InterruptDeactivates(init, k, inp);
      }
    }
  }

  lemma {:induction false} NoneHolds(w: World, listing: seq<Key>, keys: seq<string>, self: Owner)
    requires forall k :: k in listing ==> !BackupHolds(w, k, keys, self)
    ensures BackupHolders(w, listing, keys, self) == []
  {
    if listing != [] {
      NoneHolds(w, listing[..|listing| - 1], keys, self);
    }
  }

  lemma {:induction false} NoRestoreHolds(w: World, listing: seq<Key>, keys: seq<string>, self: Owner)
    requires forall r :: r in listing ==> !RestoreHolds(w, r, keys, self)
    ensures RestoreHolders(w, listing, keys, self) == []
  {
    if listing != [] {
      NoRestoreHolds(w, listing[..|listing| - 1], keys, self);
    }
  }

  lemma NoHolderLeft(w: World, w': World, listing: seq<Key>, keys: seq<string>, self: Owner)
    requires OnlyBackups(w, w')
    requires forall k :: k in listing && BackupHolds(w, k, keys, self) ==> !BackupPhaseActive(w'.backups[k].status.phase)
    requires forall k :: k in w.backups && !BackupPhaseActive(w.backups[k].status.phase) ==> w'.backups[k] == w.backups[k]
    ensures BackupHolders(w', listing, keys, self) == []
  {
    forall k | k in listing ensures !BackupHolds(w', k, keys, self) {
      if k in w.backups && !BackupHolds(w, k, keys, self) && BackupPhaseActive(w.backups[k].status.phase) {
        assert BackupPVCKeys(w'.backups[k]) == BackupPVCKeys(w.backups[k]);
      }
    }
    NoneHolds(w', listing, keys, self);
  }

  /** A restore that no other restore holds back always gets past every backup: after its preemptions no active
      backup overlaps its claims, and it goes on to create its Job. */
  lemma RestoreGetsPast(w: World, r: PVCRestore, inp: Inputs)
    requires Keyed(w) && Lists(w, inp) && r.key in w.restores && SameRestore(w.restores[r.key], r) && Restic(r)
    requires GetRepo !in inp.faults && WriteFailed !in inp.faults
    requires RestoreHolders(w, inp.restoreList, RestorePVCKeys(r), OfRestore(r.key)) == []
    ensures var w1 := Preempt(w, r, inp);
            BackupHolders(w1, inp.backupList, RestorePVCKeys(r), OfRestore(r.key)) == [] &&
            StartRestore(w, r, inp) == CreateRestore(w1, r, inp)
  {
    var keys, self := RestorePVCKeys(r), OfRestore(r.key);
    var holders := BackupHolders(w, inp.backupList, keys, self);
    InterruptAllDeactivates(w, holders, inp);
    NoHolderLeft(w, InterruptAll(w, holders, inp), inp.backupList, keys, self);
  }

  /** A restore leaves every backup alone that does not hold one of its claims. */
  lemma PreemptsOnlyHolders(w: World, r: PVCRestore, inp: Inputs, k: Key)
    requires Keyed(w) && k in w.backups && !BackupHolds(w, k, RestorePVCKeys(r), OfRestore(r.key))
    ensures Preempt(w, r, inp).backups[k] == w.backups[k]
  {
    InterruptsOthers(w, BackupHolders(w, inp.backupList, RestorePVCKeys(r), OfRestore(r.key)), inp, k);
  }

  lemma {:induction false} InterruptsOthers(w: World, holders: seq<Key>, inp: Inputs, k: Key)
    requires Keyed(w) && (forall h :: h in holders ==> h in w.backups) && k in w.backups && k !in holders
    ensures InterruptAll(w, holders, inp).backups[k] == w.backups[k]
  {
    if holders != [] {
      InterruptsOthers(w, holders[..|holders| - 1], inp, k);
    }
  }

  /** The Job that the status of h names, or an unfinished one of its own. */
  predicate Stoppable(w: World, h: Key, j: Key)
    requires h in w.backups
  {
    j == Key(h.ns, w.backups[h].status.lastJobName) || Matches(w.jobs, j, h, BackupPrefix(h.name))
  }

  /** A restore deletes only Jobs of the backups it preempts, by the name in their status or as the scan finds them. */
  lemma PreemptsOnlyTheirJobs(w: World, r: PVCRestore, inp: Inputs, j: Key)
    requires Keyed(w) && j in w.jobs && j !in Preempt(w, r, inp).jobs
    ensures exists h :: h in w.backups && BackupHolds(w, h, RestorePVCKeys(r), OfRestore(r.key)) && Stoppable(w, h, j)
  {
    var holders := BackupHolders(w, inp.backupList, RestorePVCKeys(r), OfRestore(r.key));
    InterruptsDelete(w, holders, inp, j);
  }

  lemma {:induction false} InterruptsKeepNames(w: World, holders: seq<Key>, inp: Inputs, k: Key)
    requires Keyed(w) && (forall h :: h in holders ==> h in w.backups) && k in w.backups
    ensures InterruptAll(w, holders, inp).backups[k].status.lastJobName == w.backups[k].status.lastJobName
  {
    if holders != [] {
      var front, h := holders[..|holders| - 1], holders[|holders| - 1];
      InterruptsKeepNames(w, front, inp, k);
      var init := InterruptAll(w, front, inp);
      FailKeepsName(StopJobs(init, h, inp), init.backups[h], inp);
    }
  }

  lemma FailKeepsName(w: World, b: PVCBackup, inp: Inputs)
    requires Known(w, b) && b.status.lastJobName == w.backups[b.key].status.lastJobName
    ensures Fail(w, b, inp).w.backups[b.key].status.lastJobName == w.backups[b.key].status.lastJobName
  {
  }

  lemma InterruptDeletes(w: World, h: Key, inp: Inputs, j: Key)
    requires h in w.backups && w.backups[h].key == h && j in w.jobs && j !in Interrupt(w, h, inp).jobs
    ensures Stoppable(w, h, j)
  {
  }

  lemma {:induction false} InterruptsDelete(w: World, holders: seq<Key>, inp: Inputs, j: Key)
    requires Keyed(w) && (forall h :: h in holders ==> h in w.backups)
    requires j in w.jobs && j !in InterruptAll(w, holders, inp).jobs
    ensures exists h :: h in holders && Stoppable(w, h, j)
  {
    var front, last := holders[..|holders| - 1], holders[|holders| - 1];
    var init := InterruptAll(w, front, inp);
    if j in init.jobs {
      InterruptsKeepNames(w, front, inp, last);
      InterruptDeletes(init, last, inp, j);
      assert Stoppable(w, last, j);
    } else {
      InterruptsDelete(w, front, inp, j);
      var h :| h in front && Stoppable(w, h, j);
      assert h in holders;
    }
  }
}
