/** The methods of the two reconcilers, each proved to move the cluster as the protocol function of the same name does. */
module Controller {
  import opened Text
  import opened Types
  import opened W = Workloads
  import opened JobNames
  import opened P = Protocol
  import opened C = Cluster

  // ---------------------------------------------------------------------
  // The session lock

  /** pvcKeysOverlap: a set of the one list's keys, then a walk over the other. */
  method PvcKeysOverlap(a: seq<string>, b: seq<string>) returns (overlap: bool)
    ensures overlap <==> Types.PvcKeysOverlap(a, b)
  {
    if |a| == 0 || |b| == 0 {
      return false;
    }
    var keys: set<string> := {};
    for i := 0 to |a|
      invariant forall k :: k in keys <==> k in a[..i] && k != ""
    {
      if a[i] != "" {
        keys := keys + {a[i]};
      }
    }
    assert a[..|a|] == a;
    for i := 0 to |b|
      invariant forall j :: 0 <= j < i ==> b[j] !in keys
    {
      if b[i] in keys {
        return true;
      }
    }
    return false;
  }

  /** backupPVCKeys. */
  method BackupPVCKeys(b: PVCBackup) returns (keys: seq<string>)
    ensures keys == Types.BackupPVCKeys(b)
  {
    var pvcs := PvcList(b.spec);
    keys := [];
    for i := 0 to |pvcs|
      invariant keys == ClaimKeys(b.key.ns, pvcs[..i])
    {
      assert pvcs[..i + 1][..i] == pvcs[..i];
      if pvcs[i] != "" {
        keys := keys + [PvcKey(b.key.ns, pvcs[i])];
      }
    }
    assert pvcs[..|pvcs|] == pvcs;
  }

  datatype HolderKind = BackupHolder | RestoreHolder

  datatype Holder = Holder(kind: HolderKind, key: Key, phase: Phase)

  function BackupEntry(w: World, k: Key): Holder {
    Holder(BackupHolder, k, if k in w.backups then w.backups[k].status.phase else NoPhase)
  }

  function RestoreEntry(w: World, k: Key): Holder {
    Holder(RestoreHolder, k, if k in w.restores then w.restores[k].phase else NoPhase)
  }

  function BackupEntries(w: World, keys: seq<Key>): seq<Holder> {
    if keys == [] then [] else BackupEntries(w, keys[..|keys| - 1]) + [BackupEntry(w, keys[|keys| - 1])]
  }

  function RestoreEntries(w: World, keys: seq<Key>): seq<Holder> {
    if keys == [] then [] else RestoreEntries(w, keys[..|keys| - 1]) + [RestoreEntry(w, keys[|keys| - 1])]
  }

  lemma EntriesMore(w: World, keys: seq<Key>, k: Key)
    ensures BackupEntries(w, keys + [k]) == BackupEntries(w, keys) + [BackupEntry(w, k)]
    ensures RestoreEntries(w, keys + [k]) == RestoreEntries(w, keys) + [RestoreEntry(w, k)]
  {
    assert (keys + [k])[..|keys|] == keys;
  }

  lemma {:induction false} NoKeysNoHolders(w: World, listing: seq<Key>, self: Owner)
    ensures P.BackupHolders(w, listing, [], self) == [] && P.RestoreHolders(w, listing, [], self) == []
  {
    if listing != [] {
      NoKeysNoHolders(w, listing[..|listing| - 1], self);
    }
  }

  lemma BackupEntryMore(w: World, listing: seq<Key>, i: nat, want: seq<string>, self: Owner)
    requires i < |listing|
    ensures var before := BackupEntries(w, P.BackupHolders(w, listing[..i], want, self));
            BackupEntries(w, P.BackupHolders(w, listing[..i + 1], want, self)) ==
            if BackupHolds(w, listing[i], want, self) then before + [BackupEntry(w, listing[i])] else before
  {
    assert listing[..i + 1][..i] == listing[..i];
    var before := P.BackupHolders(w, listing[..i], want, self);
    EntriesMore(w, before, listing[i]);
    assert before + [] == before;
  }

  lemma RestoreEntryMore(w: World, listing: seq<Key>, i: nat, want: seq<string>, self: Owner)
    requires i < |listing|
    ensures var before := RestoreEntries(w, P.RestoreHolders(w, listing[..i], want, self));
            RestoreEntries(w, P.RestoreHolders(w, listing[..i + 1], want, self)) ==
            if RestoreHolds(w, listing[i], want, self) then before + [RestoreEntry(w, listing[i])] else before
  {
    assert listing[..i + 1][..i] == listing[..i];
    var before := P.RestoreHolders(w, listing[..i], want, self);
    EntriesMore(w, before, listing[i]);
    assert before + [] == before;
  }

  method ListBackupHolders(c: Server, listing: seq<Key>, want: seq<string>, self: Owner) returns (out: seq<Holder>)
    requires forall k :: k in listing ==> k in c.backups
    ensures out == BackupEntries(c.State(), P.BackupHolders(c.State(), listing, want, self))
  {
    out := [];
    for i := 0 to |listing|
      invariant out == BackupEntries(c.State(), P.BackupHolders(c.State(), listing[..i], want, self))
    {
      var k := listing[i];
      BackupEntryMore(c.State(), listing, i, want, self);
      if OfBackup(k) == self {
        continue;
      }
      var b := c.backups[k];
      if !BackupPhaseActive(b.status.phase) {
        continue;
      }
      var keys := BackupPVCKeys(b);
      var overlap := PvcKeysOverlap(want, keys);
      if overlap {
        out := out + [Holder(BackupHolder, k, b.status.phase)];
      }
    }
    assert listing[..|listing|] == listing;
  }

  method ListRestoreHolders(c: Server, listing: seq<Key>, want: seq<string>, self: Owner) returns (out: seq<Holder>)
    requires forall k :: k in listing ==> k in c.restores
    ensures out == RestoreEntries(c.State(), P.RestoreHolders(c.State(), listing, want, self))
  {
    out := [];
    for i := 0 to |listing|
      invariant out == RestoreEntries(c.State(), P.RestoreHolders(c.State(), listing[..i], want, self))
    {
      var k := listing[i];
      RestoreEntryMore(c.State(), listing, i, want, self);
      if OfRestore(k) == self {
        continue;
      }
      var r := c.restores[k];
      if !RestorePhaseActive(r.phase) {
        continue;
      }
      var overlap := PvcKeysOverlap(want, RestorePVCKeys(r));
      if overlap {
        out := out + [Holder(RestoreHolder, k, r.phase)];
      }
    }
    assert listing[..|listing|] == listing;
  }

  /** listPVCSessionHolders: the active backups and restores of other objects that overlap the wanted keys. */
  method ListHolders(c: Server, inp: Inputs, want: seq<string>, self: Owner) returns (out: seq<Holder>)
    requires Lists(c.State(), inp)
    ensures out == BackupEntries(c.State(), P.BackupHolders(c.State(), inp.backupList, want, self)) +
                   RestoreEntries(c.State(), P.RestoreHolders(c.State(), inp.restoreList, want, self))
  {
    if |want| == 0 {
      NoKeysNoHolders(c.State(), inp.backupList, self);
      NoKeysNoHolders(c.State(), inp.restoreList, self);
      return [];
    }
    var backups := ListBackupHolders(c, inp.backupList, want, self);
    var restores := ListRestoreHolders(c, inp.restoreList, want, self);
    out := backups + restores;
  }

  /** holdersOfKind, as the keys of what it keeps. */
  method HoldersOfKind(holders: seq<Holder>, kind: HolderKind) returns (keys: seq<Key>)
    ensures keys == KeysOfKind(holders, kind)
  {
    keys := [];
    for i := 0 to |holders|
      invariant keys == KeysOfKind(holders[..i], kind)
    {
      assert holders[..i + 1][..i] == holders[..i];
      if holders[i].kind == kind {
        keys := keys + [holders[i].key];
      }
    }
    assert holders[..|holders|] == holders;
  }

  function KeysOfKind(holders: seq<Holder>, kind: HolderKind): seq<Key> {
    if holders == [] then []
    else
      var h := holders[|holders| - 1];
      KeysOfKind(holders[..|holders| - 1], kind) + (if h.kind == kind then [h.key] else [])
  }

  /** Filtering the holders by kind gives back the two lists they were put together from. */
  lemma KindsSplit(w: World, backups: seq<Key>, restores: seq<Key>)
    ensures KeysOfKind(BackupEntries(w, backups) + RestoreEntries(w, restores), BackupHolder) == backups
    ensures KeysOfKind(BackupEntries(w, backups) + RestoreEntries(w, restores), RestoreHolder) == restores
  {
    EntriesKinds(w, backups);
    EntriesKinds(w, restores);
    KeysOfKindConcat(BackupEntries(w, backups), RestoreEntries(w, restores), BackupHolder);
    KeysOfKindConcat(BackupEntries(w, backups), RestoreEntries(w, restores), RestoreHolder);
  }

  lemma {:induction false} EntriesKinds(w: World, keys: seq<Key>)
    ensures KeysOfKind(BackupEntries(w, keys), BackupHolder) == keys && KeysOfKind(BackupEntries(w, keys), RestoreHolder) == []
    ensures KeysOfKind(RestoreEntries(w, keys), RestoreHolder) == keys && KeysOfKind(RestoreEntries(w, keys), BackupHolder) == []
  {
    if keys != [] {
      var front, k := keys[..|keys| - 1], keys[|keys| - 1];
      EntriesKinds(w, front);
      KeysOfKindMore(BackupEntries(w, front), BackupEntry(w, k));
      KeysOfKindMore(RestoreEntries(w, front), RestoreEntry(w, k));
      assert front + [k] == keys;
    }
  }

  lemma {:induction false} KeysOfKindConcat(a: seq<Holder>, b: seq<Holder>, kind: HolderKind)
    ensures KeysOfKind(a + b, kind) == KeysOfKind(a, kind) + KeysOfKind(b, kind)
  {
    if b == [] {
      assert a + b == a;
    } else {
      KeysOfKindConcat(a, b[..|b| - 1], kind);
      assert a + b == a + b[..|b| - 1] + [b[|b| - 1]];
      KeysOfKindMore(a + b[..|b| - 1], b[|b| - 1]);
    }
  }

  lemma KeysOfKindMore(holders: seq<Holder>, h: Holder)
    ensures forall kind :: KeysOfKind(holders + [h], kind) == KeysOfKind(holders, kind) + (if h.kind == kind then [h.key] else [])
  {
    assert (holders + [h])[..|holders|] == holders;
  }

  /** pvcSessionBusy for a backup. */
  method SessionBusy(c: Server, b: Backup, inp: Inputs) returns (busy: bool)
    requires Lists(c.State(), inp)
    ensures busy <==> BackupBusy(c.State(), b.Value(), inp)
  {
    var keys := BackupPVCKeys(b.Value());
    var holders := ListHolders(c, inp, keys, OfBackup(b.key));
    busy := |holders| > 0;
  }

  /** findOwnedBackupJob and findOwnedPruneJob: the newest unfinished Job with the prefix and the owner. The list is that
      of the whole reconcile, so Jobs deleted since then are passed over. */
  method FindOwnedJob(c: Server, inp: Inputs, owner: Key, prefix: string) returns (job: Option<string>)
    requires prefix != ""
    ensures FindOwned(c.jobs, inp.jobList, owner, prefix) == if job.None? then None else Some(Key(owner.ns, job.value))
  {
    var newest, newestTS := "", 0;
    for i := 0 to |inp.jobList|
      invariant var best := FindOwned(c.jobs, inp.jobList[..i], owner, prefix);
                if newest == "" then best.None? && newestTS == 0
                else best == Some(Key(owner.ns, newest)) && newestTS == c.jobs[best.value].created
    {
      var k := inp.jobList[i];
      assert inp.jobList[..i + 1][..i] == inp.jobList[..i];
      if k !in c.jobs || k.ns != owner.ns || !HasPrefix(k.name, prefix) {
        continue;
      }
      var j := c.jobs[k];
      if j.owner != OfBackup(owner) {
        continue;
      }
      if j.succeeded > 0 || j.failed > 0 {
        continue;
      }
      var ts := j.created;
      if ts >= newestTS {
        newestTS := ts;
        newest := k.name;
      }
    }
    assert inp.jobList[..|inp.jobList|] == inp.jobList;
    job := if newest == "" then None else Some(newest);
  }

  // ---------------------------------------------------------------------
  // Releasing workloads, failing

  method PersistQuiesce(c: Server, b: Backup, state: map<string, int>, inp: Inputs)
    requires Known(c.State(), b.Value())
    modifies c`backups, b`meta
    ensures P.PersistQuiesce(old(c.State()), old(b.Value()), state, inp.faults) == Mem(c.State(), b.Value())
  {
    if state != map[] {
      var _ := c.PatchAnnotation(b, state, inp.faults);
    }
  }

  method ClearQuiesce(c: Server, b: Backup, inp: Inputs)
    requires Known(c.State(), b.Value())
    modifies c`backups, b`meta
    ensures P.ClearQuiesce(old(c.State()), old(b.Value()), inp.faults) == Mem(c.State(), b.Value())
  {
    if b.meta.quiesce != map[] {
      var _ := c.PatchAnnotation(b, map[], inp.faults);
    }
  }

  method ReleaseQuiesce(c: Server, b: Backup, inp: Inputs)
    requires Known(c.State(), b.Value())
    modifies c`backups, c`scene, b`meta
    ensures P.ReleaseQuiesce(old(c.State()), old(b.Value()), inp) == Mem(c.State(), b.Value())
  {
    if b.spec.leaveDown {
      ClearQuiesce(c, b, inp);
      return;
    }
    var state := b.meta.quiesce;
    if state == map[] {
      for i := 0 to |b.spec.targets|
        invariant state == FallbackState(b.spec.targets[..i], b.key.ns)
      {
        var t := b.spec.targets[i];
        assert b.spec.targets[..i + 1] == b.spec.targets[..i] + [t];
        state := state[TargetKey(t, b.key.ns) := 1];
      }
      assert b.spec.targets[..|b.spec.targets|] == b.spec.targets;
    }
    C.Unquiesce(c, state, inp.scaleFaults);
    ClearQuiesce(c, b, inp);
  }

  /** The deferred restore of a run that ends without a Job. */
  method Deferred(c: Server, leaveDown: bool, state: map<string, int>, inp: Inputs)
    modifies c`scene
    ensures c.State() == P.Deferred(old(c.State()), leaveDown, state, inp)
  {
    if !leaveDown && state != map[] {
      C.Unquiesce(c, state, inp.scaleFaults);
    }
  }

  method Fail(c: Server, b: Backup, inp: Inputs)
    requires Known(c.State(), b.Value())
    modifies c`backups, c`scene, c`conflicts, b
    ensures P.Fail(old(c.State()), old(b.Value()), inp) == Mem(c.State(), b.Value())
  {
    var cur := new Backup(c.backups[b.key]);
    if cur.status.phase.Failed? {
      ReleaseQuiesce(c, cur, inp);
      b.meta, b.status := cur.meta, cur.status;
      return;
    }
    ReleaseQuiesce(c, b, inp);
    b.status := b.status.(phase := Failed, lastBackupTime := Some(Sec(c.now)));
    var _ := c.UpdateStatus(b, WriteFailed, inp.faults);
  }

  method FailPrune(c: Server, b: Backup, inp: Inputs)
    requires Known(c.State(), b.Value())
    modifies c`backups, c`conflicts, b
    ensures c.State() == P.FailPrune(old(c.State()), old(b.Value()), inp)
  {
    var cur := c.backups[b.key];
    if cur.status.phase.Failed? {
      b.meta, b.status := cur.meta, cur.status;
      return;
    }
    b.status := b.status.(phase := Failed);
    var _ := c.UpdateStatus(b, WritePruneFailed, inp.faults);
  }

  // ---------------------------------------------------------------------
  // Polling

  method PollBackupJob(c: Server, b: Backup, inp: Inputs)
    requires Known(c.State(), b.Value())
    modifies c`backups, c`scene, c`conflicts, b
    ensures c.State() == P.PollBackup(old(c.State()), old(b.Value()), inp)
  {
    var key := Key(b.key.ns, b.status.lastJobName);
    if key !in c.jobs {
      Fail(c, b, inp);
      return;
    }
    var job := c.jobs[key];
    if job.succeeded > 0 {
      ReleaseQuiesce(c, b, inp);
      var force := b.meta.forceRun;
      if force != "" {
        b.status := b.status.(lastForceRun := force);
      }
      b.status := b.status.(phase := Succeeded);
      if !b.spec.schedule.Unscheduled? {
        b.status := b.status.(phase := Scheduled);
      }
      var ts := Sec(c.now);
      b.status := b.status.(lastBackupTime := Some(ts), lastSuccessTime := Some(ts));
      var _ := c.UpdateStatus(b, WriteDone, inp.faults);
      return;
    }
    if job.failed > 0 {
      Fail(c, b, inp);
    }
  }

  method PollPruneJob(c: Server, b: Backup, inp: Inputs)
    requires Known(c.State(), b.Value())
    modifies c`backups, c`conflicts, b
    ensures c.State() == P.PollPrune(old(c.State()), old(b.Value()), inp)
  {
    var key := Key(b.key.ns, b.status.lastJobName);
    if key !in c.jobs {
      FailPrune(c, b, inp);
      return;
    }
    var job := c.jobs[key];
    if job.succeeded > 0 {
      b.status := b.status.(phase := IdlePhase(b.spec));
      var _ := c.UpdateStatus(b, WritePruned, inp.faults);
      return;
    }
    if job.failed > 0 {
      FailPrune(c, b, inp);
    }
  }

  // ---------------------------------------------------------------------
  // PVCBackupReconciler.Reconcile

  method HandleForceCancel(c: Server, b: Backup, inp: Inputs)
    requires Known(c.State(), b.Value())
    modifies c`backups, c`scene, c`jobs, c`conflicts, b
    ensures c.State() == P.Cancel(old(c.State()), old(b.Value()), inp)
  {
    var phase := b.status.phase;
    b.status := b.status.(lastForceCancel := b.meta.forceCancel);
    c.DeleteJob(b.key.ns, b.status.lastJobName);
    if !CancelPhaseBusy(phase) {
      var _ := c.UpdateStatus(b, WriteCancel, inp.faults);
    } else if phase.Pruning? {
      FailPrune(c, b, inp);
    } else {
      Fail(c, b, inp);
    }
  }

  method StartPrune(c: Server, b: Backup, inp: Inputs)
    requires Known(c.State(), b.Value())
    modifies c`backups, c`jobs, c`conflicts, b
    ensures c.State() == P.StartPrune(old(c.State()), old(b.Value()), inp)
  {
    if BackupPhaseInFlight(b.status.phase) {
      return;
    }
    b.status := b.status.(lastForcePrune := b.meta.forcePrune);
    if b.spec.keepLast.None? || b.spec.keepLast.value <= 0 {
      var _ := c.UpdateStatus(b, WritePruneToken, inp.faults);
      FailPrune(c, b, inp);
      return;
    }
    b.status := b.status.(phase := Pruning);
    var ok := c.UpdateStatus(b, WritePruning, inp.faults);
    if !ok {
      return;
    }
    if GetRepo in inp.faults || EnsureSecrets in inp.faults || Call.CreateJob in inp.faults {
      FailPrune(c, b, inp);
      return;
    }
    CreatePruneJob(c, b, inp);
  }

  method CreatePruneJob(c: Server, b: Backup, inp: Inputs)
    requires Known(c.State(), b.Value())
    modifies c`backups, c`jobs, c`conflicts, b
    ensures c.State() == StartedPrune(old(c.State()), old(b.Value()), inp)
  {
    var started := Sec(c.now);
    var name := PruneJobName(b.key.name, started);
    c.CreateJob(Key(b.key.ns, name), Job(OfBackup(b.key), PruneJob, started, started, 0, 0, []));
    b.status := b.status.(lastJobName := name);
    var ok := c.UpdateStatus(b, WritePruneJob, inp.faults);
    if ok {
      PollPruneJob(c, b, inp);
    }
  }

  method AdoptPrune(c: Server, b: Backup, job: string, inp: Inputs)
    requires Known(c.State(), b.Value())
    modifies c`backups, c`conflicts, b
    ensures c.State() == P.AdoptPrune(old(c.State()), old(b.Value()), Key(b.key.ns, job), inp)
  {
    b.status := b.status.(phase := Pruning, lastJobName := job);
    var ok := c.UpdateStatus(b, WriteAdopted, inp.faults);
    if ok {
      PollPruneJob(c, b, inp);
    }
  }

  method AdoptBackup(c: Server, b: Backup, job: string, inp: Inputs)
    requires Known(c.State(), b.Value())
    modifies c`backups, c`scene, c`conflicts, b
    ensures c.State() == P.AdoptBackup(old(c.State()), old(b.Value()), Key(b.key.ns, job), inp)
  {
    b.status := b.status.(phase := Uploading, lastJobName := job);
    var ok := c.UpdateStatus(b, WriteAdopted, inp.faults);
    if ok {
      PollBackupJob(c, b, inp);
    }
  }

  method WaitForSlot(c: Server, b: Backup, inp: Inputs)
    requires Known(c.State(), b.Value())
    modifies c`backups, c`conflicts, b
    ensures c.State() == P.WaitForSlot(old(c.State()), old(b.Value()), inp)
  {
    if !b.status.phase.Scheduled? && !b.status.phase.Failed? {
      b.status := b.status.(phase := Scheduled);
      var _ := c.UpdateStatus(b, WriteScheduled, inp.faults);
    }
  }

  /** After a failed step the pipeline goes no further. */
  lemma {:induction false} PipelineStops(w: World, b: PVCBackup, steps: seq<string>, inp: Inputs, i: nat)
    requires Known(w, b) && i <= |steps| && !SnapshotSteps(w, b, steps[..i], inp).ok
    ensures SnapshotSteps(w, b, steps, inp) == SnapshotSteps(w, b, steps[..i], inp)
  {
    if i < |steps| {
      assert steps[..|steps| - 1][..i] == steps[..i];
      PipelineStops(w, b, steps[..|steps| - 1], inp, i);
    } else {
      assert steps[..i] == steps;
    }
  }

  lemma SnapshotsMore(steps: seq<string>, i: nat)
    requires i < |steps|
    ensures Snapshots(steps[..i + 1]) <==> Snapshots(steps[..i]) || IsSnapshotStep(steps[i])
  {
    assert forall j :: 0 <= j < i ==> steps[..i + 1][j] == steps[..i][j];
    assert steps[..i + 1][i] == steps[i];
  }

  /** The pipeline loop, and what it leaves to upload. */
  method RunPipeline(c: Server, b: Backup, inp: Inputs) returns (ok: bool, upload: seq<string>)
    requires Known(c.State(), b.Value())
    modifies c`backups, c`conflicts, b
    ensures ok ==> upload == UploadClaims(old(b.Value()), Sec(c.now))
    ensures SnapshotSteps(old(c.State()), old(b.Value()), Pipeline(b.spec), inp) == Snap(Mem(c.State(), b.Value()), ok)
  {
    var steps, pvcs := Pipeline(b.spec), PvcList(b.spec);
    ghost var w, was := c.State(), b.Value();
    upload := pvcs;
    for i := 0 to |steps|
      invariant Known(c.State(), b.Value())
      invariant upload == if Snapshots(steps[..i]) then [CloneName(b.key.name, Sec(c.now))] else pvcs
      invariant SnapshotSteps(w, was, steps[..i], inp) == Snap(Mem(c.State(), b.Value()), true)
    {
      assert steps[..i + 1][..i] == steps[..i];
      SnapshotsMore(steps, i);
      if steps[i] == "csiSnapshot" || steps[i] == "topolvmSnapshot" {
        if |pvcs| != 1 || b.spec.snapshotClass == "" {
          PipelineStops(w, was, steps, inp, i + 1);
          return false, upload;
        }
        b.status := b.status.(phase := Snapshotting);
        var _ := c.UpdateStatus(b, WriteSnapshotting, inp.faults);
        if TakeSnapshot in inp.faults {
          PipelineStops(w, was, steps, inp, i + 1);
          return false, upload;
        }
        upload := [CloneName(b.key.name, Sec(c.now))];
      }
    }
    assert steps[..|steps|] == steps;
    ok := true;
  }

  /** From the pipeline to the point where the Job is about to be created. */
  method Snapshot(c: Server, b: Backup, state: map<string, int>, forced: bool, inp: Inputs)
    requires Known(c.State(), b.Value())
    modifies c`backups, c`scene, c`conflicts, c`runs, b
    ensures c.State() == P.Snapshot(old(c.State()), old(b.Value()), state, forced, inp)
  {
    var ok, upload := RunPipeline(c, b, inp);
    if ok {
      c.runs := c.runs[b.key := Run(b.Value(), Sec(c.now), state, forced, upload)];
    } else {
      Fail(c, b, inp);
      Deferred(c, b.spec.leaveDown, state, inp);
    }
  }

  method Prepare(c: Server, b: Backup, forced: bool, inp: Inputs)
    requires Known(c.State(), b.Value()) && Lists(c.State(), inp)
    modifies c`backups, c`scene, c`conflicts, c`runs, b
    ensures c.State() == P.Prepare(old(c.State()), old(b.Value()), forced, inp)
  {
    if GetRepo in inp.faults {
      Fail(c, b, inp);
      return;
    }
    var busy := SessionBusy(c, b, inp);
    if busy {
      return;
    }
    if EnsureSecrets in inp.faults {
      Fail(c, b, inp);
      return;
    }
    if !NeedQuiesce(b.spec) {
      Snapshot(c, b, map[], forced, inp);
      return;
    }
    b.status := b.status.(phase := Quiescing);
    var ok := c.UpdateStatus(b, WriteQuiescing, inp.faults);
    if ok {
      QuiesceAndSnapshot(c, b, forced, inp);
    }
  }

  method QuiesceAndSnapshot(c: Server, b: Backup, forced: bool, inp: Inputs)
    requires Known(c.State(), b.Value())
    modifies c`backups, c`scene, c`conflicts, c`runs, b
    ensures var w := old(c.State());
            var q := W.Quiesce(w.scene, b.spec.targets, b.key.ns, inp.scaleFaults);
            c.State() == AfterQuiesce(w.(scene := q.scene), old(b.Value()), q, forced, inp)
  {
    var state, quiesced := C.Quiesce(c, b.spec.targets, b.key.ns, inp.scaleFaults);
    if quiesced {
      Snapshot(c, b, state, forced, inp);
    } else {
      Fail(c, b, inp);
      Deferred(c, b.spec.leaveDown, state, inp);
    }
  }

  method Claim(c: Server, b: Backup, inp: Inputs)
    requires Known(c.State(), b.Value()) && Lists(c.State(), inp)
    modifies c`backups, c`scene, c`conflicts, c`runs, b
    ensures c.State() == P.Claim(old(c.State()), old(b.Value()), inp)
  {
    var force := b.meta.forceRun;
    if force != "" && force != b.status.lastForceRun {
      b.status := b.status.(lastForceRun := force);
      var ok := c.UpdateStatus(b, WriteToken, inp.faults);
      if ok {
        Prepare(c, b, true, inp);
      }
    } else {
      Prepare(c, b, false, inp);
    }
  }

  /** PVCBackupReconciler.Reconcile up to the point where its Job is about to be created. */
  method Reconcile(c: Server, k: Key, inp: Inputs)
    requires k in c.backups && c.backups[k].key == k && Lists(c.State(), inp)
    modifies c`backups, c`scene, c`jobs, c`conflicts, c`runs
    ensures c.State() == P.Reconcile(old(c.State()), k, inp)
  {
    var b := new Backup(c.backups[k]);
    if |PvcList(b.spec)| == 0 {
      Fail(c, b, inp);
      return;
    }
    if ForceCancelPending(b.Value()) {
      HandleForceCancel(c, b, inp);
      return;
    }
    if b.status.phase.Uploading? && b.status.lastJobName != "" {
      PollBackupJob(c, b, inp);
      return;
    }
    if b.status.phase.Pruning? && b.status.lastJobName != "" {
      PollPruneJob(c, b, inp);
      return;
    }
    if ForcePrunePending(b.Value()) {
      StartPrune(c, b, inp);
      return;
    }
    var prune := FindOwnedJob(c, inp, k, PrunePrefix(k.name));
    if prune.Some? {
      AdoptPrune(c, b, prune.value, inp);
      return;
    }
    if b.status.phase.Failed? && !ForceRunPending(b.Value()) && b.spec.schedule.Unscheduled? {
      return;
    }
    var job := FindOwnedJob(c, inp, k, BackupPrefix(k.name));
    if job.Some? {
      AdoptBackup(c, b, job.value, inp);
      return;
    }
    if b.status.phase.Pruning? {
      return;
    }
    if !b.spec.schedule.Unscheduled? {
      match ScheduleDue(b.Value(), c.now) {
        case DueError => Fail(c, b, inp);
        case DueLater => WaitForSlot(c, b, inp);
        case DueNow => Claim(c, b, inp);
      }
      return;
    }
    if !ForceRunPending(b.Value()) && (b.status.phase.Succeeded? || b.status.phase.Failed? || b.status.phase.Scheduled?) {
      return;
    }
    Claim(c, b, inp);
  }

  /** The rest of PVCBackupReconciler.Reconcile: the re-check, the Job, the record of the counts and the status. */
  method Launch(c: Server, k: Key, inp: Inputs)
    requires k in c.runs && c.runs[k].b.key == k && Known(c.State(), c.runs[k].b) && Lists(c.State(), inp)
    modifies c`backups, c`scene, c`jobs, c`conflicts, c`runs
    ensures c.State() == P.Launch(old(c.State()), k, inp)
  {
    var run := c.runs[k];
    var b := new Backup(run.b);
    var interrupted := c.backups[k].status.phase.Failed?;
    var busy := SessionBusy(c, b, inp);
    c.runs := c.runs - {k};
    if interrupted || busy {
      Deferred(c, b.spec.leaveDown, run.quiesced, inp);
      return;
    }
    b.status := b.status.(phase := Uploading);
    var name := BackupJobName(k.name, run.started);
    if Call.CreateJob in inp.faults {
      Fail(c, b, inp);
      Deferred(c, b.spec.leaveDown, run.quiesced, inp);
      return;
    }
    c.CreateJob(Key(k.ns, name), Job(OfBackup(k), BackupJob, run.started, Sec(c.now), 0, 0, run.upload));
    UploadRun(c, b, run.quiesced, name, inp);
  }

  method UploadRun(c: Server, b: Backup, state: map<string, int>, name: string, inp: Inputs)
    requires Known(c.State(), b.Value())
    modifies c`backups, c`scene, c`conflicts, b
    ensures c.State() == Upload(old(c.State()), old(b.Value()), state, name, inp)
  {
    PersistQuiesce(c, b, state, inp);
    b.status := b.status.(lastJobName := name);
    var ok := c.UpdateStatus(b, WriteUploading, inp.faults);
    if ok {
      PollBackupJob(c, b, inp);
    }
  }

  // ---------------------------------------------------------------------
  // Restores

  /** interruptBackup: the Job the status names and the Job the scan finds are deleted, and the backup fails. */
  method InterruptBackup(c: Server, k: Key, inp: Inputs)
    requires k in c.backups && c.backups[k].key == k
    modifies c`backups, c`scene, c`jobs, c`conflicts
    ensures c.State() == P.Interrupt(old(c.State()), k, inp)
  {
    var b := new Backup(c.backups[k]);
    c.DeleteJob(k.ns, b.status.lastJobName);
    var found := FindOwnedJob(c, inp, k, BackupPrefix(k.name));
    if found.Some? {
      assert found.value != "";
      c.DeleteJob(k.ns, found.value);
    }
    Fail(c, b, inp);
  }

  /** The preemption loop of startResticRestore, over holders listed before it. */
  method InterruptHolders(c: Server, holders: seq<Key>, inp: Inputs)
    requires Keyed(c.State()) && forall k :: k in holders ==> k in c.backups
    modifies c`backups, c`scene, c`jobs, c`conflicts
    ensures c.State() == P.InterruptAll(old(c.State()), holders, inp)
  {
    ghost var w := c.State();
    for i := 0 to |holders|
      invariant (forall k :: k in holders[..i] ==> k in w.backups) && c.State() == P.InterruptAll(w, holders[..i], inp)
    {
      var k := holders[i];
      assert holders[..i + 1][..i] == holders[..i];
      if BackupPhaseActive(c.backups[k].status.phase) {
        InterruptBackup(c, k, inp);
      }
    }
    assert holders[..|holders|] == holders;
  }

  method FailRestore(c: Server, r: Restore, inp: Inputs)
    requires r.key in c.restores && SameRestore(c.restores[r.key], r.Value())
    modifies c`restores, r
    ensures c.State() == P.FailRestore(old(c.State()), old(r.Value()), inp)
  {
    r.phase := Failed;
    var _ := c.UpdateRestore(r, WriteRestoreFailed, inp.faults);
  }

  method PollRestoreJob(c: Server, r: Restore, inp: Inputs)
    requires r.key in c.restores && SameRestore(c.restores[r.key], r.Value())
    modifies c`restores, r
    ensures c.State() == P.PollRestore(old(c.State()), old(r.Value()), inp)
  {
    var key := Key(r.key.ns, r.lastJobName);
    if key !in c.jobs {
      FailRestore(c, r, inp);
      return;
    }
    var job := c.jobs[key];
    if job.succeeded > 0 {
      r.phase := Succeeded;
      var _ := c.UpdateRestore(r, WriteRestored, inp.faults);
      return;
    }
    if job.failed > 0 {
      FailRestore(c, r, inp);
    }
  }

  /** startResticRestore after its preemptions. */
  method CreateRestoreJob(c: Server, r: Restore, inp: Inputs)
    requires r.key in c.restores && SameRestore(c.restores[r.key], r.Value())
    requires Restic(r.Value())
    modifies c`restores, c`jobs, r
    ensures c.State() == CreateRestore(old(c.State()), old(r.Value()), inp)
  {
    var pvc: string;
    if r.mode.FromResticToNewPVC? {
      pvc := r.newPVC;
      if pvc == "" {
        pvc := r.key.name + "-pvc";
      }
      if CreateClaim in inp.faults {
        FailRestore(c, r, inp);
        return;
      }
    } else {
      pvc := r.existingPVC;
      if pvc == "" {
        FailRestore(c, r, inp);
        return;
      }
    }
    if EnsureSecrets in inp.faults || Call.CreateJob in inp.faults {
      FailRestore(c, r, inp);
      return;
    }
    var now := Sec(c.now);
    var name := RestoreJobName(r.key.name, now);
    c.CreateJob(Key(r.key.ns, name), Job(OfRestore(r.key), RestoreJob, now, now, 0, 0, [pvc]));
    r.lastJobName := name;
    r.phase := Restoring;
    var ok := c.UpdateRestore(r, WriteRestoring, inp.faults);
    if ok {
      PollRestoreJob(c, r, inp);
    }
  }

  /** startResticRestore: waits for other restores, interrupts every active backup on the same claims, and goes on. */
  method StartResticRestore(c: Server, r: Restore, inp: Inputs)
    requires Keyed(c.State()) && Lists(c.State(), inp)
    requires r.key in c.restores && SameRestore(c.restores[r.key], r.Value())
    requires Restic(r.Value())
    modifies c`backups, c`restores, c`scene, c`jobs, c`conflicts, r
    ensures c.State() == StartRestore(old(c.State()), old(r.Value()), inp)
  {
    if GetRepo in inp.faults {
      FailRestore(c, r, inp);
      return;
    }
    var keys := RestorePVCKeys(r.Value());
    var holders := ListHolders(c, inp, keys, OfRestore(r.key));
    KindsSplit(c.State(), P.BackupHolders(c.State(), inp.backupList, keys, OfRestore(r.key)),
               P.RestoreHolders(c.State(), inp.restoreList, keys, OfRestore(r.key)));
    var restores := HoldersOfKind(holders, RestoreHolder);
    if |restores| > 0 {
      return;
    }
    var backups := HoldersOfKind(holders, BackupHolder);
    InterruptHolders(c, backups, inp);
    CreateRestoreJob(c, r, inp);
  }

  /** PVCRestoreReconciler.Reconcile for a restore without quiesce. */
  method ReconcileRestore(c: Server, k: Key, inp: Inputs)
    requires k in c.restores && Keyed(c.State()) && Lists(c.State(), inp)
    modifies c`backups, c`restores, c`scene, c`jobs, c`conflicts
    ensures c.State() == RestoreReconcile(old(c.State()), k, inp)
  {
    var r := new Restore(c.restores[k]);
    if r.phase.Succeeded? || r.phase.Failed? {
      return;
    }
    if r.phase.Restoring? && r.lastJobName != "" {
      PollRestoreJob(c, r, inp);
      return;
    }
    match r.mode {
      case FromVolumeSnapshot =>
        if CreateClaim in inp.faults {
          FailRestore(c, r, inp);
        } else {
          r.phase := Succeeded;
          var _ := c.UpdateRestore(r, WriteRestored, inp.faults);
        }
      case OtherMode => FailRestore(c, r, inp);
      case _ => StartResticRestore(c, r, inp);
    }
  }
}
