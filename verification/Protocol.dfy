/** The backup and restore session protocol as functions from one cluster state to the next.
    Each function follows one method of the two controllers; API failures come in as a set of faults. */
module Protocol {
  import opened Text
  import opened Types
  import opened Workloads
  import opened JobNames

  /** A backup run between the end of its quiesce and snapshot steps and the creation of its Job:
      the controller's in-memory object, the second it started in, the replica counts it saved and the claims it will
      upload. */
  datatype Run = Run(
    b: PVCBackup, started: nat, quiesced: map<string, int>, forced: bool, upload: seq<string>)

  datatype World = World(
    backups: map<Key, PVCBackup>,
    restores: map<Key, PVCRestore>,
    jobs: map<Key, Job>,
    scene: Scene,
    runs: map<Key, Run>,
    now: nat,
    conflicts: nat)

  /** The API calls that may return an error. */
  datatype Call =
    | GetRepo | EnsureSecrets | TakeSnapshot | CreateClaim | CreateJob | PatchAnnotation
    | WriteToken | WriteQuiescing | WriteSnapshotting | WriteUploading | WriteAdopted | WriteDone | WriteFailed
    | WriteCancel | WriteScheduled | WritePruneToken | WritePruning | WritePruneJob | WritePruned | WritePruneFailed
    | WriteRestoring | WriteRestored | WriteRestoreFailed

  /** What one reconcile gets from the API server: the order in which lists come back, and the calls that fail. */
  datatype Inputs = Inputs(
    jobList: seq<Key>, backupList: seq<Key>, restoreList: seq<Key>, faults: set<Call>, scaleFaults: set<Fault>)

  ghost predicate NoRepeats(keys: seq<Key>) { forall i, j :: 0 <= i < j < |keys| ==> keys[i] != keys[j] }

  /** The lists hold every object of their kind, once. */
  ghost predicate Lists(w: World, inp: Inputs) {
    && NoRepeats(inp.jobList) && NoRepeats(inp.backupList) && NoRepeats(inp.restoreList)
    && (forall k :: k in w.jobs <==> k in inp.jobList)
    && (forall k :: k in w.backups <==> k in inp.backupList)
    && (forall k :: k in w.restores <==> k in inp.restoreList)
  }

  /** An in-memory object beside the world it was read from. */
  datatype Mem = Mem(w: World, b: PVCBackup)

  datatype Reply = Reply(w: World, b: PVCBackup, ok: bool)

  /** b is an in-memory copy of an object of the cluster. */
  ghost predicate Known(w: World, b: PVCBackup) {
    b.key in w.backups && w.backups[b.key].key == b.key && w.backups[b.key].spec == b.spec
  }

  /** What never changes about an object. */
  ghost predicate SameIdentity(b: PVCBackup, b': PVCBackup) {
    b'.key == b.key && b'.spec == b.spec && b'.meta.created == b.meta.created
  }

  /** The in-memory metadata, resource version included, is the stored one. */
  ghost predicate Synced(w: World, b: PVCBackup) {
    Known(w, b) && b.meta == w.backups[b.key].meta
  }

  /** w' differs from w in the stored object k and in the scene only, and k keeps its identity. */
  ghost predicate OnlyObject(w: World, w': World, k: Key) {
    && k in w.backups && k in w'.backups
    && w'.backups == w.backups[k := w'.backups[k]]
    && SameIdentity(w.backups[k], w'.backups[k])
    && w'.restores == w.restores && w'.jobs == w.jobs && w'.runs == w.runs && w'.now == w.now
  }

  /** w' differs from w in the stored object k, its run, Jobs and the scene, and k keeps its identity. */
  ghost predicate OnlyOwner(w: World, w': World, k: Key) {
    && k in w.backups && k in w'.backups
    && w'.backups == w.backups[k := w'.backups[k]]
    && SameIdentity(w.backups[k], w'.backups[k])
    && w'.restores == w.restores && w'.runs - {k} == w.runs - {k} && w'.now == w.now
  }

  ghost predicate JobsShrink(w: World, w': World) {
    forall j :: j in w'.jobs ==> j in w.jobs && w'.jobs[j] == w.jobs[j]
  }

  // ---------------------------------------------------------------------
  // API writes

  /** A status write: refused on a stale resource version, and it leaves the stored metadata alone. */
  function WriteStatus(w: World, b: PVCBackup, call: Call, faults: set<Call>): (reply: Reply)
    requires Known(w, b)
    ensures OnlyObject(w, reply.w, b.key) && Known(reply.w, reply.b) && reply.b.key == b.key
    ensures Synced(w, b) ==> Synced(reply.w, reply.b) && reply.w.conflicts == w.conflicts
  {
    var stored := w.backups[b.key];
    if call in faults then Reply(w, b, false)
    else if stored.meta.rv != b.meta.rv then Reply(w.(conflicts := w.conflicts + 1), b, false)
    else
      var written := stored.(meta := stored.meta.(rv := stored.meta.rv + 1), status := b.status);
      Reply(w.(backups := w.backups[b.key := written]), written, true)
  }

  /** patchAnnotation for the quiesce state: a merge patch of one key, which is not refused on a stale
      resource version and carries only the new metadata back. */
  function PatchQuiesce(w: World, b: PVCBackup, value: map<string, int>, faults: set<Call>): (reply: Reply)
    requires Known(w, b)
    ensures OnlyObject(w, reply.w, b.key) && Known(reply.w, reply.b) && reply.b.key == b.key
    ensures reply.w.conflicts == w.conflicts && (reply.ok || Synced(w, b) ==> Synced(reply.w, reply.b))
    ensures reply.w.backups[b.key].status == w.backups[b.key].status && reply.b.status == b.status
  {
    var stored := w.backups[b.key];
    if PatchAnnotation in faults then Reply(w, b, false)
    else
      var meta := if b.meta.quiesce == value then stored.meta
                  else stored.meta.(quiesce := value, rv := stored.meta.rv + 1);
      Reply(w.(backups := w.backups[b.key := stored.(meta := meta)]), b.(meta := meta), true)
  }

  function PersistQuiesce(w: World, b: PVCBackup, state: map<string, int>, faults: set<Call>): (m: Mem)
    requires Known(w, b)
    ensures OnlyObject(w, m.w, b.key) && Known(m.w, m.b) && m.b.key == b.key
    ensures m.w.conflicts == w.conflicts && (Synced(w, b) ==> Synced(m.w, m.b))
    ensures m.w.backups[b.key].status == w.backups[b.key].status && m.b.status == b.status
  {
    if state == map[] then Mem(w, b)
    else var r := PatchQuiesce(w, b, state, faults); Mem(r.w, r.b)
  }

  function ClearQuiesce(w: World, b: PVCBackup, faults: set<Call>): (m: Mem)
    requires Known(w, b)
    ensures OnlyObject(w, m.w, b.key) && Known(m.w, m.b) && m.b.key == b.key
    ensures m.w.conflicts == w.conflicts && (Synced(w, b) ==> Synced(m.w, m.b))
    ensures m.w.backups[b.key].status == w.backups[b.key].status && m.b.status == b.status
  {
    if b.meta.quiesce == map[] then Mem(w, b)
    else var r := PatchQuiesce(w, b, map[], faults); Mem(r.w, r.b)
  }

  function CreateJobIfAbsent(jobs: map<Key, Job>, key: Key, job: Job): map<Key, Job> {
    if key in jobs then jobs else jobs[key := job]
  }

  // ---------------------------------------------------------------------
  // Releasing workloads, failing

  /** The counts releaseQuiesce applies: the recorded ones, else one replica per target. */
  function ReleaseState(b: PVCBackup): map<string, int> {
    if b.meta.quiesce == map[] then FallbackState(b.spec.targets, b.key.ns) else b.meta.quiesce
  }

  function ReleaseQuiesce(w: World, b: PVCBackup, inp: Inputs): (m: Mem)
    requires Known(w, b)
    ensures OnlyObject(w, m.w, b.key) && Known(m.w, m.b) && m.b.key == b.key
    ensures m.w.conflicts == w.conflicts && (Synced(w, b) ==> Synced(m.w, m.b))
    ensures m.w.backups[b.key].status == w.backups[b.key].status && m.b.status == b.status
  {
    if b.spec.leaveDown then ClearQuiesce(w, b, inp.faults)
    else ClearQuiesce(w.(scene := Unquiesce(w.scene, ReleaseState(b), inp.scaleFaults)), b, inp.faults)
  }

  /** The deferred restore of an aborted run. */
  function Deferred(w: World, leaveDown: bool, state: map<string, int>, inp: Inputs): World {
    if !leaveDown && state != map[] then w.(scene := Unquiesce(w.scene, state, inp.scaleFaults)) else w
  }

  function Fail(w: World, b: PVCBackup, inp: Inputs): (m: Mem)
    requires Known(w, b)
    ensures OnlyObject(w, m.w, b.key) && Known(m.w, m.b) && m.b.key == b.key
    ensures Synced(w, b) ==> m.w.conflicts == w.conflicts && Synced(m.w, m.b)
  {
    var cur := w.backups[b.key];
    if cur.status.phase.Failed? then ReleaseQuiesce(w, cur, inp)
    else
      var r := ReleaseQuiesce(w, b, inp);
      var status := r.b.status.(phase := Failed, lastBackupTime := Some(Sec(w.now)));
      var s := WriteStatus(r.w, r.b.(status := status), WriteFailed, inp.faults);
      Mem(s.w, s.b)
  }

  function FailPrune(w: World, b: PVCBackup, inp: Inputs): (w': World)
    requires Known(w, b)
    ensures OnlyObject(w, w', b.key)
    ensures Synced(w, b) ==> w'.conflicts == w.conflicts
  {
    if w.backups[b.key].status.phase.Failed? then w
    else WriteStatus(w, b.(status := b.status.(phase := Failed)), WritePruneFailed, inp.faults).w
  }

  // ---------------------------------------------------------------------
  // Finding owned Jobs

  predicate Matches(jobs: map<Key, Job>, k: Key, owner: Key, prefix: string) {
    k in jobs && k.ns == owner.ns && HasPrefix(k.name, prefix) &&
    jobs[k].owner == OfBackup(owner) && Unfinished(jobs[k])
  }

  /** The scan of findOwnedBackupJob and findOwnedPruneJob: the newest match, the later one on a tie. */
  function FindOwned(jobs: map<Key, Job>, listing: seq<Key>, owner: Key, prefix: string): (r: Option<Key>)
    ensures r.Some? ==> Matches(jobs, r.value, owner, prefix) && r.value in listing
    ensures r.None? ==> forall k :: k in listing ==> !Matches(jobs, k, owner, prefix)
    ensures r.Some? ==> forall k :: k in listing && Matches(jobs, k, owner, prefix) ==>
                                      jobs[k].created <= jobs[r.value].created
    ensures r.Some? ==> exists i :: 0 <= i < |listing| && listing[i] == r.value &&
                                    forall j :: i < j < |listing| && Matches(jobs, listing[j], owner, prefix) ==>
                                                  jobs[listing[j]].created < jobs[r.value].created
  {
    if listing == [] then None
    else
      var k := listing[|listing| - 1];
      var best := FindOwned(jobs, listing[..|listing| - 1], owner, prefix);
      if Matches(jobs, k, owner, prefix) && (best.None? || jobs[k].created >= jobs[best.value].created)
      then Some(k) else best
  }

  function FindBackupJob(w: World, b: Key, inp: Inputs): Option<Key> {
    FindOwned(w.jobs, inp.jobList, b, BackupPrefix(b.name))
  }

  function FindPruneJob(w: World, b: Key, inp: Inputs): Option<Key> {
    FindOwned(w.jobs, inp.jobList, b, PrunePrefix(b.name))
  }

  // ---------------------------------------------------------------------
  // The session lock

  predicate BackupHolds(w: World, k: Key, keys: seq<string>, self: Owner) {
    k in w.backups && OfBackup(k) != self && BackupPhaseActive(w.backups[k].status.phase) &&
    PvcKeysOverlap(keys, BackupPVCKeys(w.backups[k]))
  }

  predicate RestoreHolds(w: World, k: Key, keys: seq<string>, self: Owner) {
    k in w.restores && OfRestore(k) != self && RestorePhaseActive(w.restores[k].phase) &&
    PvcKeysOverlap(keys, RestorePVCKeys(w.restores[k]))
  }

  function BackupHolders(w: World, listing: seq<Key>, keys: seq<string>, self: Owner): (r: seq<Key>)
    ensures forall k :: k in r <==> k in listing && BackupHolds(w, k, keys, self)
  {
    if listing == [] then []
    else
      var k := listing[|listing| - 1];
      BackupHolders(w, listing[..|listing| - 1], keys, self) + (if BackupHolds(w, k, keys, self) then [k] else [])
  }

  function RestoreHolders(w: World, listing: seq<Key>, keys: seq<string>, self: Owner): (r: seq<Key>)
    ensures forall k :: k in r <==> k in listing && RestoreHolds(w, k, keys, self)
  {
    if listing == [] then []
    else
      var k := listing[|listing| - 1];
      RestoreHolders(w, listing[..|listing| - 1], keys, self) + (if RestoreHolds(w, k, keys, self) then [k] else [])
  }

  /** pvcSessionBusy for a backup. */
  predicate BackupBusy(w: World, b: PVCBackup, inp: Inputs) {
    var keys := BackupPVCKeys(b);
    BackupHolders(w, inp.backupList, keys, OfBackup(b.key)) != [] ||
    RestoreHolders(w, inp.restoreList, keys, OfBackup(b.key)) != []
  }

  // ---------------------------------------------------------------------
  // Polling

  function PollBackup(w: World, b: PVCBackup, inp: Inputs): (w': World)
    requires Known(w, b)
    ensures OnlyObject(w, w', b.key)
    ensures Synced(w, b) ==> w'.conflicts == w.conflicts
  {
    var job := Key(b.key.ns, b.status.lastJobName);
    if job !in w.jobs then Fail(w, b, inp).w
    else if w.jobs[job].succeeded > 0 then
      var r := ReleaseQuiesce(w, b, inp);
      var t := Some(Sec(w.now));
      var force := r.b.meta.forceRun;
      var status := r.b.status.(
        lastForceRun := if force != "" then force else r.b.status.lastForceRun,
        phase := IdlePhase(b.spec), lastBackupTime := t, lastSuccessTime := t);
      WriteStatus(r.w, r.b.(status := status), WriteDone, inp.faults).w
    else if w.jobs[job].failed > 0 then Fail(w, b, inp).w
    else w
  }

  function PollPrune(w: World, b: PVCBackup, inp: Inputs): (w': World)
    requires Known(w, b)
    ensures OnlyObject(w, w', b.key)
    ensures Synced(w, b) ==> w'.conflicts == w.conflicts
  {
    var job := Key(b.key.ns, b.status.lastJobName);
    if job !in w.jobs then FailPrune(w, b, inp)
    else if w.jobs[job].succeeded > 0 then
      WriteStatus(w, b.(status := b.status.(phase := IdlePhase(b.spec))), WritePruned, inp.faults).w
    else if w.jobs[job].failed > 0 then FailPrune(w, b, inp)
    else w
  }

  // ---------------------------------------------------------------------
  // The branches of Reconcile before a run starts

  function DeleteJob(w: World, ns: string, name: string): World {
    if name == "" then w else w.(jobs := w.jobs - {Key(ns, name)})
  }

  function Cancel(w: World, b: PVCBackup, inp: Inputs): (w': World)
    requires Known(w, b)
    ensures OnlyOwner(w, w', b.key) && w'.runs == w.runs
    ensures Synced(w, b) ==> w'.conflicts == w.conflicts
    ensures w'.jobs == w.jobs || w'.jobs == w.jobs - {Key(b.key.ns, b.status.lastJobName)}
  {
    var b1 := b.(status := b.status.(lastForceCancel := b.meta.forceCancel));
    var w1 := DeleteJob(w, b.key.ns, b.status.lastJobName);
    if !CancelPhaseBusy(b.status.phase) then WriteStatus(w1, b1, WriteCancel, inp.faults).w
    else if b.status.phase.Pruning? then FailPrune(w1, b1, inp)
    else Fail(w1, b1, inp).w
  }

  ghost predicate AddsPrune(w: World, w': World, k: Key) {
    var j := Key(k.ns, PruneJobName(k.name, Sec(w.now)));
    j !in w.jobs && w'.jobs == w.jobs[j := Job(OfBackup(k), PruneJob, Sec(w.now), Sec(w.now), 0, 0, [])]
  }

  function StartPrune(w: World, b: PVCBackup, inp: Inputs): (w': World)
    requires Known(w, b)
    ensures OnlyOwner(w, w', b.key) && w'.runs == w.runs
    ensures Synced(w, b) ==> w'.conflicts == w.conflicts
    ensures w'.jobs == w.jobs || AddsPrune(w, w', b.key)
  {
    var claimed := b.(status := b.status.(lastForcePrune := b.meta.forcePrune));
    if BackupPhaseInFlight(b.status.phase) then w
    else if b.spec.keepLast.None? || b.spec.keepLast.value <= 0 then
      var r := WriteStatus(w, claimed, WritePruneToken, inp.faults);
      FailPrune(r.w, r.b, inp)
    else
      var r := WriteStatus(w, claimed.(status := claimed.status.(phase := Pruning)), WritePruning, inp.faults);
      if !r.ok then r.w
      else if GetRepo in inp.faults || EnsureSecrets in inp.faults || CreateJob in inp.faults
      then FailPrune(r.w, r.b, inp)
      else StartedPrune(r.w, r.b, inp)
  }

  /** Creating the prune Job, pointing the status at it, and the first poll. */
  function StartedPrune(w: World, b: PVCBackup, inp: Inputs): (w': World)
    requires Known(w, b)
    ensures OnlyOwner(w, w', b.key) && w'.runs == w.runs
    ensures Synced(w, b) ==> w'.conflicts == w.conflicts
    ensures w'.jobs == w.jobs || AddsPrune(w, w', b.key)
  {
    var name := PruneJobName(b.key.name, Sec(w.now));
    var job := Job(OfBackup(b.key), PruneJob, Sec(w.now), Sec(w.now), 0, 0, []);
    var w1 := w.(jobs := CreateJobIfAbsent(w.jobs, Key(b.key.ns, name), job));
    var s := WriteStatus(w1, b.(status := b.status.(lastJobName := name)), WritePruneJob, inp.faults);
    if !s.ok then s.w else PollPrune(s.w, s.b, inp)
  }

  function AdoptPrune(w: World, b: PVCBackup, job: Key, inp: Inputs): (w': World)
    requires Known(w, b)
    ensures OnlyOwner(w, w', b.key) && w'.runs == w.runs
    ensures Synced(w, b) ==> w'.conflicts == w.conflicts
    ensures w'.jobs == w.jobs
  {
    var r := WriteStatus(w, b.(status := b.status.(phase := Pruning, lastJobName := job.name)), WriteAdopted, inp.faults);
    if !r.ok then r.w else PollPrune(r.w, r.b, inp)
  }

  function AdoptBackup(w: World, b: PVCBackup, job: Key, inp: Inputs): (w': World)
    requires Known(w, b)
    ensures OnlyOwner(w, w', b.key) && w'.runs == w.runs
    ensures Synced(w, b) ==> w'.conflicts == w.conflicts
    ensures w'.jobs == w.jobs
  {
    var r := WriteStatus(w, b.(status := b.status.(phase := Uploading, lastJobName := job.name)), WriteAdopted, inp.faults);
    if !r.ok then r.w else PollBackup(r.w, r.b, inp)
  }

  function WaitForSlot(w: World, b: PVCBackup, inp: Inputs): (w': World)
    requires Known(w, b)
    ensures OnlyObject(w, w', b.key)
    ensures Synced(w, b) ==> w'.conflicts == w.conflicts
  {
    if b.status.phase.Scheduled? || b.status.phase.Failed? then w
    else WriteStatus(w, b.(status := b.status.(phase := Scheduled)), WriteScheduled, inp.faults).w
  }

  // ---------------------------------------------------------------------
  // Starting a run

  datatype Snap = Snap(m: Mem, ok: bool)

  /** The claims a run uploads: those of the spec, or the clone of a snapshot if the pipeline takes one. */
  function UploadClaims(b: PVCBackup, at: nat): seq<string> {
    if Snapshots(Pipeline(b.spec)) then [CloneName(b.key.name, at)] else PvcList(b.spec)
  }

  /** The pipeline loop: phase writes whose result is ignored, and the snapshot work, which may fail. */
  function SnapshotSteps(w: World, b: PVCBackup, steps: seq<string>, inp: Inputs): (s: Snap)
    requires Known(w, b)
    ensures OnlyObject(w, s.m.w, b.key) && Known(s.m.w, s.m.b) && s.m.b.key == b.key
    ensures Synced(w, b) ==> Synced(s.m.w, s.m.b) && s.m.w.conflicts == w.conflicts
    ensures Current(w, b) ==> Current(s.m.w, s.m.b)
  {
    if steps == [] then Snap(Mem(w, b), true)
    else
      var init := SnapshotSteps(w, b, steps[..|steps| - 1], inp);
      if !init.ok || !IsSnapshotStep(steps[|steps| - 1]) then init
      else if |PvcList(b.spec)| != 1 || b.spec.snapshotClass == "" then Snap(init.m, false)
      else
        var s := WriteStatus(init.m.w, init.m.b.(status := init.m.b.status.(phase := Snapshotting)),
                             WriteSnapshotting, inp.faults);
        var m := Mem(s.w, s.b);
        Snap(m, TakeSnapshot !in inp.faults)
  }

  predicate SameTokens(s: BackupStatus, t: BackupStatus) {
    s.lastForceRun == t.lastForceRun && s.lastForcePrune == t.lastForcePrune && s.lastForceCancel == t.lastForceCancel
  }

  /** Equal but for the phase. */
  ghost predicate SameButPhase(s: BackupStatus, t: BackupStatus) {
    s == t.(phase := s.phase)
  }

  /** b is the stored object, except that its phase may not have been written. */
  ghost predicate Current(w: World, b: PVCBackup) {
    Synced(w, b) && SameButPhase(b.status, w.backups[b.key].status)
  }

  ghost predicate OpensRun(w: World, w': World, k: Key) {
    && k in w'.runs && w'.runs == w.runs[k := w'.runs[k]]
    && w'.runs[k].b.key == k && Known(w', w'.runs[k].b) && w'.runs[k].started == Sec(w.now)
    && w'.runs[k].upload == UploadClaims(w'.runs[k].b, w'.runs[k].started)
  }

  /** From the token claim to the end of the snapshot steps. Either the run is aborted here,
      or it stays open in `runs` until its Job is created. */
  function Claim(w: World, b: PVCBackup, inp: Inputs): (w': World)
    requires Known(w, b)
    ensures OnlyOwner(w, w', b.key) && w'.jobs == w.jobs && (w'.runs == w.runs || OpensRun(w, w', b.key))
    ensures Synced(w, b) ==> w'.conflicts == w.conflicts
    ensures Current(w, b) && w'.runs != w.runs ==> Current(w', w'.runs[b.key].b)
    ensures w'.runs != w.runs ==> w'.runs[b.key].forced == ForceRunPending(b)
  {
    var forced := ForceRunPending(b);
    if !forced then Prepare(w, b, false, inp)
    else
      var r := WriteStatus(w, b.(status := b.status.(lastForceRun := b.meta.forceRun)), WriteToken, inp.faults);
      if !r.ok then r.w else Prepare(r.w, r.b, true, inp)
  }

  function Prepare(w: World, b: PVCBackup, forced: bool, inp: Inputs): (w': World)
    requires Known(w, b)
    ensures OnlyOwner(w, w', b.key) && w'.jobs == w.jobs && (w'.runs == w.runs || OpensRun(w, w', b.key))
    ensures Synced(w, b) ==> w'.conflicts == w.conflicts
    ensures Current(w, b) && w'.runs != w.runs ==> Current(w', w'.runs[b.key].b)
    ensures w'.runs != w.runs ==> w'.runs[b.key].forced == forced
  {
    if GetRepo in inp.faults then Fail(w, b, inp).w
    else if BackupBusy(w, b, inp) then w
    else if EnsureSecrets in inp.faults then Fail(w, b, inp).w
    else if !NeedQuiesce(b.spec) then Snapshot(w, b, map[], forced, inp)
    else
      var r := WriteStatus(w, b.(status := b.status.(phase := Quiescing)), WriteQuiescing, inp.faults);
      if !r.ok then r.w
      else
        var q := Quiesce(r.w.scene, b.spec.targets, b.key.ns, inp.scaleFaults);
        AfterQuiesce(r.w.(scene := q.scene), r.b, q, forced, inp)
  }

  function AfterQuiesce(w: World, b: PVCBackup, q: Quiet, forced: bool, inp: Inputs): (w': World)
    requires Known(w, b)
    ensures OnlyOwner(w, w', b.key) && w'.jobs == w.jobs && (w'.runs == w.runs || OpensRun(w, w', b.key))
    ensures Synced(w, b) ==> w'.conflicts == w.conflicts
    ensures Current(w, b) && w'.runs != w.runs ==> Current(w', w'.runs[b.key].b)
    ensures w'.runs != w.runs ==> w'.runs[b.key].forced == forced
  {
    if !q.ok then Deferred(Fail(w, b, inp).w, b.spec.leaveDown, q.state, inp)
    else Snapshot(w, b, q.state, forced, inp)
  }

  function Snapshot(w: World, b: PVCBackup, state: map<string, int>, forced: bool, inp: Inputs): (w': World)
    requires Known(w, b)
    ensures OnlyOwner(w, w', b.key) && w'.jobs == w.jobs && (w'.runs == w.runs || OpensRun(w, w', b.key))
    ensures Synced(w, b) ==> w'.conflicts == w.conflicts
    ensures Current(w, b) && w'.runs != w.runs ==> Current(w', w'.runs[b.key].b)
    ensures w'.runs != w.runs ==> w'.runs[b.key].forced == forced
  {
    var s := SnapshotSteps(w, b, Pipeline(b.spec), inp);
    if s.ok then s.m.w.(runs := s.m.w.runs[b.key := Run(s.m.b, Sec(w.now), state, forced, UploadClaims(b, Sec(w.now)))])
    else Deferred(Fail(s.m.w, s.m.b, inp).w, b.spec.leaveDown, state, inp)
  }

  /** What a reconcile may touch: its own object and the scene; Jobs, by deleting one or starting a prune Job;
      its run, which it opens only when both adoption scans find nothing. It never meets a write conflict. */
  ghost predicate ReconcileShape(w: World, w': World, k: Key, inp: Inputs) {
    && OnlyOwner(w, w', k) && w'.conflicts == w.conflicts
    && (JobsShrink(w, w') || AddsPrune(w, w', k))
    && (w'.runs == w.runs ||
        (OpensRun(w, w', k) && PvcList(w.backups[k].spec) != [] && w'.runs[k].forced == ForceRunPending(w.backups[k]) &&
         (w.backups[k].spec.schedule.Unscheduled? || ScheduleDue(w.backups[k], w.now).DueNow?) &&
         Current(w', w'.runs[k].b) && w'.jobs == w.jobs && FindPruneJob(w, k, inp).None? && FindBackupJob(w, k, inp).None?))
  }

  /** PVCBackupReconciler.Reconcile up to the point where a run waits for its quiesce and snapshots. */
  function Reconcile(w: World, k: Key, inp: Inputs): (w': World)
    requires k in w.backups && w.backups[k].key == k
    ensures ReconcileShape(w, w', k, inp)
  {
    var b := w.backups[k];
    var status := b.status;
    if PvcList(b.spec) == [] then Fail(w, b, inp).w
    else if ForceCancelPending(b) then Cancel(w, b, inp)
    else if status.phase.Uploading? && status.lastJobName != "" then PollBackup(w, b, inp)
    else if status.phase.Pruning? && status.lastJobName != "" then PollPrune(w, b, inp)
    else if ForcePrunePending(b) then StartPrune(w, b, inp)
    else if FindPruneJob(w, k, inp).Some? then AdoptPrune(w, b, FindPruneJob(w, k, inp).value, inp)
    else if status.phase.Failed? && !ForceRunPending(b) && b.spec.schedule.Unscheduled? then w
    else if FindBackupJob(w, k, inp).Some? then AdoptBackup(w, b, FindBackupJob(w, k, inp).value, inp)
    else if status.phase.Pruning? then w
    else if !b.spec.schedule.Unscheduled? then
      match ScheduleDue(b, w.now)
      case DueError => Fail(w, b, inp).w
      case DueLater => WaitForSlot(w, b, inp)
      case DueNow => Claim(w, b, inp)
    else if !ForceRunPending(b) && (status.phase.Succeeded? || status.phase.Failed? || status.phase.Scheduled?) then w
    else Claim(w, b, inp)
  }

  // ---------------------------------------------------------------------
  // Creating the Job

  function Close(w: World, k: Key): World { w.(runs := w.runs - {k}) }

  /** The run found itself interrupted, or the session busy: the deferred restore is all that happens. */
  predicate Aborts(w: World, k: Key, inp: Inputs)
    requires k in w.runs && k in w.backups
  {
    w.backups[k].status.phase.Failed? || BackupBusy(w, w.runs[k].b, inp)
  }

  /** The status write that points at the new Job gets through: no API error, and the resource version is
      current, either untouched since the claim or refreshed by the quiesce-state patch. */
  predicate Lands(w: World, k: Key, inp: Inputs)
    requires k in w.runs && k in w.backups
  {
    WriteUploading !in inp.faults &&
    (w.runs[k].b.meta.rv == w.backups[k].meta.rv ||
     (w.runs[k].quiesced != map[] && PatchAnnotation !in inp.faults))
  }

  function LaunchName(run: Run): string { BackupJobName(run.b.key.name, run.started) }

  ghost predicate AddsBackup(w: World, w': World, k: Key)
    requires k in w.runs
  {
    var j := Key(k.ns, LaunchName(w.runs[k]));
    j !in w.jobs && w'.jobs == w.jobs[j := Job(OfBackup(k), BackupJob, w.runs[k].started, Sec(w.now), 0, 0, w.runs[k].upload)]
  }

  /** The run closed and its Job created, unless one of that name exists. */
  function WithJob(w: World, k: Key): World
    requires k in w.runs
  {
    var job := Job(OfBackup(k), BackupJob, w.runs[k].started, Sec(w.now), 0, 0, w.runs[k].upload);
    Close(w, k).(jobs := CreateJobIfAbsent(w.jobs, Key(k.ns, LaunchName(w.runs[k])), job))
  }

  /** Recording the quiesce state, pointing the status at the Job in one write, and the first poll. */
  function Upload(w: World, b: PVCBackup, state: map<string, int>, name: string, inp: Inputs): (w': World)
    requires Known(w, b)
    ensures OnlyObject(w, w', b.key)
  {
    var p := PersistQuiesce(w, b, state, inp.faults);
    var r := WriteStatus(p.w, p.b.(status := p.b.status.(lastJobName := name)), WriteUploading, inp.faults);
    if !r.ok then r.w else PollBackup(r.w, r.b, inp)
  }

  /** What the second half of a run may touch: its own object, the scene and one new backup Job; it closes the run. */
  ghost predicate LaunchShape(w: World, w': World, k: Key)
    requires k in w.runs
  {
    OnlyOwner(w, w', k) && w'.runs == w.runs - {k} && (w'.jobs == w.jobs || AddsBackup(w, w', k))
  }

  /** The re-check before the Job is created, and everything after it. */
  function Launch(w: World, k: Key, inp: Inputs): (w': World)
    requires k in w.runs && w.runs[k].b.key == k && Known(w, w.runs[k].b)
    ensures LaunchShape(w, w', k)
  {
    var run := w.runs[k];
    if Aborts(w, k, inp) then Deferred(Close(w, k), run.b.spec.leaveDown, run.quiesced, inp)
    else
      var b := run.b.(status := run.b.status.(phase := Uploading));
      if CreateJob in inp.faults
      then Deferred(Fail(Close(w, k), b, inp).w, b.spec.leaveDown, run.quiesced, inp)
      else Upload(WithJob(w, k), b, run.quiesced, LaunchName(run), inp)
  }

  // ---------------------------------------------------------------------
  // Restores

  /** w' differs from w in Jobs, in the scene and in the stored backups, which keep their identity. */
  ghost predicate OnlyBackups(w: World, w': World) {
    && w'.backups.Keys == w.backups.Keys
    && (forall k :: k in w.backups ==> SameIdentity(w.backups[k], w'.backups[k]))
    && w'.restores == w.restores && w'.runs == w.runs && w'.now == w.now
  }

  /** The deletions of interruptBackup: the Job the status names, then the one the scan finds. */
  function StopJobs(w: World, k: Key, inp: Inputs): (w': World)
    requires k in w.backups
    ensures JobsShrink(w, w') && w' == w.(jobs := w'.jobs)
  {
    var w1 := DeleteJob(w, k.ns, w.backups[k].status.lastJobName);
    var found := FindBackupJob(w1, k, inp);
    if found.Some? then DeleteJob(w1, k.ns, found.value.name) else w1
  }

  /** interruptBackup on the stored object of a holder. */
  function Interrupt(w: World, k: Key, inp: Inputs): (w': World)
    requires k in w.backups && w.backups[k].key == k
    ensures OnlyBackups(w, w') && w'.backups == w.backups[k := w'.backups[k]] && w'.conflicts == w.conflicts
    ensures JobsShrink(w, w') && w'.jobs == StopJobs(w, k, inp).jobs
  {
    Fail(StopJobs(w, k, inp), w.backups[k], inp).w
  }

  predicate Keyed(w: World) {
    && (forall k :: k in w.backups ==> w.backups[k].key == k)
    && (forall k :: k in w.restores ==> w.restores[k].key == k)
  }

  function InterruptAll(w: World, holders: seq<Key>, inp: Inputs): (w': World)
    requires Keyed(w) && forall k :: k in holders ==> k in w.backups
    ensures OnlyBackups(w, w') && Keyed(w') && w'.conflicts == w.conflicts
    ensures JobsShrink(w, w')
  {
    if holders == [] then w
    else
      var init := InterruptAll(w, holders[..|holders| - 1], inp);
      var k := holders[|holders| - 1];
      if BackupPhaseActive(init.backups[k].status.phase) then Interrupt(init, k, inp) else init
  }

  /** The claim a restic restore writes to: the existing one, or the one it creates. */
  function RestoreClaim(r: PVCRestore): string {
    if !r.mode.FromResticToNewPVC? then r.existingPVC
    else if r.newPVC != "" then r.newPVC
    else r.key.name + "-pvc"
  }

  predicate Restic(r: PVCRestore) { r.mode.FromResticToNewPVC? || r.mode.FromResticToExistingPVC? }

  /** Only a restic restore with a claim gets as far as a Job. */
  predicate HasClaim(r: PVCRestore) {
    r.mode.FromResticToNewPVC? || (r.mode.FromResticToExistingPVC? && r.existingPVC != "")
  }

  function RestoreJobName(name: string, at: nat): string {
    Truncate("pvcrestore-" + name + "-" + Decimal(at), MAX_NAME)
  }

  /** w' differs from w in the stored restore k, in what interrupting backups changes, and in at most one new
      restore Job of k. */
  ghost predicate OnlyRestore(w: World, w': World, k: Key) {
    && k in w.restores && k in w'.restores && w'.restores == w.restores[k := w'.restores[k]]
    && SameRestore(w.restores[k], w'.restores[k])
    && w'.backups.Keys == w.backups.Keys
    && (forall b :: b in w.backups ==> SameIdentity(w.backups[b], w'.backups[b]))
    && w'.runs == w.runs && w'.now == w.now && w'.conflicts == w.conflicts
    && forall j :: j in w'.jobs ==> (j in w.jobs && w'.jobs[j] == w.jobs[j]) || NewRestoreJob(w, j, w'.jobs[j], k)
  }

  predicate SameRestore(r: PVCRestore, r': PVCRestore) {
    r'.key == r.key && r'.mode == r.mode && r'.existingPVC == r.existingPVC && r'.newPVC == r.newPVC
  }

  predicate NewRestoreJob(w: World, j: Key, job: Job, k: Key)
    requires k in w.restores
  {
    j == Key(k.ns, RestoreJobName(k.name, Sec(w.now))) && HasClaim(w.restores[k]) &&
    job == Job(OfRestore(k), RestoreJob, Sec(w.now), Sec(w.now), 0, 0, [RestoreClaim(w.restores[k])])
  }

  function WriteRestore(w: World, r: PVCRestore, call: Call, faults: set<Call>): (w': World)
    requires r.key in w.restores && SameRestore(w.restores[r.key], r)
    ensures OnlyRestore(w, w', r.key) && w'.jobs == w.jobs && w'.backups == w.backups && w'.scene == w.scene
  {
    if call in faults then w else w.(restores := w.restores[r.key := r])
  }

  function FailRestore(w: World, r: PVCRestore, inp: Inputs): (w': World)
    requires r.key in w.restores && SameRestore(w.restores[r.key], r)
    ensures OnlyRestore(w, w', r.key) && w'.jobs == w.jobs && w'.backups == w.backups && w'.scene == w.scene
  {
    WriteRestore(w, r.(phase := Failed), WriteRestoreFailed, inp.faults)
  }

  function PollRestore(w: World, r: PVCRestore, inp: Inputs): (w': World)
    requires r.key in w.restores && SameRestore(w.restores[r.key], r)
    ensures OnlyRestore(w, w', r.key) && w'.jobs == w.jobs && w'.backups == w.backups && w'.scene == w.scene
  {
    var job := Key(r.key.ns, r.lastJobName);
    if job !in w.jobs then FailRestore(w, r, inp)
    else if w.jobs[job].succeeded > 0 then WriteRestore(w, r.(phase := Succeeded), WriteRestored, inp.faults)
    else if w.jobs[job].failed > 0 then FailRestore(w, r, inp)
    else w
  }

  /** startResticRestore after its preemptions: the claim, the secrets, the Job and the status write. */
  function CreateRestore(w: World, r: PVCRestore, inp: Inputs): (w': World)
    requires r.key in w.restores && SameRestore(w.restores[r.key], r)
    requires Restic(r)
    ensures OnlyRestore(w, w', r.key) && w'.backups == w.backups && w'.scene == w.scene
  {
    if (r.mode.FromResticToNewPVC? && CreateClaim in inp.faults) ||
       (!r.mode.FromResticToNewPVC? && r.existingPVC == "") ||
       EnsureSecrets in inp.faults || CreateJob in inp.faults
    then FailRestore(w, r, inp)
    else
      var name := RestoreJobName(r.key.name, Sec(w.now));
      var pvc := if !r.mode.FromResticToNewPVC? then r.existingPVC
                 else if r.newPVC == "" then r.key.name + "-pvc"
                 else r.newPVC;
      var job := Job(OfRestore(r.key), RestoreJob, Sec(w.now), Sec(w.now), 0, 0, [pvc]);
      var w1 := w.(jobs := CreateJobIfAbsent(w.jobs, Key(r.key.ns, name), job));
      var r1 := r.(phase := Restoring, lastJobName := name);
      if WriteRestoring in inp.faults then w1
      else PollRestore(w1.(restores := w1.restores[r.key := r1]), r1, inp)
  }

  lemma AfterInterrupts(w: World, w1: World, w2: World, k: Key)
    requires OnlyBackups(w, w1) && JobsShrink(w, w1) && w1.conflicts == w.conflicts && OnlyRestore(w1, w2, k)
    ensures OnlyRestore(w, w2, k)
  {
  }

  /** The cluster once a restore has interrupted every active backup that overlaps its claims. */
  function Preempt(w: World, r: PVCRestore, inp: Inputs): (w': World)
    requires Keyed(w)
    ensures OnlyBackups(w, w') && Keyed(w') && w'.conflicts == w.conflicts && JobsShrink(w, w')
  {
    InterruptAll(w, BackupHolders(w, inp.backupList, RestorePVCKeys(r), OfRestore(r.key)), inp)
  }

  ghost predicate PreemptsFor(w: World, w': World, r: PVCRestore, inp: Inputs)
    requires Keyed(w)
  {
    (w'.backups == w.backups && w'.scene == w.scene) ||
    (w'.backups == Preempt(w, r, inp).backups && w'.scene == Preempt(w, r, inp).scene)
  }

  function StartRestore(w: World, r: PVCRestore, inp: Inputs): (w': World)
    requires Keyed(w) && Lists(w, inp) && r.key in w.restores && SameRestore(w.restores[r.key], r)
    requires Restic(r)
    ensures OnlyRestore(w, w', r.key) && PreemptsFor(w, w', r, inp)
  {
    if GetRepo in inp.faults then FailRestore(w, r, inp)
    else if RestoreHolders(w, inp.restoreList, RestorePVCKeys(r), OfRestore(r.key)) != [] then w
    else
      var w1 := Preempt(w, r, inp);
      AfterInterrupts(w, w1, CreateRestore(w1, r, inp), r.key);
      CreateRestore(w1, r, inp)
  }

  /** A restore changes stored backups by preempting them or not at all. */
  ghost predicate Preempts(w: World, w': World, k: Key, inp: Inputs)
    requires k in w.restores && Keyed(w)
  {
    PreemptsFor(w, w', w.restores[k], inp)
  }

  /** PVCRestoreReconciler.Reconcile for a restore without quiesce. */
  function RestoreReconcile(w: World, k: Key, inp: Inputs): (w': World)
    requires k in w.restores && Keyed(w) && Lists(w, inp)
    ensures OnlyRestore(w, w', k) && Preempts(w, w', k, inp)
  {
    var r := w.restores[k];
    if r.phase.Succeeded? || r.phase.Failed? then w
    else if r.phase.Restoring? && r.lastJobName != "" then PollRestore(w, r, inp)
    else match r.mode
      case FromVolumeSnapshot =>
        if CreateClaim in inp.faults then FailRestore(w, r, inp)
        else WriteRestore(w, r.(phase := Succeeded), WriteRestored, inp.faults)
      case OtherMode => FailRestore(w, r, inp)
      case _ => StartRestore(w, r, inp)
  }

  // ---------------------------------------------------------------------
  // Steps and runs of the whole system

  datatype Token = RunToken | PruneToken | CancelToken

  function Annotated(m: Meta, token: Token, value: string): Meta {
    match token
    case RunToken => m.(forceRun := value, rv := m.rv + 1)
    case PruneToken => m.(forcePrune := value, rv := m.rv + 1)
    case CancelToken => m.(forceCancel := value, rv := m.rv + 1)
  }

  datatype Step =
    | ReconcileStep(k: Key, inp: Inputs)
    | LaunchStep(k: Key, inp: Inputs)
    | RestoreStep(k: Key, inp: Inputs)
    | Crash(k: Key)
    | FinishJob(job: Key, success: bool)
    | RemoveJob(job: Key)
    | Annotate(k: Key, token: Token, value: string)
    | ScaleByUser(workload: Workload, count: int)
    | SetPods(pods: set<Key>)
    | NewBackup(b: PVCBackup)
    | NewRestore(r: PVCRestore)
    | Tick(nanos: nat)

  predicate FreshBackup(b: PVCBackup) {
    b.status == BackupStatus(NoPhase, None, None, "", "", "", "") && b.meta.quiesce == map[]
  }

  predicate FreshRestore(r: PVCRestore) { r.phase.NoPhase? && r.lastJobName == "" }

  /** Objects sit under their own key, and every open run belongs to a stored object. */
  ghost predicate Wellformed(w: World) {
    Keyed(w) && forall k :: k in w.runs ==> w.runs[k].b.key == k && Known(w, w.runs[k].b)
  }

  /** What the environment can do next. The operator reconciles one object at a time per key,
      so an open run keeps its key from being reconciled. */
  ghost predicate Enabled(w: World, s: Step) {
    Wellformed(w) &&
    match s
    case ReconcileStep(k, inp) => Lists(w, inp) && k in w.backups && k !in w.runs
    case LaunchStep(k, inp) => Lists(w, inp) && k in w.runs
    case RestoreStep(k, inp) => Lists(w, inp) && k in w.restores
    case Crash(k) => k in w.runs
    case FinishJob(job, _) => job in w.jobs && Unfinished(w.jobs[job])
    case RemoveJob(job) => job in w.jobs
    case Annotate(k, _, _) => k in w.backups
    case ScaleByUser(workload, _) => workload in w.scene.replicas
    case SetPods(_) => true
    case NewBackup(b) => b.key !in w.backups && FreshBackup(b)
    case NewRestore(r) => r.key !in w.restores && FreshRestore(r)
    case Tick(_) => true
  }

  function Apply(w: World, s: Step): World
    requires Enabled(w, s)
  {
    match s
    case ReconcileStep(k, inp) => Reconcile(w, k, inp)
    case LaunchStep(k, inp) => Launch(w, k, inp)
    case RestoreStep(k, inp) => RestoreReconcile(w, k, inp)
    case Crash(k) => Close(w, k)
    case FinishJob(job, success) =>
      var j := w.jobs[job];
      w.(jobs := w.jobs[job := if success then j.(succeeded := 1) else j.(failed := 1)])
    case RemoveJob(job) => w.(jobs := w.jobs - {job})
    case Annotate(k, token, value) =>
      var b := w.backups[k];
      w.(backups := w.backups[k := b.(meta := Annotated(b.meta, token, value))])
    case ScaleByUser(workload, count) => w.(scene := w.scene.(replicas := w.scene.replicas[workload := count]))
    case SetPods(pods) => w.(scene := w.scene.(pods := pods))
    case NewBackup(b) => w.(backups := w.backups[b.key := b])
    case NewRestore(r) => w.(restores := w.restores[r.key := r])
    case Tick(nanos) => w.(now := w.now + nanos)
  }

  /** A cluster before the operator has done anything. */
  predicate Initial(w: World) {
    Keyed(w) && w.jobs == map[] && w.runs == map[] && w.conflicts == 0 &&
    (forall k :: k in w.backups ==> FreshBackup(w.backups[k])) &&
    (forall k :: k in w.restores ==> FreshRestore(w.restores[k]))
  }

  /** `trace` is a run: each state follows from the one before by the step between them. */
  ghost predicate IsRun(trace: seq<World>, steps: seq<Step>) {
    && |trace| == |steps| + 1
    && Initial(trace[0])
    && forall i :: 0 <= i < |steps| ==> Enabled(trace[i], steps[i]) && trace[i + 1] == Apply(trace[i], steps[i])
  }
}
