/** The custom resources, the Jobs and the session keys of the backup and restore protocol. */
module Types {
  import opened Text

  const NANOS: int := 1_000_000_000

  /** Whole seconds of a clock reading in nanoseconds, as an RFC 3339 timestamp keeps them. */
  function Sec(now: nat): nat { now / NANOS }

  datatype Key = Key(ns: string, name: string)

  /** The phases the two controllers read or write; NoPhase is the empty string of a new object. */
  datatype Phase =
    | NoPhase | Pending | Flushing | Quiescing | Snapshotting | Uploading | Unquiescing
    | Pruning | Scheduled | Restoring | Succeeded | Failed

  predicate BackupPhaseActive(p: Phase) {
    p.Pending? || p.Flushing? || p.Quiescing? || p.Snapshotting? || p.Uploading? || p.Unquiescing?
  }

  predicate RestorePhaseActive(p: Phase) { p.Pending? || p.Quiescing? || p.Restoring? }

  predicate BackupPhaseInFlight(p: Phase) {
    p.Pending? || p.Quiescing? || p.Snapshotting? || p.Uploading?
  }

  predicate CancelPhaseBusy(p: Phase) { BackupPhaseInFlight(p) || p.Pruning? }

  /** Cron parsing is abstract: a well-formed schedule is its function from a second to the next slot. */
  datatype Schedule = Unscheduled | Malformed | Cron(next: int -> int)

  datatype Target = Target(kind: string, ns: string, name: string)

  datatype BackupSpec = BackupSpec(
    pvcName: string,
    pvcNames: seq<string>,
    pipeline: seq<string>,
    snapshotClass: string,
    quiesceEnabled: bool,
    leaveDown: bool,
    targets: seq<Target>,
    paths: seq<string>,
    excludes: seq<string>,
    schedule: Schedule,
    keepLast: Option<int>)

  datatype BackupStatus = BackupStatus(
    phase: Phase,
    lastBackupTime: Option<int>,
    lastSuccessTime: Option<int>,
    lastJobName: string,
    lastForceRun: string,
    lastForcePrune: string,
    lastForceCancel: string)

  /** Object metadata: resource version, creation second and the four annotations. An absent
      quiesce-state annotation is the empty map, which is never written. */
  datatype Meta = Meta(
    rv: nat,
    created: int,
    forceRun: string,
    forcePrune: string,
    forceCancel: string,
    quiesce: map<string, int>)

  datatype PVCBackup = PVCBackup(key: Key, spec: BackupSpec, meta: Meta, status: BackupStatus)

  datatype RestoreMode = FromResticToNewPVC | FromResticToExistingPVC | FromVolumeSnapshot | OtherMode

  datatype PVCRestore = PVCRestore(
    key: Key, mode: RestoreMode, existingPVC: string, newPVC: string, phase: Phase, lastJobName: string)

  /** The custom resource a Job belongs to. A backup's Jobs carry its controller reference;
      a restore's Jobs carry none and are known by name only. */
  datatype Owner = OfBackup(key: Key) | OfRestore(key: Key)

  datatype JobKind = BackupJob | PruneJob | RestoreJob

  /** `stamp` is the second printed in the Job's name, `created` its creation second; `claims` are the persistent volume
      claims of its namespace that its pod mounts. */
  datatype Job = Job(
    owner: Owner, kind: JobKind, stamp: nat, created: nat, succeeded: nat, failed: nat, claims: seq<string>)

  predicate Unfinished(j: Job) { j.succeeded == 0 && j.failed == 0 }

  // ---------------------------------------------------------------------
  // Claims and session keys

  function PvcList(s: BackupSpec): seq<string> {
    if |s.pvcNames| > 0 then s.pvcNames
    else if s.pvcName != "" then [s.pvcName]
    else []
  }

  function PvcKey(ns: string, name: string): string { ns + "/" + name }

  /** The lock keys of a list of claims: one per non-empty name. */
  function ClaimKeys(ns: string, pvcs: seq<string>): seq<string> {
    if pvcs == [] then []
    else ClaimKeys(ns, pvcs[..|pvcs| - 1]) +
         (if pvcs[|pvcs| - 1] == "" then [] else [PvcKey(ns, pvcs[|pvcs| - 1])])
  }

  function BackupPVCKeys(b: PVCBackup): seq<string> {
    ClaimKeys(b.key.ns, PvcList(b.spec))
  }

  function NewPVCName(r: PVCRestore): string {
    if r.newPVC == "" then r.key.name + "-pvc" else r.newPVC
  }

  function RestorePVCKeys(r: PVCRestore): seq<string> {
    match r.mode
    case FromResticToExistingPVC =>
      if r.existingPVC == "" then [] else [PvcKey(r.key.ns, r.existingPVC)]
    case FromResticToNewPVC => [PvcKey(r.key.ns, NewPVCName(r))]
    case FromVolumeSnapshot => [PvcKey(r.key.ns, NewPVCName(r))]
    case OtherMode => []
  }

  /** Two sessions touch the same disk. */
  predicate PvcKeysOverlap(a: seq<string>, b: seq<string>) {
    exists k :: k in a && k in b && k != ""
  }

  lemma OverlapSymmetric(a: seq<string>, b: seq<string>)
    ensures PvcKeysOverlap(a, b) <==> PvcKeysOverlap(b, a)
  {
  }

  // ---------------------------------------------------------------------
  // Tokens

  predicate ForceRunPending(b: PVCBackup) {
    b.meta.forceRun != "" && b.meta.forceRun != b.status.lastForceRun
  }

  predicate ForcePrunePending(b: PVCBackup) {
    b.meta.forcePrune != "" && b.meta.forcePrune != b.status.lastForcePrune
  }

  predicate ForceCancelPending(b: PVCBackup) {
    b.meta.forceCancel != "" && b.meta.forceCancel != b.status.lastForceCancel
  }

  // ---------------------------------------------------------------------
  // Schedule and pipeline

  /** Where the schedule is counted from: the last attempt, else the creation of the object. */
  function Cursor(b: PVCBackup): int {
    match b.status.lastBackupTime
    case Some(t) => t
    case None => b.meta.created
  }

  datatype Due = DueNow | DueLater | DueError

  function ScheduleDue(b: PVCBackup, now: nat): Due {
    if ForceRunPending(b) then DueNow
    else match b.spec.schedule
      case Cron(next) => if now < next(Cursor(b)) * NANOS then DueLater else DueNow
      case _ => DueError
  }

  function Pipeline(s: BackupSpec): seq<string> {
    if s.pipeline == [] then ["quiescedLive"] else s.pipeline
  }

  predicate IsSnapshotStep(step: string) { step == "csiSnapshot" || step == "topolvmSnapshot" }

  predicate Snapshots(steps: seq<string>) { exists i :: 0 <= i < |steps| && IsSnapshotStep(steps[i]) }

  predicate NeedQuiesce(s: BackupSpec) { s.quiesceEnabled || "quiescedLive" in Pipeline(s) }

  function IdlePhase(s: BackupSpec): Phase {
    if s.schedule.Unscheduled? then Succeeded else Scheduled
  }
}
