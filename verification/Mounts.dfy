/** The claims that Jobs mount, beside the keys that their owners lock. */
module Mounts {
  import opened Text
  import opened Types
  import opened Workloads
  import opened JobNames
  import opened Protocol
  import opened OneJob
  import opened Exclusion

  // ---------------------------------------------------------------------
  // What every Job mounts, over every run

  /** A backup Job mounts what its run uploads, a prune Job nothing, and a restore Job the claim it restores to. */
  ghost predicate MountsRight(w: World, job: Job) {
    match job.owner
    case OfBackup(k) =>
      k in w.backups && job.claims == if job.kind.BackupJob? then UploadClaims(w.backups[k], job.stamp) else []
    case OfRestore(r) => r in w.restores && HasClaim(w.restores[r]) && job.claims == [RestoreClaim(w.restores[r])]
  }

  ghost predicate Mounted(w: World) {
    && (forall j :: j in w.jobs ==> MountsRight(w, w.jobs[j]))
    && (forall k :: k in w.runs ==> UploadsRight(w, k))
  }

  ghost predicate UploadsRight(w: World, k: Key)
    requires k in w.runs
  {
    k in w.backups && w.runs[k].upload == UploadClaims(w.backups[k], w.runs[k].started)
  }

  /** Objects of w keep what decides their claims. */
  ghost predicate ClaimsKept(w: World, w': World) {
    && (forall k :: k in w.backups ==> k in w'.backups && SameIdentity(w.backups[k], w'.backups[k]))
    && (forall r :: r in w.restores ==> r in w'.restores && SameRestore(w.restores[r], w'.restores[r]))
  }

  lemma JobsStayMounted(w: World, w': World)
    requires Mounted(w) && ClaimsKept(w, w')
    requires forall j :: j in w'.jobs ==> (j in w.jobs && Later(w.jobs[j], w'.jobs[j])) || MountsRight(w', w'.jobs[j])
    requires forall k :: k in w'.runs ==> (k in w.runs && w'.runs[k] == w.runs[k]) || UploadsRight(w', k)
    ensures Mounted(w')
  {
    forall j | j in w'.jobs ensures MountsRight(w', w'.jobs[j]) {
      if j in w.jobs && Later(w.jobs[j], w'.jobs[j]) {
        assert MountsRight(w, w.jobs[j]);
      }
    }
  }

  lemma OwnerMounts(w: World, w': World, i: Key)
    requires Mounted(w) && OnlyOwner(w, w', i)
    requires JobsShrink(w, w') || AddsPrune(w, w', i) || (i in w.runs && AddsBackup(w, w', i))
    requires i in w'.runs ==> (i in w.runs && w'.runs[i] == w.runs[i]) || (OpensRun(w, w', i))
    ensures Mounted(w')
  {
    forall k | k in w'.runs
      ensures (k in w.runs && w'.runs[k] == w.runs[k]) || UploadsRight(w', k)
    {
      if k != i {
        assert k in w'.runs - {i};
        assert k in w.runs - {i};
      }
    }
    JobsStayMounted(w, w');
  }

  lemma RestoreMounts(w: World, w': World, r: Key)
    requires Mounted(w) && OnlyRestore(w, w', r)
    ensures Mounted(w')
  {
    JobsStayMounted(w, w');
  }

  lemma ExternalMounts(w: World, s: Step)
    requires Wellformed(w) && Mounted(w) && Enabled(w, s) && External(s)
    ensures Mounted(Apply(w, s))
  {
    ExternalAges(w, s);
    ExternalWellformed(w, s);
    ExternalKeepsObjects(w, s);
    JobsStayMounted(w, Apply(w, s));
  }

  lemma StepMounts(w: World, s: Step)
    requires Wellformed(w) && Mounted(w) && Enabled(w, s)
    ensures Mounted(Apply(w, s))
  {
    if External(s) {
      ExternalMounts(w, s);
    } else if s.RestoreStep? {
      RestoreMounts(w, Apply(w, s), s.k);
    } else {
      OwnerMounts(w, Apply(w, s), s.k);
    }
  }

  lemma {:induction false} MountedAlways(trace: seq<World>, steps: seq<Step>, n: nat)
    requires IsRun(trace, steps) && n < |trace|
    ensures Mounted(trace[n])
  {
    if n > 0 {
      MountedAlways(trace, steps, n - 1);
      InvAlways(trace, steps, n - 1);
      StepMounts(trace[n - 1], steps[n - 1]);
    }
  }

  // ---------------------------------------------------------------------
  // What that means for the spec

  /** Over every run a backup Job mounts the claims its spec names, the list before the single name, or where the pipeline
      takes a snapshot the clone named after the backup and the second in the Job's name. */
  lemma BackupJobMounts(trace: seq<World>, steps: seq<Step>, n: nat, j: Key, k: Key)
    requires IsRun(trace, steps) && n < |trace|
    requires j in trace[n].jobs && trace[n].jobs[j].owner == OfBackup(k) && trace[n].jobs[j].kind.BackupJob?
    ensures k in trace[n].backups && j.ns == k.ns
    ensures var s, claims := trace[n].backups[k].spec, trace[n].jobs[j].claims;
            if "csiSnapshot" in s.pipeline || "topolvmSnapshot" in s.pipeline
            then claims == [k.name + "-clone-" + Decimal(trace[n].jobs[j].stamp)]
            else if s.pvcNames != [] then claims == s.pvcNames
            else claims == if s.pvcName != "" then [s.pvcName] else []
  {
    MountedAlways(trace, steps, n);
    InvAlways(trace, steps, n);
    assert MountsRight(trace[n], trace[n].jobs[j]) && JobNamed(j, trace[n].jobs[j], trace[n].now);
    var s := trace[n].backups[k].spec;
    SnapshotsIff(s);
  }

  lemma SnapshotsIff(s: BackupSpec)
    ensures Snapshots(Pipeline(s)) <==> "csiSnapshot" in s.pipeline || "topolvmSnapshot" in s.pipeline
  {
    if s.pipeline == [] {
      assert !IsSnapshotStep(Pipeline(s)[0]);
    } else if "csiSnapshot" in s.pipeline {
      var i :| 0 <= i < |s.pipeline| && s.pipeline[i] == "csiSnapshot";
      assert IsSnapshotStep(Pipeline(s)[i]);
    } else if "topolvmSnapshot" in s.pipeline {
      var i :| 0 <= i < |s.pipeline| && s.pipeline[i] == "topolvmSnapshot";
      assert IsSnapshotStep(Pipeline(s)[i]);
    }
  }

  /** Over every run a restore Job mounts the existing claim, or the one that was created for it. */
  lemma RestoreJobMounts(trace: seq<World>, steps: seq<Step>, n: nat, j: Key, r: Key)
    requires IsRun(trace, steps) && n < |trace| && j in trace[n].jobs && trace[n].jobs[j].owner == OfRestore(r)
    ensures r in trace[n].restores && j.ns == r.ns
    ensures var restore, claims := trace[n].restores[r], trace[n].jobs[j].claims;
            (restore.mode.FromResticToExistingPVC? && restore.existingPVC != "" && claims == [restore.existingPVC]) ||
            (restore.mode.FromResticToNewPVC? && claims == [if restore.newPVC != "" then restore.newPVC else r.name + "-pvc"])
  {
    MountedAlways(trace, steps, n);
    InvAlways(trace, steps, n);
    assert MountsRight(trace[n], trace[n].jobs[j]) && JobNamed(j, trace[n].jobs[j], trace[n].now);
  }

  // ---------------------------------------------------------------------
  // Lock keys and mounted claims

  lemma {:induction false} ClaimKeysAre(ns: string, pvcs: seq<string>, key: string)
    ensures key in ClaimKeys(ns, pvcs) <==> exists c :: c in pvcs && c != "" && key == ns + "/" + c
  {
    if pvcs != [] {
      var front, last := pvcs[..|pvcs| - 1], pvcs[|pvcs| - 1];
      ClaimKeysAre(ns, front, key);
      assert pvcs == front + [last];
      if c :| c in front && c != "" && key == ns + "/" + c {
        assert c in pvcs;
      }
      if last != "" && key == ns + "/" + last {
        assert last in pvcs;
      }
    }
  }

  lemma SameKey(ns: string, c: string, d: string)
    ensures ns + "/" + c == ns + "/" + d <==> c == d
  {
    assert (ns + "/" + c)[|ns| + 1..] == c && (ns + "/" + d)[|ns| + 1..] == d;
  }

  /** A backup that takes a snapshot mounts its clone instead of its claims. */
  ghost predicate MountsClone(w: World, o: Owner) {
    o.OfBackup? && o.key in w.backups && Snapshots(Pipeline(w.backups[o.key].spec))
  }

  /** An unfinished Job mounts exactly the claims whose keys its owner locks. */
  lemma LocksWhatItMounts(w: World, j: Key, o: Owner, c: string)
    requires Mounted(w) && Keyed(w) && Session(w, j, o) && !MountsClone(w, o) && c != ""
    ensures c in w.jobs[j].claims <==> o.key.ns + "/" + c in SessionKeys(w, o)
  {
    assert MountsRight(w, w.jobs[j]);
    match o
    case OfBackup(k) =>
      var pvcs := PvcList(w.backups[k].spec);
      ClaimKeysAre(k.ns, pvcs, k.ns + "/" + c);
      if d :| d in pvcs && d != "" && k.ns + "/" + c == k.ns + "/" + d {
        SameKey(k.ns, c, d);
      }
    case OfRestore(r) =>
      SameKey(r.ns, c, RestoreClaim(w.restores[r]));
  }

  /** The claims of every unfinished Job are covered by its owner's keys, and the keys by the claims, over every run. */
  lemma LocksWhatItMountsAlways(trace: seq<World>, steps: seq<Step>, n: nat, j: Key, o: Owner, c: string)
    requires IsRun(trace, steps) && n < |trace| && Session(trace[n], j, o) && !MountsClone(trace[n], o) && c != ""
    ensures c in trace[n].jobs[j].claims <==> o.key.ns + "/" + c in SessionKeys(trace[n], o)
  {
    MountedAlways(trace, steps, n);
    InvAlways(trace, steps, n);
    LocksWhatItMounts(trace[n], j, o, c);
  }

  /** A clone is not among the keys of its backup unless the spec names it as well. */
  lemma CloneIsNotLocked(w: World, j: Key, k: Key)
    requires Mounted(w) && Keyed(w) && Session(w, j, OfBackup(k)) && MountsClone(w, OfBackup(k))
    ensures var clone := k.name + "-clone-" + Decimal(w.jobs[j].stamp);
            w.jobs[j].claims == [clone] &&
            (k.ns + "/" + clone in SessionKeys(w, OfBackup(k)) <==> clone in PvcList(w.backups[k].spec))
  {
    var clone := k.name + "-clone-" + Decimal(w.jobs[j].stamp);
    assert MountsRight(w, w.jobs[j]);
    var pvcs := PvcList(w.backups[k].spec);
    ClaimKeysAre(k.ns, pvcs, k.ns + "/" + clone);
    if d :| d in pvcs && d != "" && k.ns + "/" + clone == k.ns + "/" + d {
      SameKey(k.ns, clone, d);
    }
  }

  /** Session mutual exclusion in terms of disks: in no state of any run whose status writes after Job creation get
      through do two unfinished backup or restore Jobs mount one claim, clones of snapshots aside. */
  lemma OneJobPerClaim(trace: seq<World>, steps: seq<Step>, n: nat, i: Key, o: Owner, j: Key, p: Owner, c: string)
    requires IsRun(trace, steps) && n < |trace|
    requires forall m :: 0 <= m < |steps| ==> WritesLand(trace[m], steps[m])
    requires Session(trace[n], i, o) && Session(trace[n], j, p) && !MountsClone(trace[n], o) && !MountsClone(trace[n], p)
    requires i.ns == j.ns && c != "" && c in trace[n].jobs[i].claims && c in trace[n].jobs[j].claims
    ensures i == j && o == p
  {
    var w := trace[n];
    InvAlways(trace, steps, n);
    assert JobNamed(i, w.jobs[i], w.now) && JobNamed(j, w.jobs[j], w.now);
    LocksWhatItMountsAlways(trace, steps, n, i, o, c);
    LocksWhatItMountsAlways(trace, steps, n, j, p, c);
    assert PvcKeysOverlap(SessionKeys(w, o), SessionKeys(w, p));
    SessionMutualExclusion(trace, steps, n, i, o, j, p);
    forall m | 0 <= m < |steps| ensures Guarded(trace[m], steps[m], false) {
      assert WritesLand(trace[m], steps[m]);
    }
    SessionInvAlways(trace, steps, n, false);
    if o.OfRestore? {
      assert RestoreTied(w, o.key, i) && RestoreTied(w, o.key, j);
    }
  }

  // ---------------------------------------------------------------------
  // Who holds back whom

  /** Keys of two namespaces without slashes agree exactly on namespace and claim. */
  lemma KeysAgree(ns: string, c: string, ns': string, d: string)
    requires '/' !in ns && '/' !in ns'
    ensures ns + "/" + c == ns' + "/" + d <==> ns == ns' && c == d
  {
    var s, s' := ns + "/" + c, ns' + "/" + d;
    assert s[|ns|] == '/' && s'[|ns'|] == '/';
    if |ns| < |ns'| {
      assert s'[|ns|] == ns'[|ns|];
    } else if |ns'| < |ns| {
      assert s[|ns'|] == ns[|ns'|];
    }
    if s == s' {
      assert ns == s[..|ns|] && ns' == s'[..|ns'|];
      assert c == s[|ns| + 1..] && d == s'[|ns'| + 1..];
    }
  }

  /** One backup holds back another exactly if it is pending, flushing, quiescing, snapshotting, uploading or
      unquiescing, and both name a claim of the same namespace. */
  lemma BackupHoldsIff(w: World, k: Key, b: PVCBackup)
    requires k in w.backups && w.backups[k].key == k && '/' !in k.ns && '/' !in b.key.ns
    ensures BackupHolds(w, k, BackupPVCKeys(b), OfBackup(b.key))
            <==> k != b.key && k.ns == b.key.ns &&
                 w.backups[k].status.phase in {Pending, Flushing, Quiescing, Snapshotting, Uploading, Unquiescing} &&
                 exists c :: c != "" && c in PvcList(b.spec) && c in PvcList(w.backups[k].spec)
  {
    var mine, theirs := BackupPVCKeys(b), BackupPVCKeys(w.backups[k]);
    if key :| key in mine && key in theirs && key != "" {
      ClaimKeysAre(b.key.ns, PvcList(b.spec), key);
      ClaimKeysAre(k.ns, PvcList(w.backups[k].spec), key);
      var c :| c in PvcList(b.spec) && c != "" && key == b.key.ns + "/" + c;
      var d :| d in PvcList(w.backups[k].spec) && d != "" && key == k.ns + "/" + d;
      KeysAgree(b.key.ns, c, k.ns, d);
    }
    if c :| k.ns == b.key.ns && c != "" && c in PvcList(b.spec) && c in PvcList(w.backups[k].spec) {
      var key := k.ns + "/" + c;
      ClaimKeysAre(b.key.ns, PvcList(b.spec), key);
      ClaimKeysAre(k.ns, PvcList(w.backups[k].spec), key);
      assert key in mine && key in theirs;
    }
  }

  /** One restore holds back a backup exactly if it is pending, quiescing or restoring to a claim the backup names. */
  lemma RestoreHoldsBackupIff(w: World, r: Key, b: PVCBackup)
    requires r in w.restores && w.restores[r].key == r && HasClaim(w.restores[r]) && '/' !in r.ns && '/' !in b.key.ns
    ensures RestoreHolds(w, r, BackupPVCKeys(b), OfBackup(b.key))
            <==> r.ns == b.key.ns && w.restores[r].phase in {Pending, Quiescing, Restoring} &&
                 RestoreClaim(w.restores[r]) in PvcList(b.spec)
  {
    var claim := RestoreClaim(w.restores[r]);
    var key := r.ns + "/" + claim;
    assert claim != "" && RestorePVCKeys(w.restores[r]) == [key];
    ClaimKeysAre(b.key.ns, PvcList(b.spec), key);
    if c :| c in PvcList(b.spec) && c != "" && key == b.key.ns + "/" + c {
      KeysAgree(r.ns, claim, b.key.ns, c);
    }
  }

  /** And two restores hold each other back exactly over one claim. */
  lemma RestoreHoldsRestoreIff(w: World, r: Key, other: PVCRestore)
    requires r in w.restores && w.restores[r].key == r && HasClaim(w.restores[r]) && HasClaim(other)
    requires '/' !in r.ns && '/' !in other.key.ns
    ensures RestoreHolds(w, r, RestorePVCKeys(other), OfRestore(other.key))
            <==> r != other.key && w.restores[r].phase in {Pending, Quiescing, Restoring} &&
                 r.ns == other.key.ns && RestoreClaim(w.restores[r]) == RestoreClaim(other)
  {
    KeysAgree(r.ns, RestoreClaim(w.restores[r]), other.key.ns, RestoreClaim(other));
    var mine, theirs := RestorePVCKeys(other), RestorePVCKeys(w.restores[r]);
    assert theirs == [r.ns + "/" + RestoreClaim(w.restores[r])];
    assert mine == [other.key.ns + "/" + RestoreClaim(other)];
    assert theirs[0] in mine ==> PvcKeysOverlap(mine, theirs);
  }

  /** A backup is preempted by a restore exactly if it is active and names the claim restored to. */
  lemma PreemptsIff(w: World, k: Key, r: PVCRestore)
    requires k in w.backups && w.backups[k].key == k && HasClaim(r) && '/' !in k.ns && '/' !in r.key.ns
    ensures BackupHolds(w, k, RestorePVCKeys(r), OfRestore(r.key))
            <==> k.ns == r.key.ns && RestoreClaim(r) in PvcList(w.backups[k].spec) &&
                 w.backups[k].status.phase in {Pending, Flushing, Quiescing, Snapshotting, Uploading, Unquiescing}
  {
    var key := r.key.ns + "/" + RestoreClaim(r);
    assert RestoreClaim(r) != "" && RestorePVCKeys(r) == [key];
    ClaimKeysAre(k.ns, PvcList(w.backups[k].spec), key);
    if c :| c in PvcList(w.backups[k].spec) && c != "" && key == k.ns + "/" + c {
      KeysAgree(r.key.ns, RestoreClaim(r), k.ns, c);
    }
  }

  /** A restore from a volume snapshot locks the claim that a restic restore of the same names would create. */
  lemma SnapshotRestoreLocks(r: PVCRestore)
    requires r.mode.FromVolumeSnapshot?
    ensures RestorePVCKeys(r) == [r.key.ns + "/" + RestoreClaim(r.(mode := FromResticToNewPVC))]
  {
  }
}
