/** At most one unfinished backup Job per PVCBackup, over every run: lost status writes, crashes,
    cancels, preemptions and API failures included. */
module OneJob {
  import opened Text
  import opened Types
  import opened Workloads
  import opened JobNames
  import opened Protocol

  /** j is an unfinished Job of the given kind belonging to owner. */
  ghost predicate Live(w: World, j: Key, owner: Owner, kind: JobKind) {
    j in w.jobs && w.jobs[j].owner == owner && w.jobs[j].kind == kind && Unfinished(w.jobs[j])
  }

  ghost predicate Idle(w: World, owner: Owner, kind: JobKind) {
    forall j :: !Live(w, j, owner, kind)
  }

  /** Every Job carries a name of its kind, printed for its owner in a second not after its creation. */
  ghost predicate JobNamed(j: Key, job: Job, now: nat) {
    job.stamp <= job.created <= Sec(now) &&
    match job.owner
    case OfBackup(o) =>
      j.ns == o.ns && !job.kind.RestoreJob? &&
      j.name == if job.kind.BackupJob? then BackupJobName(o.name, job.stamp) else PruneJobName(o.name, job.stamp)
    case OfRestore(o) => job.kind.RestoreJob? && j == Key(o.ns, RestoreJobName(o.name, job.stamp))
  }

  ghost predicate Named(w: World) {
    && (forall j :: j in w.jobs ==> JobNamed(j, w.jobs[j], w.now))
    && (forall k :: k in w.runs ==> w.runs[k].started <= Sec(w.now))
  }

  ghost predicate AtMostOne(w: World) {
    forall k: Key, i: Key, j: Key :: Live(w, i, OfBackup(k), BackupJob) && Live(w, j, OfBackup(k), BackupJob) ==> i == j
  }

  /** An open run has seen no unfinished backup Job of its own, and, where prune Jobs can be recognised,
      no unfinished prune Job either. */
  ghost predicate RunsClear(w: World) {
    forall k :: k in w.runs ==>
      (|k.name| <= 52 ==> Idle(w, OfBackup(k), BackupJob)) &&
      (PruneSeen(k.name) ==> Idle(w, OfBackup(k), PruneJob))
  }

  ghost predicate Inv(w: World) {
    Wellformed(w) && Named(w) && AtMostOne(w) && RunsClear(w)
  }

  // ---------------------------------------------------------------------
  // The adoption scans are complete

  lemma BackupScanComplete(w: World, k: Key, inp: Inputs)
    requires Named(w) && |k.name| <= 52 && (forall j :: j in w.jobs ==> j in inp.jobList)
    ensures FindBackupJob(w, k, inp).None? ==> Idle(w, OfBackup(k), BackupJob)
  {
    forall j | Live(w, j, OfBackup(k), BackupJob)
      ensures Matches(w.jobs, j, k, BackupPrefix(k.name))
    {
      assert JobNamed(j, w.jobs[j], w.now);
      BackupPrefixSurvives(k.name, w.jobs[j].stamp);
    }
  }

  /** For confusable names the backup scan finds the prune Jobs that the prune scan misses. */
  lemma ConfusedScanComplete(w: World, k: Key, inp: Inputs)
    requires Named(w) && 47 <= |k.name| <= 52 && Confusable(k.name) && (forall j :: j in w.jobs ==> j in inp.jobList)
    ensures FindBackupJob(w, k, inp).None? ==> Idle(w, OfBackup(k), PruneJob)
  {
    forall j | Live(w, j, OfBackup(k), PruneJob)
      ensures Matches(w.jobs, j, k, BackupPrefix(k.name))
    {
      assert JobNamed(j, w.jobs[j], w.now);
      CutPruneLooksLikeBackup(k.name, w.jobs[j].stamp);
    }
  }

  /** Beyond 52 characters all backup Jobs of one owner have one name, so there is never more than one. */
  lemma LongNamesShared(w: World, k: Key, i: Key, j: Key)
    requires i in w.jobs && w.jobs[i].owner == OfBackup(k) && w.jobs[i].kind.BackupJob?
    requires j in w.jobs && w.jobs[j].owner == OfBackup(k) && w.jobs[j].kind.BackupJob?
    requires JobNamed(i, w.jobs[i], w.now) && JobNamed(j, w.jobs[j], w.now) && |k.name| > 52
    ensures i == j
  {
    CutBackupName(k.name, w.jobs[i].stamp);
    CutBackupName(k.name, w.jobs[j].stamp);
  }

  lemma PruneScanComplete(w: World, k: Key, inp: Inputs)
    requires Named(w) && |k.name| <= 46 && (forall j :: j in w.jobs ==> j in inp.jobList)
    ensures FindPruneJob(w, k, inp).None? ==> Idle(w, OfBackup(k), PruneJob)
  {
    forall j | Live(w, j, OfBackup(k), PruneJob)
      ensures Matches(w.jobs, j, k, PrunePrefix(k.name))
    {
      assert JobNamed(j, w.jobs[j], w.now);
      PrunePrefixSurvives(k.name, w.jobs[j].stamp);
    }
  }

  // ---------------------------------------------------------------------
  // Steps

  /** Jobs of w' are Jobs of w, at most further along. */
  ghost predicate Ages(w: World, w': World) {
    && w'.now >= w.now
    && forall j :: j in w'.jobs ==> j in w.jobs && Later(w.jobs[j], w'.jobs[j])
  }

  predicate Later(job: Job, job': Job) {
    job'.owner == job.owner && job'.kind == job.kind && job'.stamp == job.stamp && job'.created == job.created &&
    job'.claims == job.claims &&
    (Unfinished(job') ==> Unfinished(job))
  }

  lemma AgesLive(w: World, w': World)
    requires Ages(w, w')
    ensures forall j, o, kind :: Live(w', j, o, kind) ==> Live(w, j, o, kind)
  {
  }

  lemma SecMonotone(a: nat, b: nat)
    requires a <= b
    ensures Sec(a) <= Sec(b)
  {
  }

  lemma AgingKeeps(w: World, w': World)
    requires Inv(w) && Ages(w, w') && Wellformed(w')
    requires forall k :: k in w'.runs ==> k in w.runs && w'.runs[k].started == w.runs[k].started
    ensures Inv(w')
  {
    AgesLive(w, w');
    SecMonotone(w.now, w'.now);
    assert Named(w') by {
      forall j | j in w'.jobs ensures JobNamed(j, w'.jobs[j], w'.now) {
        assert JobNamed(j, w.jobs[j], w.now);
      }
    }
    assert AtMostOne(w');
    forall k | k in w'.runs
      ensures (|k.name| <= 52 ==> Idle(w', OfBackup(k), BackupJob)) && (PruneSeen(k.name) ==> Idle(w', OfBackup(k), PruneJob))
    {
      assert k in w.runs;
    }
  }

  /** One more Job, unfinished, of a kind its owner has none of. */
  ghost predicate OneMore(w: World, w': World, j: Key, job: Job) {
    w'.now == w.now && j !in w.jobs && w'.jobs == w.jobs[j := job]
  }

  lemma OneMoreLive(w: World, w': World, n: Key, job: Job)
    requires OneMore(w, w', n, job)
    ensures forall j, o, kind :: Live(w', j, o, kind) ==> Live(w, j, o, kind) || (j == n && o == job.owner && kind == job.kind)
  {
  }

  lemma PruneStartKeeps(w: World, w': World, k: Key)
    requires Inv(w) && k !in w.runs && OnlyOwner(w, w', k) && w'.runs == w.runs && AddsPrune(w, w', k)
    ensures Inv(w')
  {
    OwnerWellformed(w, w', k);
    var n := Key(k.ns, PruneJobName(k.name, Sec(w.now)));
    OneMoreLive(w, w', n, w'.jobs[n]);
    assert Named(w');
    assert AtMostOne(w');
    assert RunsClear(w');
  }

  lemma OpeningKeeps(w: World, w': World, k: Key)
    requires Inv(w) && OnlyOwner(w, w', k) && OpensRun(w, w', k) && w'.jobs == w.jobs
    requires |k.name| <= 52 ==> Idle(w, OfBackup(k), BackupJob)
    requires PruneSeen(k.name) ==> Idle(w, OfBackup(k), PruneJob)
    ensures Inv(w')
  {
    OwnerWellformed(w, w', k);
    AgesLive(w, w');
    assert Named(w');
    assert AtMostOne(w');
    assert RunsClear(w');
  }

  lemma ScansComplete(w: World, k: Key, inp: Inputs)
    requires Named(w) && (forall j :: j in w.jobs ==> j in inp.jobList)
    requires FindPruneJob(w, k, inp).None? && FindBackupJob(w, k, inp).None?
    ensures |k.name| <= 52 ==> Idle(w, OfBackup(k), BackupJob)
    ensures PruneSeen(k.name) ==> Idle(w, OfBackup(k), PruneJob)
  {
    if |k.name| <= 52 { BackupScanComplete(w, k, inp); }
    if |k.name| <= 46 {
      PruneScanComplete(w, k, inp);
    } else if PruneSeen(k.name) {
      ConfusedScanComplete(w, k, inp);
    }
  }

  lemma ReconcileKeeps(w: World, w': World, k: Key, inp: Inputs)
    requires Inv(w) && Enabled(w, ReconcileStep(k, inp)) && ReconcileShape(w, w', k, inp)
    ensures Inv(w')
  {
    if w'.runs != w.runs {
      ScansComplete(w, k, inp);
      OpeningKeeps(w, w', k);
    } else if AddsPrune(w, w', k) {
      PruneStartKeeps(w, w', k);
    } else {
      OwnerWellformed(w, w', k);
      AgingKeeps(w, w');
    }
  }

  /** An owner's step leaves objects under their keys and the other runs open on unchanged objects. */
  lemma OwnerWellformed(w: World, w': World, k: Key)
    requires Wellformed(w) && OnlyOwner(w, w', k)
    requires k in w'.runs ==> w'.runs[k].b.key == k && Known(w', w'.runs[k].b)
    ensures Wellformed(w')
  {
    forall i | i in w'.runs
      ensures w'.runs[i].b.key == i && Known(w', w'.runs[i].b)
    {
      if i != k {
        assert i in w'.runs - {k};
        assert i in w.runs && w.runs[i] == w'.runs[i];
      }
    }
  }

  lemma NewJobIsOnly(w: World, w': World, k: Key, n: Key)
    requires AtMostOne(w) && Named(w') && (|k.name| <= 52 ==> Idle(w, OfBackup(k), BackupJob)) && n in w'.jobs
    requires w'.jobs[n].owner == OfBackup(k) && w'.jobs[n].kind.BackupJob?
    requires forall j, o, kind :: Live(w', j, o, kind) ==> Live(w, j, o, kind) || (j == n && o == OfBackup(k) && kind == BackupJob)
    ensures AtMostOne(w')
  {
    forall j | |k.name| > 52 && Live(w', j, OfBackup(k), BackupJob) ensures j == n {
      assert JobNamed(j, w'.jobs[j], w'.now) && JobNamed(n, w'.jobs[n], w'.now);
      LongNamesShared(w', k, j, n);
    }
  }

  lemma LaunchKeeps(w: World, w': World, k: Key)
    requires Inv(w) && k in w.runs && LaunchShape(w, w', k)
    ensures Inv(w')
  {
    OwnerWellformed(w, w', k);
    if AddsBackup(w, w', k) {
      var n := Key(k.ns, LaunchName(w.runs[k]));
      OneMoreLive(w, w', n, w'.jobs[n]);
      assert Named(w');
      NewJobIsOnly(w, w', k, n);
      assert RunsClear(w');
    } else {
      AgingKeeps(w, w');
    }
  }

  lemma RestoreKeeps(w: World, w': World, k: Key)
    requires Inv(w) && OnlyRestore(w, w', k)
    ensures Inv(w')
  {
    assert forall j, o: Key, kind :: Live(w', j, OfBackup(o), kind) ==> Live(w, j, OfBackup(o), kind);
    assert Wellformed(w');
    assert Named(w');
    assert AtMostOne(w');
    assert RunsClear(w');
  }

  predicate External(s: Step) {
    !s.ReconcileStep? && !s.LaunchStep? && !s.RestoreStep?
  }

  lemma ExternalAges(w: World, s: Step)
    requires Wellformed(w) && Enabled(w, s) && External(s)
    ensures var w' := Apply(w, s);
            w'.now >= w.now && (forall j :: j in w'.jobs ==> j in w.jobs && Later(w.jobs[j], w'.jobs[j]))
  {
  }

  lemma ExternalWellformed(w: World, s: Step)
    requires Wellformed(w) && Enabled(w, s) && External(s)
    ensures var w' := Apply(w, s);
            Wellformed(w') && forall k :: k in w'.runs ==> k in w.runs && w'.runs[k] == w.runs[k]
  {
    if s.Annotate? || s.NewBackup? {
      ExternalWriteWellformed(w, s);
    }
  }

  lemma ExternalWriteWellformed(w: World, s: Step)
    requires Wellformed(w) && Enabled(w, s) && (s.Annotate? || s.NewBackup?)
    ensures Wellformed(Apply(w, s)) && Apply(w, s).runs == w.runs
  {
    var w' := Apply(w, s);
    forall k | k in w'.runs ensures w'.runs[k].b.key == k && Known(w', w'.runs[k].b) {
      assert k in w.runs;
    }
  }

  lemma ExternalKeeps(w: World, s: Step)
    requires Inv(w) && Enabled(w, s) && External(s)
    ensures Inv(Apply(w, s))
  {
    ExternalAges(w, s);
    ExternalWellformed(w, s);
    AgingKeeps(w, Apply(w, s));
  }

  lemma StepKeeps(w: World, s: Step)
    requires Inv(w) && Enabled(w, s)
    ensures Inv(Apply(w, s))
  {
    if External(s) {
      ExternalKeeps(w, s);
    } else {
      match s
      case ReconcileStep(k, inp) => ReconcileKeeps(w, Reconcile(w, k, inp), k, inp);
      case LaunchStep(k, inp) => LaunchKeeps(w, Launch(w, k, inp), k);
      case RestoreStep(k, inp) => RestoreKeeps(w, RestoreReconcile(w, k, inp), k);
    }
  }

  lemma {:induction false} InvAlways(trace: seq<World>, steps: seq<Step>, n: nat)
    requires IsRun(trace, steps) && n < |trace|
    ensures Inv(trace[n])
  {
    if n > 0 {
      InvAlways(trace, steps, n - 1);
      StepKeeps(trace[n - 1], steps[n - 1]);
    }
  }

  /** In every state of every run a PVCBackup has at most one unfinished backup Job, whatever its name. */
  lemma OneUnfinishedBackupJob(trace: seq<World>, steps: seq<Step>, n: nat, k: Key, i: Key, j: Key)
    requires IsRun(trace, steps) && n < |trace|
    requires Live(trace[n], i, OfBackup(k), BackupJob) && Live(trace[n], j, OfBackup(k), BackupJob)
    ensures i == j
  {
    InvAlways(trace, steps, n);
  }
}
