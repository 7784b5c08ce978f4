/** More runs that show a failure: a cancel, a lost write, a crash, and two backups of one workload. */
module SessionExamples {
  import opened Text
  import opened Types
  import opened Workloads
  import opened Conservation
  import opened JobNames
  import opened Protocol
  import opened OneJob
  import opened Exclusion
  import opened Preemption
  import opened Isolation
  import opened Replicas
  import opened Examples

  /** Without another active session nothing is busy. */
  lemma InactiveIsFree(w: World, b: PVCBackup, inp: Inputs)
    requires forall i :: i in w.backups && i != b.key ==> !BackupPhaseActive(w.backups[i].status.phase)
    requires forall r :: r in w.restores ==> !RestorePhaseActive(w.restores[r].phase)
    ensures !BackupBusy(w, b, inp)
  {
    var keys, self := BackupPVCKeys(b), OfBackup(b.key);
    NoneHolds(w, inp.backupList, keys, self);
    NoRestoreHolds(w, inp.restoreList, keys, self);
  }

  // ---------------------------------------------------------------------
  // A cancel that leaves the Job running

  function CancelledBackup(handled: bool): PVCBackup {
    var b := NightlyBackup();
    var asked := b.(meta := b.meta.(rv := 1, forceCancel := "cancel"));
    if handled then asked.(meta := asked.meta.(rv := 2), status := asked.status.(lastForceCancel := "cancel")) else asked
  }

  function CancelledState(i: nat): World {
    if i < 3 then NightlyState(i)
    else NightlyState(2).(backups := map[NIGHTLY := CancelledBackup(i > 3)])
  }

  function CancelledSteps(): (steps: seq<Step>)
    ensures |steps| == 4 && steps[0] == NightlyStep(0) && steps[1] == NightlyStep(1)
    ensures steps[2] == Annotate(NIGHTLY, CancelToken, "cancel")
    ensures steps[3] == ReconcileStep(NIGHTLY, Calls([NightlyJob(MIDNIGHT)], [NIGHTLY], [], {}))
  {
    [NightlyStep(0), NightlyStep(1), Annotate(NIGHTLY, CancelToken, "cancel"),
     ReconcileStep(NIGHTLY, Calls([NightlyJob(MIDNIGHT)], [NIGHTLY], [], {}))]
  }

  lemma CancelAsked()
    ensures Leads(CancelledState(2), CancelledSteps()[2], CancelledState(3))
  {
  }

  lemma CancelHandled()
    ensures Leads(CancelledState(3), CancelledSteps()[3], CancelledState(4))
  {
    var w, b, inp := CancelledState(3), CancelledBackup(false), CancelledSteps()[3].inp;
    assert Reconcile(w, NIGHTLY, inp) == Cancel(w, b, inp);
  }

  /** A run in which a cancel is handled and done with, and the Job, whose status write was lost, is still unfinished. */
  lemma CancelMissesJob() returns (trace: seq<World>, steps: seq<Step>)
    ensures IsRun(trace, steps) && |steps| == 4 && NIGHTLY in trace[4].backups
    ensures trace[4].backups[NIGHTLY].meta.forceCancel != "" && !ForceCancelPending(trace[4].backups[NIGHTLY])
    ensures Live(trace[4], NightlyJob(MIDNIGHT), OfBackup(NIGHTLY), BackupJob)
  {
    trace, steps := seq(5, i requires 0 <= i < 5 => CancelledState(i)), CancelledSteps();
    NightlyBegins();
    forall i | 0 <= i < |steps| ensures Leads(trace[i], steps[i], trace[i + 1]) {
      CancelledLeads(i);
    }
    LeadsAlong(trace, steps);
    StillRunning();
  }

  lemma CancelledLeads(i: nat)
    requires i < 4
    ensures Leads(CancelledState(i), CancelledSteps()[i], CancelledState(i + 1))
  {
    if i < 2 {
      NightlyLeads(i);
    } else if i == 2 {
      CancelAsked();
    } else {
      CancelHandled();
    }
  }

  lemma StillRunning()
    ensures var w := CancelledState(4);
            w.backups == map[NIGHTLY := CancelledBackup(true)] && Live(w, NightlyJob(MIDNIGHT), OfBackup(NIGHTLY), BackupJob)
  {
  }

  // ---------------------------------------------------------------------
  // Two sessions on one claim after a lost write

  const LEFT := Key("ns", "a")
  const RIGHT := Key("ns", "b")

  function Sharing(k: Key): PVCBackup { Submit(k, Spec(["live"], [], Cron(DAILY), None), MIDNIGHT - 1, "") }

  /** Both backups as submitted, at midnight. */
  function SharingWorld(jobs: map<Key, Job>, runs: map<Key, Run>): World {
    World(map[LEFT := Sharing(LEFT), RIGHT := Sharing(RIGHT)], map[], jobs, Scene(map[], {}), runs, MIDNIGHT * NANOS, 0)
  }

  function SharingRun(k: Key): Run { Run(Sharing(k), MIDNIGHT, map[], false, ["data"]) }

  function SharingJob(k: Key): Key { Key("ns", BackupJobName(k.name, MIDNIGHT)) }

  function Unended(k: Key): Job { Job(OfBackup(k), BackupJob, MIDNIGHT, MIDNIGHT, 0, 0, ["data"]) }

  ghost predicate Shared(w: World) {
    w.backups == map[LEFT := Sharing(LEFT), RIGHT := Sharing(RIGHT)] && w.restores == map[] && w.now == MIDNIGHT * NANOS
  }

  lemma SharingReconciles(w: World, k: Key, inp: Inputs)
    requires Shared(w) && (k == LEFT || k == RIGHT) && w.runs == map[] && inp.faults == {}
    requires forall j :: j in w.jobs ==> w.jobs[j].owner != OfBackup(k)
    ensures Reconcile(w, k, inp) == w.(runs := map[k := SharingRun(k)])
  {
    DailySlots();
    InactiveIsFree(w, w.backups[k], inp);
    FindsNothing(w.jobs, inp.jobList, k, PrunePrefix(k.name));
    FindsNothing(w.jobs, inp.jobList, k, BackupPrefix(k.name));
    OpensPlainly(w, k, inp);
    assert w.runs[k := SharingRun(k)] == map[k := SharingRun(k)];
  }

  lemma SharingOpens(k: Key, jobs: map<Key, Job>, inp: Inputs)
    requires k == LEFT || k == RIGHT
    requires inp.faults == {} && Lists(SharingWorld(jobs, map[]), inp)
    requires forall j :: j in jobs ==> jobs[j].owner != OfBackup(k)
    ensures Leads(SharingWorld(jobs, map[]), ReconcileStep(k, inp), SharingWorld(jobs, map[k := SharingRun(k)]))
  {
    SharingReconciles(SharingWorld(jobs, map[]), k, inp);
  }

  lemma SharingLost(w: World, k: Key, inp: Inputs)
    requires Shared(w) && Wellformed(w) && (k == LEFT || k == RIGHT) && w.runs == map[k := SharingRun(k)]
    requires inp.faults == {WriteUploading} && SharingJob(k) !in w.jobs
    ensures Launch(w, k, inp) == w.(runs := map[], jobs := w.jobs[SharingJob(k) := Unended(k)])
  {
    InactiveIsFree(w, w.runs[k].b, inp);
    LaunchLost(w, k, inp);
    assert w.runs - {k} == map[] && Sec(w.now) == MIDNIGHT;
  }

  lemma SharingLaunches(k: Key, jobs: map<Key, Job>, inp: Inputs)
    requires k == LEFT || k == RIGHT
    requires inp.faults == {WriteUploading} && Lists(SharingWorld(jobs, map[k := SharingRun(k)]), inp)
    requires SharingJob(k) !in jobs
    ensures Leads(SharingWorld(jobs, map[k := SharingRun(k)]), LaunchStep(k, inp),
                  SharingWorld(jobs[SharingJob(k) := Unended(k)], map[]))
  {
    SharingLost(SharingWorld(jobs, map[k := SharingRun(k)]), k, inp);
  }

  function FirstJob(): map<Key, Job> { map[SharingJob(LEFT) := Unended(LEFT)] }

  function SharingState(i: nat): World {
    if i == 0 then SharingWorld(map[], map[])
    else if i == 1 then SharingWorld(map[], map[LEFT := SharingRun(LEFT)])
    else if i == 2 then SharingWorld(FirstJob(), map[])
    else if i == 3 then SharingWorld(FirstJob(), map[RIGHT := SharingRun(RIGHT)])
    else SharingWorld(FirstJob()[SharingJob(RIGHT) := Unended(RIGHT)], map[])
  }

  function SharingStep(i: nat): Step {
    var k, jobs := if i < 2 then LEFT else RIGHT, if i < 2 then [] else [SharingJob(LEFT)];
    if i == 0 || i == 2 then ReconcileStep(k, Calls(jobs, [LEFT, RIGHT], [], {}))
    else LaunchStep(k, Calls(jobs, [LEFT, RIGHT], [], {WriteUploading}))
  }

  lemma SharingLeads(i: nat)
    requires i < 4
    ensures Leads(SharingState(i), SharingStep(i), SharingState(i + 1))
  {
    if i == 0 {
      SharingOpens(LEFT, map[], SharingStep(0).inp);
    } else if i == 1 {
      SharingLaunches(LEFT, map[], SharingStep(1).inp);
      assert map[][SharingJob(LEFT) := Unended(LEFT)] == FirstJob();
    } else if i == 2 {
      SharingOpens(RIGHT, FirstJob(), SharingStep(2).inp);
    } else {
      BackupJobNameInjective("a", "b", MIDNIGHT, MIDNIGHT);
      SharingLaunches(RIGHT, FirstJob(), SharingStep(3).inp);
    }
  }

  /** A run that loses the status write of a backup whose phase holds nothing: two backups have unfinished Jobs on one
      claim. */
  lemma LostWriteOverlaps() returns (trace: seq<World>, steps: seq<Step>)
    ensures IsRun(trace, steps) && |steps| == 4 && LEFT != RIGHT
    ensures Session(trace[4], SharingJob(LEFT), OfBackup(LEFT)) && Session(trace[4], SharingJob(RIGHT), OfBackup(RIGHT))
    ensures PvcKeysOverlap(SessionKeys(trace[4], OfBackup(LEFT)), SessionKeys(trace[4], OfBackup(RIGHT)))
  {
    trace, steps := seq(5, i requires 0 <= i < 5 => SharingState(i)), seq(4, i requires 0 <= i < 4 => SharingStep(i));
    forall i | 0 <= i < |steps| ensures Leads(trace[i], steps[i], trace[i + 1]) {
      SharingLeads(i);
    }
    SharingBegins();
    LeadsAlong(trace, steps);
    SharingSessions();
    SharingOverlaps(trace[4]);
  }

  lemma SharingSessions()
    ensures var w := SharingState(4);
            w.backups == map[LEFT := Sharing(LEFT), RIGHT := Sharing(RIGHT)] &&
            Session(w, SharingJob(LEFT), OfBackup(LEFT)) && Session(w, SharingJob(RIGHT), OfBackup(RIGHT))
  {
    BackupJobNameInjective("a", "b", MIDNIGHT, MIDNIGHT);
  }

  lemma SharingBegins()
    ensures Initial(SharingState(0))
  {
  }

  lemma SharingOverlaps(w: World)
    requires w.backups == map[LEFT := Sharing(LEFT), RIGHT := Sharing(RIGHT)]
    ensures PvcKeysOverlap(SessionKeys(w, OfBackup(LEFT)), SessionKeys(w, OfBackup(RIGHT)))
  {
    var key := PvcKey("ns", "data");
    OneClaim(Sharing(LEFT));
    OneClaim(Sharing(RIGHT));
    assert key in SessionKeys(w, OfBackup(LEFT)) && key in SessionKeys(w, OfBackup(RIGHT));
  }

  lemma OneClaim(b: PVCBackup)
    requires b.spec.pvcNames == [] && b.spec.pvcName != ""
    ensures BackupPVCKeys(b) == [PvcKey(b.key.ns, b.spec.pvcName)]
  {
    var pvcs := PvcList(b.spec);
    assert pvcs == [b.spec.pvcName] && pvcs[..0] == [];
    assert ClaimKeys(b.key.ns, []) == [];
  }

  // ---------------------------------------------------------------------
  // Quiesced worlds

  /** A backup in namespace ns that quiesces the one workload. */
  ghost predicate QuiescesDB(b: PVCBackup) {
    b.key.ns == "ns" && b.spec.targets == [Target("StatefulSet", "", "db")] && b.spec.pipeline == ["quiescedLive"] &&
    !b.spec.leaveDown && b.spec.pvcNames == [] && b.spec.pvcName != "" && b.spec.schedule.Unscheduled?
  }

  lemma DBIsPlain(b: PVCBackup)
    requires QuiescesDB(b)
    ensures Plain(b) && Ws(b) == [DB]
  {
    var t := b.spec.targets[0];
    assert KindOf("StatefulSet") == Some(StatefulSet) && TargetNS(t, "ns") == "ns";
    assert Ws(b) == [DB];
    assert multiset([DB]) == multiset{DB};
    assert "quiescedLive" in Pipeline(b.spec);
  }

  /** No token pending, nothing recorded, and not Uploading or done. */
  predicate Startable(b: PVCBackup) {
    b.meta.forceRun == "" && b.meta.forcePrune == "" && b.meta.forceCancel == "" && b.meta.quiesce == map[] &&
    (b.status.phase.NoPhase? || b.status.phase.Quiescing?)
  }

  lemma QuiescesCount(b: PVCBackup, s: Scene, n: int)
    requires QuiescesDB(b) && DB in s.replicas && s.replicas[DB] == n
    ensures var q := Quiesce(s, b.spec.targets, b.key.ns, {});
            q.ok && Saves(q.state, [DB], map[DB := n]) && DB in q.scene.replicas && q.scene.replicas[DB] == 0
  {
    DBIsPlain(b);
    assert DB in Ws(b) && At(s, Ws(b), map[DB := n]);
    QuiesceSaves(b, s, map[DB := n], {});
    QuiesceRecords(s, b.spec.targets, "ns", {});
  }

  /** Opening a run over n replicas saves n and takes them down. */
  ghost predicate Holds(w: World, k: Key, n: int) {
    && k in w.backups && k in w.runs && w.runs[k].b == w.backups[k] && w.backups[k].status.phase.Quiescing?
    && Saves(w.runs[k].quiesced, [DB], map[DB := n]) && DB in w.scene.replicas
  }

  lemma OpensOverCount(w: World, k: Key, n: int, inp: Inputs)
    requires k in w.backups && w.backups[k].key == k && QuiescesDB(w.backups[k]) && Startable(w.backups[k])
    requires k !in w.runs && w.jobs == map[] && inp.faults == {} && inp.scaleFaults == {}
    requires !BackupBusy(w, w.backups[k], inp) && DB in w.scene.replicas && w.scene.replicas[DB] == n
    ensures Reconcile(w, k, inp) == Opened(w, k)
    ensures Holds(Opened(w, k), k, n) && Opened(w, k).scene.replicas[DB] == 0
  {
    QuiescesCount(w.backups[k], w.scene, n);
    FindsNothing(w.jobs, inp.jobList, k, PrunePrefix(k.name));
    FindsNothing(w.jobs, inp.jobList, k, BackupPrefix(k.name));
    assert PvcList(w.backups[k].spec) != [];
    OpensQuiesced(w, k, inp);
  }

  // ---------------------------------------------------------------------
  // A crash between quiesce and Job creation

  const SHOP := Key("ns", "shop")

  function ShopBackup(): PVCBackup {
    Submit(SHOP, Spec(["quiescedLive"], [Target("StatefulSet", "", "db")], Unscheduled, None), MIDNIGHT, "")
  }

  function ShopWorld(): World {
    World(map[SHOP := ShopBackup()], map[], map[], Scene(COUNTS, {}), map[], MIDNIGHT * NANOS, 0)
  }

  /** The run opens, is lost with the process, and another one opens. */
  function ShopState(i: nat): World {
    if i == 0 then ShopWorld()
    else if i == 1 then Opened(ShopWorld(), SHOP)
    else if i == 2 then Close(Opened(ShopWorld(), SHOP), SHOP)
    else Reconcile(Close(Opened(ShopWorld(), SHOP), SHOP), SHOP, ShopCalls())
  }

  function ShopCalls(): Inputs { Calls([], [SHOP], [], {}) }

  function ShopStep(i: nat): Step {
    if i == 1 then Crash(SHOP) else ReconcileStep(SHOP, ShopCalls())
  }

  /** The one backup, whether as submitted or still Quiescing, with no run open. */
  ghost predicate ShopIdle(w: World) {
    w.backups.Keys == {SHOP} && w.backups[SHOP].key == SHOP && QuiescesDB(w.backups[SHOP]) && Startable(w.backups[SHOP]) &&
    w.restores == map[] && w.jobs == map[] && w.runs == map[]
  }

  lemma ShopReconciles(w: World, n: int)
    requires ShopIdle(w) && DB in w.scene.replicas && w.scene.replicas[DB] == n
    ensures Enabled(w, ReconcileStep(SHOP, ShopCalls())) && Reconcile(w, SHOP, ShopCalls()) == Opened(w, SHOP)
    ensures Holds(Opened(w, SHOP), SHOP, n) && Opened(w, SHOP).scene.replicas[DB] == 0
  {
    InactiveIsFree(w, w.backups[SHOP], ShopCalls());
    OpensOverCount(w, SHOP, n, ShopCalls());
  }

  lemma ShopSubmitted()
    ensures ShopIdle(ShopWorld()) && DB in ShopWorld().scene.replicas && ShopWorld().scene.replicas[DB] == 3
  {
  }

  lemma ShopOpens()
    ensures Leads(ShopState(0), ShopStep(0), ShopState(1)) && Holds(ShopState(1), SHOP, 3)
    ensures DB in ShopState(1).scene.replicas && ShopState(1).scene.replicas[DB] == 0
  {
    ShopSubmitted();
    ShopReconciles(ShopWorld(), 3);
  }

  lemma ShopCrashes()
    ensures Leads(ShopState(1), ShopStep(1), ShopState(2))
    ensures var w := ShopState(2);
            ShopIdle(w) && w.scene == ShopState(1).scene
  {
  }

  lemma ShopReopens()
    ensures Leads(ShopState(2), ShopStep(2), ShopState(3)) && Holds(ShopState(3), SHOP, 0)
  {
    ShopOpens();
    ShopCrashes();
    ShopReconciles(ShopState(2), 0);
  }

  /** A run in which the operator dies after the quiesce: the next run holds zero for a workload that had three. */
  lemma CrashForgetsCounts() returns (trace: seq<World>, steps: seq<Step>)
    ensures IsRun(trace, steps) && |steps| == 3 && steps[1] == Crash(SHOP)
    ensures trace[0].scene == Scene(COUNTS, {})
    ensures Holds(trace[1], SHOP, 3) && Holds(trace[3], SHOP, 0)
  {
    trace, steps := seq(4, i requires 0 <= i < 4 => ShopState(i)), seq(3, i requires 0 <= i < 3 => ShopStep(i));
    forall i | 0 <= i < |steps| ensures Leads(trace[i], steps[i], trace[i + 1]) {
      ShopLeads(i);
    }
    ShopBegins();
    LeadsAlong(trace, steps);
    ShopOpens();
    ShopReopens();
  }

  lemma ShopLeads(i: nat)
    requires i < 3
    ensures Leads(ShopState(i), ShopStep(i), ShopState(i + 1))
  {
    if i == 0 {
      ShopOpens();
    } else if i == 1 {
      ShopCrashes();
    } else {
      ShopReopens();
    }
  }

  lemma ShopBegins()
    ensures Initial(ShopState(0))
  {
  }

  // ---------------------------------------------------------------------
  // Two active backups of one workload

  const LOGS := Key("ns", "logs")

  function LogsBackup(): PVCBackup {
    Submit(LOGS, ShopBackup().spec.(pvcName := "logs"), MIDNIGHT, "")
  }

  function TwinWorld(): World {
    ShopWorld().(backups := map[SHOP := ShopBackup(), LOGS := LogsBackup()])
  }

  function TwinCalls(faults: set<Call>): Inputs { Calls([], [SHOP, LOGS], [], faults) }

  ghost predicate Twins(w: World) {
    && w.backups.Keys == {SHOP, LOGS} && QuiescesDB(w.backups[SHOP]) && QuiescesDB(w.backups[LOGS])
    && w.backups[SHOP].key == SHOP && w.backups[LOGS].key == LOGS && w.backups[SHOP].meta.quiesce == map[]
    && w.backups[LOGS].meta.quiesce == map[] && w.backups[SHOP].spec.pvcName == "data" && w.backups[LOGS].spec.pvcName == "logs"
    && w.restores == map[] && w.jobs == map[]
  }

  /** Their claims differ, so they do not hold each other back. */
  lemma TwinsAreFree(w: World, b: PVCBackup, inp: Inputs)
    requires Twins(w) && b.key in w.backups && b.spec == w.backups[b.key].spec
    ensures !BackupBusy(w, b, inp)
  {
    OneClaim(w.backups[SHOP]);
    OneClaim(w.backups[LOGS]);
    OneClaim(b);
    assert PvcKey("ns", "data")[3] == 'd' && PvcKey("ns", "logs")[3] == 'l';
    NoneHolds(w, inp.backupList, BackupPVCKeys(b), OfBackup(b.key));
    NoRestoreHolds(w, inp.restoreList, BackupPVCKeys(b), OfBackup(b.key));
  }

  /** A launch whose Job cannot be created puts back what its run holds. */
  lemma TwinFails(w: World, k: Key, n: int)
    requires Wellformed(w) && Twins(w) && (k == SHOP || k == LOGS) && Holds(w, k, n)
    ensures var w' := Launch(w, k, TwinCalls({CreateJob}));
            w'.backups.Keys == w.backups.Keys && DB in w'.scene.replicas && w'.scene.replicas[DB] == n && k !in w'.runs &&
            w'.backups[k].meta.quiesce == map[] && w'.jobs == w.jobs
  {
    var run, inp := w.runs[k], TwinCalls({CreateJob});
    var b := run.b.(status := run.b.status.(phase := Uploading));
    TwinsAreFree(w, run.b, inp);
    DBIsPlain(b);
    assert DB in Ws(b);
    LaunchFails(w, k, b, inp, map[DB := n]);
    assert Launch(w, k, inp) == Deferred(Fail(Close(w, k), b, inp).w, false, run.quiesced, inp);
  }

  lemma TwinsSubmitted()
    ensures var w := TwinWorld();
            Twins(w) && Wellformed(w) && w.runs == map[] && Startable(w.backups[SHOP]) && Startable(w.backups[LOGS]) &&
            w.scene == Scene(COUNTS, {}) && Initial(w)
  {
  }

  lemma TwinOpens(w: World, k: Key, n: int)
    requires Wellformed(w) && Twins(w) && (k == SHOP || k == LOGS) && k !in w.runs && Startable(w.backups[k])
    requires DB in w.scene.replicas && w.scene.replicas[DB] == n
    ensures Leads(w, ReconcileStep(k, TwinCalls({})), Opened(w, k)) && Holds(Opened(w, k), k, n)
    ensures var w' := Opened(w, k); Twins(w') && Wellformed(w') && w'.scene.replicas[DB] == 0
  {
    TwinsAreFree(w, w.backups[k], TwinCalls({}));
    OpensOverCount(w, k, n, TwinCalls({}));
    TwinCanOpen(w, k);
    OpenedTwins(w, k);
    OwnerWellformed(w, Opened(w, k), k);
  }

  lemma TwinCanOpen(w: World, k: Key)
    requires Wellformed(w) && Twins(w) && (k == SHOP || k == LOGS) && k !in w.runs
    ensures Enabled(w, ReconcileStep(k, TwinCalls({})))
  {
  }

  lemma OpenedTwins(w: World, k: Key)
    requires Twins(w) && (k == SHOP || k == LOGS)
    ensures Twins(Opened(w, k))
  {
  }

  lemma TwinLaunches(w: World, k: Key, n: int)
    requires Wellformed(w) && Twins(w) && (k == SHOP || k == LOGS) && Holds(w, k, n)
    ensures var w', s := Launch(w, k, TwinCalls({CreateJob})), LaunchStep(k, TwinCalls({CreateJob}));
            Leads(w, s, w') && Wellformed(w') && Twins(w') && DB in w'.scene.replicas && w'.scene.replicas[DB] == n &&
            k !in w'.runs && w'.runs == w.runs - {k}
  {
    TwinFails(w, k, n);
    OwnerWellformed(w, Launch(w, k, TwinCalls({CreateJob})), k);
  }

  /** A run in which two backups of different claims quiesce one workload while both are active: one saves three, the
      other zero, and when both have ended the workload is at zero, with nothing recorded and no run open. */
  lemma SharedTargetLosesCount() returns (trace: seq<World>, steps: seq<Step>)
    ensures IsRun(trace, steps) && |steps| == 4 && trace[0].scene == Scene(COUNTS, {})
    ensures Holds(trace[2], SHOP, 3) && Holds(trace[2], LOGS, 0)
    ensures trace[4].runs == map[] && trace[4].backups.Keys == {SHOP, LOGS}
    ensures trace[4].backups[SHOP].meta.quiesce == map[] && trace[4].backups[LOGS].meta.quiesce == map[]
    ensures DB in trace[4].scene.replicas && trace[4].scene.replicas[DB] == 0
  {
    TwinsSubmitted();
    var w0 := TwinWorld();
    var w1, w2 := TwinsOpen(w0);
    var w3, w4 := TwinsFail(w2);
    trace, steps := [w0, w1, w2, w3, w4], TwinSteps();
    FourSteps(w0, w1, w2, w3, w4, steps);
  }

  function TwinSteps(): (steps: seq<Step>)
    ensures |steps| == 4
    ensures steps[0] == ReconcileStep(SHOP, TwinCalls({})) && steps[1] == ReconcileStep(LOGS, TwinCalls({}))
    ensures steps[2] == LaunchStep(SHOP, TwinCalls({CreateJob})) && steps[3] == LaunchStep(LOGS, TwinCalls({CreateJob}))
  {
    [ReconcileStep(SHOP, TwinCalls({})), ReconcileStep(LOGS, TwinCalls({})),
     LaunchStep(SHOP, TwinCalls({CreateJob})), LaunchStep(LOGS, TwinCalls({CreateJob}))]
  }

  lemma TwinsOpen(w0: World) returns (w1: World, w2: World)
    requires Wellformed(w0) && Twins(w0) && w0.runs == map[] && Startable(w0.backups[SHOP]) && Startable(w0.backups[LOGS])
    requires DB in w0.scene.replicas && w0.scene.replicas[DB] == 3
    ensures Leads(w0, ReconcileStep(SHOP, TwinCalls({})), w1) && Leads(w1, ReconcileStep(LOGS, TwinCalls({})), w2)
    ensures Wellformed(w2) && Twins(w2) && Holds(w2, SHOP, 3) && Holds(w2, LOGS, 0) && w2.runs.Keys == {SHOP, LOGS}
  {
    TwinOpens(w0, SHOP, 3);
    w1 := Opened(w0, SHOP);
    TwinOpens(w1, LOGS, 0);
    w2 := Opened(w1, LOGS);
  }

  lemma TwinsFail(w2: World) returns (w3: World, w4: World)
    requires Wellformed(w2) && Twins(w2) && Holds(w2, SHOP, 3) && Holds(w2, LOGS, 0) && w2.runs.Keys == {SHOP, LOGS}
    ensures Leads(w2, LaunchStep(SHOP, TwinCalls({CreateJob})), w3) && Leads(w3, LaunchStep(LOGS, TwinCalls({CreateJob})), w4)
    ensures Twins(w4) && w4.runs == map[] && DB in w4.scene.replicas && w4.scene.replicas[DB] == 0
  {
    TwinLaunches(w2, SHOP, 3);
    w3 := Launch(w2, SHOP, TwinCalls({CreateJob}));
    TwinLaunches(w3, LOGS, 0);
    w4 := Launch(w3, LOGS, TwinCalls({CreateJob}));
  }

  lemma FourSteps(w0: World, w1: World, w2: World, w3: World, w4: World, steps: seq<Step>)
    requires |steps| == 4 && Initial(w0) && Leads(w0, steps[0], w1) && Leads(w1, steps[1], w2)
    requires Leads(w2, steps[2], w3) && Leads(w3, steps[3], w4)
    ensures IsRun([w0, w1, w2, w3, w4], steps)
  {
    LeadsAlong([w0, w1, w2, w3, w4], steps);
  }
}
