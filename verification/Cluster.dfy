/** The controllers' methods on mutable state: the API server's objects, and the in-memory copies that a reconcile
    changes field by field. Each method is proved to move the cluster exactly as the protocol says. */
module Cluster {
  import opened Text
  import opened Types
  import opened W = Workloads
  import opened JobNames
  import opened P = Protocol

  /** A PVCBackup in the controller's memory. */
  class Backup {
    const key: Key
    const spec: BackupSpec
    var meta: Meta
    var status: BackupStatus

    constructor (b: PVCBackup)
      ensures Value() == b
    {
      key, spec, meta, status := b.key, b.spec, b.meta, b.status;
    }

    function Value(): PVCBackup
      reads this
    {
      PVCBackup(key, spec, meta, status)
    }
  }

  /** A PVCRestore in the controller's memory. */
  class Restore {
    const key: Key
    const mode: RestoreMode
    const existingPVC: string
    const newPVC: string
    var phase: Phase
    var lastJobName: string

    constructor (r: PVCRestore)
      ensures Value() == r
    {
      key, mode, existingPVC, newPVC, phase, lastJobName := r.key, r.mode, r.existingPVC, r.newPVC, r.phase, r.lastJobName;
    }

    function Value(): PVCRestore
      reads this
    {
      PVCRestore(key, mode, existingPVC, newPVC, phase, lastJobName)
    }
  }

  /** The stored objects, the workloads, the open runs and the clock. */
  class Server {
    var backups: map<Key, PVCBackup>
    var restores: map<Key, PVCRestore>
    var jobs: map<Key, Job>
    var scene: Scene
    var runs: map<Key, Run>
    var now: nat
    var conflicts: nat

    constructor (w: World)
      ensures State() == w
    {
      backups, restores, jobs, scene := w.backups, w.restores, w.jobs, w.scene;
      runs, now, conflicts := w.runs, w.now, w.conflicts;
    }

    function State(): World
      reads this
    {
      World(backups, restores, jobs, scene, runs, now, conflicts)
    }

    /** Status().Update on a PVCBackup. */
    method UpdateStatus(b: Backup, call: Call, faults: set<Call>) returns (ok: bool)
      requires Known(State(), b.Value())
      modifies this`backups, this`conflicts, b`meta
      ensures WriteStatus(old(State()), old(b.Value()), call, faults) == Reply(State(), b.Value(), ok)
    {
      if call in faults {
        return false;
      }
      var stored := backups[b.key];
      if stored.meta.rv != b.meta.rv {
        conflicts := conflicts + 1;
        return false;
      }
      var meta := stored.meta.(rv := stored.meta.rv + 1);
      backups := backups[b.key := stored.(meta := meta, status := b.status)];
      b.meta := meta;
      return true;
    }

    /** patchAnnotation for the quiesce state: the patch goes through a copy, and only the metadata comes back. */
    method PatchAnnotation(b: Backup, value: map<string, int>, faults: set<Call>) returns (ok: bool)
      requires Known(State(), b.Value())
      modifies this`backups, b`meta
      ensures PatchQuiesce(old(State()), old(b.Value()), value, faults) == Reply(State(), b.Value(), ok)
    {
      if Call.PatchAnnotation in faults {
        return false;
      }
      var stored := backups[b.key];
      var meta := stored.meta;
      if b.meta.quiesce != value {
        meta := meta.(quiesce := value, rv := meta.rv + 1);
      }
      backups := backups[b.key := stored.(meta := meta)];
      b.meta := meta;
      return true;
    }

    /** Create of a Job: one that exists under the name counts as created. */
    method CreateJob(key: Key, job: Job)
      modifies this`jobs
      ensures jobs == CreateJobIfAbsent(old(jobs), key, job)
    {
      if key !in jobs {
        jobs := jobs[key := job];
      }
    }

    method DeleteJob(ns: string, name: string)
      modifies this`jobs
      ensures State() == P.DeleteJob(old(State()), ns, name)
    {
      if name != "" {
        jobs := jobs - {Key(ns, name)};
      }
    }

    /** Status().Update on a PVCRestore. */
    method UpdateRestore(r: Restore, call: Call, faults: set<Call>) returns (ok: bool)
      requires r.key in restores && SameRestore(restores[r.key], r.Value())
      modifies this`restores
      ensures State() == WriteRestore(old(State()), r.Value(), call, faults) && ok == (call !in faults)
    {
      ok := call !in faults;
      if ok {
        restores := restores[r.key := r.Value()];
      }
    }
  }

  // ---------------------------------------------------------------------
  // Workloads

  method ScaleWorkload(c: Server, kind: string, ns: string, name: string, count: int, faults: set<Fault>)
    returns (prev: int, ok: bool)
    modifies c`scene
    ensures W.ScaleWorkload(old(c.scene), kind, ns, name, count, faults) == Scaled(c.scene, prev, ok)
  {
    if IsPodKind(kind) {
      if count > 0 {
        return count, true;
      }
      if Key(ns, name) !in c.scene.pods {
        return 0, true;
      }
      if PodFault(Key(ns, name)) in faults {
        return 1, false;
      }
      c.scene := c.scene.(pods := c.scene.pods - {Key(ns, name)});
      return 1, true;
    }
    if kind != "StatefulSet" && kind != "Deployment" {
      return 0, false;
    }
    var w := Workload(if kind == "StatefulSet" then StatefulSet else Deployment, ns, name);
    if w !in c.scene.replicas {
      return 0, false;
    }
    prev := c.scene.replicas[w];
    if ScaleFault(w) in faults {
      return prev, false;
    }
    c.scene := c.scene.(replicas := c.scene.replicas[w := count]);
    ok := true;
  }

  /** Once a target fails, nothing more is scaled. */
  lemma {:induction false} QuiesceStops(s: Scene, targets: seq<Target>, ns: string, faults: set<Fault>, i: nat)
    requires i <= |targets| && !W.Quiesce(s, targets[..i], ns, faults).ok
    ensures W.Quiesce(s, targets, ns, faults) == W.Quiesce(s, targets[..i], ns, faults)
  {
    if i < |targets| {
      assert targets[..|targets| - 1][..i] == targets[..i];
      QuiesceStops(s, targets[..|targets| - 1], ns, faults, i);
    } else {
      assert targets[..i] == targets;
    }
  }

  /** quiesce: scales the targets down in turn and records their counts, up to the first error. */
  method Quiesce(c: Server, targets: seq<Target>, defaultNS: string, faults: set<Fault>)
    returns (state: map<string, int>, ok: bool)
    modifies c`scene
    ensures W.Quiesce(old(c.scene), targets, defaultNS, faults) == Quiet(c.scene, state, ok)
  {
    state := map[];
    for i := 0 to |targets|
      invariant W.Quiesce(old(c.scene), targets[..i], defaultNS, faults) == Quiet(c.scene, state, true)
    {
      var t := targets[i];
      var ns := t.ns;
      if ns == "" {
        ns := defaultNS;
      }
      assert targets[..i + 1][..i] == targets[..i];
      var prev, scaled := ScaleWorkload(c, t.kind, ns, t.name, 0, faults);
      if !scaled {
        QuiesceStops(old(c.scene), targets, defaultNS, faults, i + 1);
        return state, false;
      }
      state := state[StateKey(t.kind, ns, t.name) := prev];
    }
    assert targets[..|targets|] == targets;
    ok := true;
  }

  /** The order in which recorded counts are brought back does not matter: one more entry after any others. */
  lemma UnquiesceOneMore(s: Scene, done: map<string, int>, key: string, count: int, faults: set<Fault>)
    requires key !in done
    ensures var before := W.Unquiesce(s, done, faults);
            W.Unquiesce(s, done[key := count], faults) ==
            match Split3(key)
            case None => before
            case Some(p) => W.ScaleWorkload(before, p.kind, p.ns, p.name, count, faults).scene
  {
    var before, after := W.Unquiesce(s, done, faults), W.Unquiesce(s, done[key := count], faults);
    match Split3(key)
    case None =>
      assert forall w :: !Names(key, w);
      OneMoreCount(s, done, key, count, faults);
      assert forall pod :: !RemovesPod(key, count, pod);
      OneMorePod(s, done, key, count, faults);
    case Some(p) =>
      OneMoreCount(s, done, key, count, faults);
      OneMorePod(s, done, key, count, faults);
      ScaledCounts(before, key, p, count, faults);
      ScaledPods(before, key, p, count, faults);
      var now := W.ScaleWorkload(before, p.kind, p.ns, p.name, count, faults).scene;
      assert now.replicas == after.replicas;
      assert now.pods == after.pods;
  }

  /** What one recorded entry does to a scene. */
  function CountBy(key: string, count: int, w: Workload, before: int, faults: set<Fault>): int {
    if Names(key, w) && ScaleFault(w) !in faults then count else before
  }

  lemma OneMoreCount(s: Scene, done: map<string, int>, key: string, count: int, faults: set<Fault>)
    requires key !in done
    ensures var before, after := W.Unquiesce(s, done, faults), W.Unquiesce(s, done[key := count], faults);
            after.replicas == map w | w in before.replicas :: CountBy(key, count, w, before.replicas[w], faults)
  {
    var before, after := W.Unquiesce(s, done, faults), W.Unquiesce(s, done[key := count], faults);
    forall w | w in s.replicas ensures after.replicas[w] == CountBy(key, count, w, before.replicas[w], faults) {
      NamedKey(key, w);
    }
  }

  lemma OneMorePod(s: Scene, done: map<string, int>, key: string, count: int, faults: set<Fault>)
    requires key !in done
    ensures var before, after := W.Unquiesce(s, done, faults), W.Unquiesce(s, done[key := count], faults);
            after.pods == set p | p in before.pods && (PodFault(p) in faults || !RemovesPod(key, count, p))
  {
    forall p | p in s.pods
      ensures var more := done[key := count];
              (exists k :: k in more && RemovesPod(k, more[k], p)) <==>
              RemovesPod(key, count, p) || exists k :: k in done && RemovesPod(k, done[k], p)
    {
      RemovedBy(done, key, count, p);
    }
  }

  lemma ScaledCounts(s: Scene, key: string, p: Parts, count: int, faults: set<Fault>)
    requires Split3(key) == Some(p)
    ensures W.ScaleWorkload(s, p.kind, p.ns, p.name, count, faults).scene.replicas ==
            map w | w in s.replicas :: CountBy(key, count, w, s.replicas[w], faults)
  {
    var now := W.ScaleWorkload(s, p.kind, p.ns, p.name, count, faults).scene;
    forall w | w in s.replicas ensures w in now.replicas && now.replicas[w] == CountBy(key, count, w, s.replicas[w], faults) {
      NamedKey(key, w);
    }
  }

  lemma ScaledPods(s: Scene, key: string, p: Parts, count: int, faults: set<Fault>)
    requires Split3(key) == Some(p)
    ensures W.ScaleWorkload(s, p.kind, p.ns, p.name, count, faults).scene.pods ==
            set q | q in s.pods && (PodFault(q) in faults || !RemovesPod(key, count, q))
  {
  }

  /** A key that splits into a workload's parts is that workload's key. */
  lemma NamedKey(key: string, w: Workload)
    ensures Names(key, w) ==> key == KeyOf(w) && !IsPodKind(Split3(key).value.kind)
  {
    if Names(key, w) {
      JoinOfSplit(key);
      assert |KindName(w.kind)| > 3 == |"Pod"|;
    }
  }

  lemma RemovedBy(done: map<string, int>, key: string, count: int, pod: Key)
    requires key !in done
    ensures var more := done[key := count];
            (exists k :: k in more && RemovesPod(k, more[k], pod)) <==> RemovesPod(key, count, pod) || exists k :: k in done && RemovesPod(k, done[k], pod)
  {
    var more := done[key := count];
    if k :| k in done && RemovesPod(k, done[k], pod) {
      assert k in more && more[k] == done[k];
    }
    if RemovesPod(key, count, pod) {
      assert key in more && more[key] == count;
    }
  }

  /** unquiesce: brings back every recorded count, in whatever order the map is walked. */
  method Unquiesce(c: Server, state: map<string, int>, faults: set<Fault>)
    modifies c`scene
    ensures c.scene == W.Unquiesce(old(c.scene), state, faults)
  {
    var todo := state.Keys;
    ghost var done: map<string, int> := map[];
    UnquiesceNothing(c.scene, faults);
    while todo != {}
      invariant todo <= state.Keys
      invariant done == state - todo
      invariant c.scene == W.Unquiesce(old(c.scene), done, faults)
    {
      var key :| key in todo;
      UnquiesceOneMore(old(c.scene), done, key, state[key], faults);
      var parts := Split3(key);
      if parts.Some? {
        var _, _ := ScaleWorkload(c, parts.value.kind, parts.value.ns, parts.value.name, state[key], faults);
      }
      todo := todo - {key};
      done := done[key := state[key]];
    }
    assert done == state;
  }

  lemma UnquiesceNothing(s: Scene, faults: set<Fault>)
    ensures W.Unquiesce(s, map[], faults) == s
  {
    var r := W.Unquiesce(s, map[], faults);
    assert r.replicas == s.replicas && r.pods == s.pods;
  }
}
