/** Quiescing: scaling workloads to zero, recording their size, and bringing them back. */
module Workloads {
  import opened Text
  import opened Types

  datatype WorkloadKind = StatefulSet | Deployment

  datatype Workload = Workload(kind: WorkloadKind, ns: string, name: string)

  function KindName(k: WorkloadKind): string {
    match k case StatefulSet => "StatefulSet" case Deployment => "Deployment"
  }

  function KindOf(kind: string): Option<WorkloadKind> {
    if kind == "StatefulSet" then Some(StatefulSet)
    else if kind == "Deployment" then Some(Deployment)
    else None
  }

  predicate IsPodKind(kind: string) { EqualFold(kind, "Pod") }

  /** API calls that may fail while scaling. */
  datatype Fault = ScaleFault(w: Workload) | PodFault(pod: Key)

  /** The scalable part of the cluster: replica counts of the existing workloads, and the existing pods. */
  datatype Scene = Scene(replicas: map<Workload, int>, pods: set<Key>)

  // ---------------------------------------------------------------------
  // Keys of the recorded state: "Kind/namespace/name"

  function StateKey(kind: string, ns: string, name: string): string {
    kind + "/" + ns + "/" + name
  }

  function KeyOf(w: Workload): string { StateKey(KindName(w.kind), w.ns, w.name) }

  datatype Parts = Parts(kind: string, ns: string, name: string)

  /** `strings.SplitN(s, "/", 3)`, when it yields three parts. */
  function Split3(s: string): Option<Parts> {
    var i := SlashFrom(s, 0);
    if i == |s| then None
    else
      var j := SlashFrom(s, i + 1);
      if j == |s| then None
      else Some(Parts(s[..i], s[i + 1..j], s[j + 1..]))
  }

  /** Splitting undoes joining as long as kind and namespace hold no slash; the name may. */
  lemma SplitOfJoin(kind: string, ns: string, name: string)
    requires '/' !in kind && '/' !in ns
    ensures Split3(StateKey(kind, ns, name)) == Some(Parts(kind, ns, name))
  {
    var s := StateKey(kind, ns, name);
    assert s[|kind|] == '/' && s[|kind| + 1 + |ns|] == '/';
    forall k | 0 <= k < |kind| ensures s[k] != '/' {
      assert s[k] == kind[k];
    }
    forall k | |kind| < k < |kind| + 1 + |ns| ensures s[k] != '/' {
      assert s[k] == ns[k - |kind| - 1];
    }
    assert s[..|kind|] == kind;
    assert s[|kind| + 1..|kind| + 1 + |ns|] == ns;
    assert s[|kind| + 1 + |ns| + 1..] == name;
  }

  /** Joining undoes splitting, so distinct recorded keys never name the same workload. */
  lemma JoinOfSplit(s: string)
    requires Split3(s).Some?
    ensures var p := Split3(s).value; s == StateKey(p.kind, p.ns, p.name)
  {
    var i := SlashFrom(s, 0);
    var j := SlashFrom(s, i + 1);
    assert s == s[..i] + [s[i]] + s[i + 1..j] + [s[j]] + s[j + 1..];
  }

  // ---------------------------------------------------------------------
  // scaleWorkload

  datatype Scaled = Scaled(scene: Scene, prev: int, ok: bool)

  function ScaleWorkload(s: Scene, kind: string, ns: string, name: string, count: int, faults: set<Fault>): Scaled {
    if IsPodKind(kind) then
      if count > 0 then Scaled(s, count, true)
      else if Key(ns, name) !in s.pods then Scaled(s, 0, true)
      else if PodFault(Key(ns, name)) in faults then Scaled(s, 1, false)
      else Scaled(s.(pods := s.pods - {Key(ns, name)}), 1, true)
    else match KindOf(kind)
      case None => Scaled(s, 0, false)
      case Some(k) =>
        var w := Workload(k, ns, name);
        if w !in s.replicas then Scaled(s, 0, false)
        else if ScaleFault(w) in faults then Scaled(s, s.replicas[w], false)
        else Scaled(s.(replicas := s.replicas[w := count]), s.replicas[w], true)
  }

  // ---------------------------------------------------------------------
  // quiesce

  function TargetNS(t: Target, ns: string): string { if t.ns == "" then ns else t.ns }

  function TargetKey(t: Target, ns: string): string { StateKey(t.kind, TargetNS(t, ns), t.name) }

  datatype Quiet = Quiet(scene: Scene, state: map<string, int>, ok: bool)

  /** The outcome of scaling the targets down one after the other, stopping at the first error. */
  function Quiesce(s: Scene, targets: seq<Target>, ns: string, faults: set<Fault>): Quiet {
    if targets == [] then Quiet(s, map[], true)
    else
      var q := Quiesce(s, targets[..|targets| - 1], ns, faults);
      if !q.ok then q
      else
        var t := targets[|targets| - 1];
        var r := ScaleWorkload(q.scene, t.kind, TargetNS(t, ns), t.name, 0, faults);
        if r.ok then Quiet(r.scene, q.state[TargetKey(t, ns) := r.prev], true)
        else Quiet(r.scene, q.state, false)
  }

  // ---------------------------------------------------------------------
  // unquiesce, stated without an iteration order

  predicate Names(key: string, w: Workload) {
    Split3(key) == Some(Parts(KindName(w.kind), w.ns, w.name))
  }

  predicate RemovesPod(key: string, count: int, pod: Key) {
    Split3(key).Some? && IsPodKind(Split3(key).value.kind) && count <= 0 &&
    Key(Split3(key).value.ns, Split3(key).value.name) == pod
  }

  function RestoredCount(w: Workload, count: int, state: map<string, int>, faults: set<Fault>): int {
    if KeyOf(w) in state && Names(KeyOf(w), w) && ScaleFault(w) !in faults then state[KeyOf(w)] else count
  }

  /** Every workload named by the state gets its recorded count; nothing else is scaled. */
  function Unquiesce(s: Scene, state: map<string, int>, faults: set<Fault>): Scene {
    Scene(
      map w | w in s.replicas :: RestoredCount(w, s.replicas[w], state, faults),
      set p | p in s.pods && (PodFault(p) in faults || !exists k :: k in state && RemovesPod(k, state[k], p)))
  }

  /** The 1-replica state used when no count was recorded. */
  function FallbackState(targets: seq<Target>, ns: string): map<string, int> {
    map t | t in targets :: TargetKey(t, ns) := 1
  }
}
