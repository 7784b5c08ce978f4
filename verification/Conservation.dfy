/** What quiesce records and unquiesce brings back. */
module Conservation {
  import opened Text
  import opened Types
  import opened Workloads

  /** Targets that name existing StatefulSets and Deployments, in namespaces without a slash. */
  predicate Scalable(t: Target, ns: string) {
    KindOf(t.kind).Some? && '/' !in TargetNS(t, ns)
  }

  function WorkloadOf(t: Target, ns: string): Workload
    requires Scalable(t, ns)
  {
    Workload(KindOf(t.kind).value, TargetNS(t, ns), t.name)
  }

  predicate AllScalable(targets: seq<Target>, ns: string) {
    forall i :: 0 <= i < |targets| ==> Scalable(targets[i], ns)
  }

  function WorkloadsOf(targets: seq<Target>, ns: string): seq<Workload>
    requires AllScalable(targets, ns)
  {
    seq(|targets|, i requires 0 <= i < |targets| => WorkloadOf(targets[i], ns))
  }

  predicate Present(s: Scene, ws: seq<Workload>) {
    forall w :: w in ws ==> w in s.replicas
  }

  predicate NoFault(ws: seq<Workload>, faults: set<Fault>) {
    forall w :: w in ws ==> ScaleFault(w) !in faults
  }

  lemma KeyOfTarget(t: Target, ns: string)
    requires Scalable(t, ns)
    ensures TargetKey(t, ns) == KeyOf(WorkloadOf(t, ns))
    ensures !IsPodKind(t.kind)
  {
    assert |t.kind| > 3 == |"Pod"|;
  }

  lemma NamesItself(w: Workload)
    requires '/' !in w.ns
    ensures Names(KeyOf(w), w)
  {
    SplitOfJoin(KindName(w.kind), w.ns, w.name);
  }

  lemma NamesOne(key: string, v: Workload, w: Workload)
    requires Names(key, v) && Names(key, w)
    ensures v == w
  {
    assert KindName(v.kind) == KindName(w.kind);
  }

  lemma NamesNoPod(key: string, w: Workload, count: int, pod: Key)
    requires Names(key, w)
    ensures !RemovesPod(key, count, pod)
  {
    assert |KindName(w.kind)| > 3 == |"Pod"|;
  }

  lemma KeysDistinct(v: Workload, w: Workload)
    requires '/' !in v.ns && '/' !in w.ns
    ensures KeyOf(v) == KeyOf(w) <==> v == w
  {
    NamesItself(v);
    NamesItself(w);
    if KeyOf(v) == KeyOf(w) {
      NamesOne(KeyOf(v), v, w);
    }
  }

  /** The keys of a state that are the keys of ws name exactly the workloads of ws. */
  lemma NamedBy(keys: set<string>, ws: seq<Workload>, w: Workload)
    requires forall v :: v in ws ==> '/' !in v.ns
    requires forall k :: k in keys <==> exists v :: v in ws && KeyOf(v) == k
    ensures KeyOf(w) in keys && Names(KeyOf(w), w) <==> w in ws
  {
    if w in ws {
      NamesItself(w);
    } else if KeyOf(w) in keys && Names(KeyOf(w), w) {
      var v :| v in ws && KeyOf(v) == KeyOf(w);
      NamesItself(v);
      NamesOne(KeyOf(w), v, w);
    }
  }

  /** Unquiescing a state keyed by ws removes no pod and scales exactly the workloads of ws. */
  lemma UnquiesceKeyedBy(s: Scene, ws: seq<Workload>, state: map<string, int>, faults: set<Fault>)
    requires forall v :: v in ws ==> '/' !in v.ns
    requires forall k :: k in state.Keys <==> exists v :: v in ws && KeyOf(v) == k
    requires NoFault(ws, faults)
    ensures var r := Unquiesce(s, state, faults);
            r.pods == s.pods && r.replicas.Keys == s.replicas.Keys
            && (forall w :: w in ws ==> KeyOf(w) in state)
            && forall w :: w in s.replicas ==> r.replicas[w] == if w in ws then state[KeyOf(w)] else s.replicas[w]
  {
    var r := Unquiesce(s, state, faults);
    forall w | w in s.replicas
      ensures w in ws ==> KeyOf(w) in state
      ensures r.replicas[w] == if w in ws then state[KeyOf(w)] else s.replicas[w]
    {
      NamedBy(state.Keys, ws, w);
    }
    forall k, p | k in state && p in s.pods ensures !RemovesPod(k, state[k], p) {
      assert k in state.Keys;
      var v :| v in ws && KeyOf(v) == k;
      NamesItself(v);
      NamesNoPod(k, v, state[k], p);
    }
    assert r.pods == s.pods;
  }

  /** What quiesce leaves behind: every target at zero, and its count recorded, or zero
      if the target is listed more than once. */
  ghost predicate QuiescedAs(s: Scene, ws: seq<Workload>, q: Quiet) {
    && q.ok
    && q.scene.pods == s.pods
    && q.scene.replicas.Keys == s.replicas.Keys
    && (forall w :: w in s.replicas ==> q.scene.replicas[w] == if w in ws then 0 else s.replicas[w])
    && (forall w :: w in ws && w in s.replicas ==>
          KeyOf(w) in q.state && q.state[KeyOf(w)] == if multiset(ws)[w] == 1 then s.replicas[w] else 0)
    && (forall k :: k in q.state ==> exists w :: w in ws && KeyOf(w) == k)
  }

  lemma {:induction false} QuiesceRecords(s: Scene, targets: seq<Target>, ns: string, faults: set<Fault>)
    requires AllScalable(targets, ns)
    requires Present(s, WorkloadsOf(targets, ns)) && NoFault(WorkloadsOf(targets, ns), faults)
    ensures QuiescedAs(s, WorkloadsOf(targets, ns), Quiesce(s, targets, ns, faults))
  {
    if targets == [] {
      assert multiset(WorkloadsOf(targets, ns)) == multiset{};
    } else {
      var init, t := targets[..|targets| - 1], targets[|targets| - 1];
      var ws, w := WorkloadsOf(init, ns), WorkloadOf(t, ns);
      var all := WorkloadsOf(targets, ns);
      assert all == ws + [w];
      QuiesceRecords(s, init, ns, faults);
      KeyOfTarget(t, ns);
      var q := Quiesce(s, init, ns, faults);
      var r := ScaleWorkload(q.scene, t.kind, TargetNS(t, ns), t.name, 0, faults);
      assert r == Scaled(q.scene.(replicas := q.scene.replicas[w := 0]), q.scene.replicas[w], true);
      assert multiset(all) == multiset(ws) + multiset{w};
      QuiesceOneMore(s, ws, w, q);
    }
  }

  lemma QuiesceOneMore(s: Scene, ws: seq<Workload>, w: Workload, q: Quiet)
    requires QuiescedAs(s, ws, q) && w in s.replicas
    requires '/' !in w.ns && forall v :: v in ws ==> '/' !in v.ns
    ensures QuiescedAs(s, ws + [w],
              Quiet(q.scene.(replicas := q.scene.replicas[w := 0]), q.state[KeyOf(w) := q.scene.replicas[w]], true))
  {
    var all := ws + [w];
    var q' := Quiet(q.scene.(replicas := q.scene.replicas[w := 0]), q.state[KeyOf(w) := q.scene.replicas[w]], true);
    assert multiset(all) == multiset(ws) + multiset{w};
    forall v | v in all && v in s.replicas
      ensures KeyOf(v) in q'.state && q'.state[KeyOf(v)] == if multiset(all)[v] == 1 then s.replicas[v] else 0
    {
      KeysDistinct(v, w);
    }
    forall k | k in q'.state
      ensures exists v :: v in all && KeyOf(v) == k
    {
      if k == KeyOf(w) {
        assert w in all;
      } else {
        var v :| v in ws && KeyOf(v) == k;
        assert v in all;
      }
    }
  }

  /** Whatever happened to the targets in between, unquiescing a recorded state gives every target its
      recorded count and touches nothing else. */
  lemma UnquiesceRecorded(s: Scene, ws: seq<Workload>, q: Quiet, now: Scene, faults: set<Fault>)
    requires QuiescedAs(s, ws, q) && Present(s, ws) && NoFault(ws, faults)
    requires forall w :: w in ws ==> '/' !in w.ns
    requires now.replicas.Keys == s.replicas.Keys
    ensures var r := Unquiesce(now, q.state, faults);
            r.replicas.Keys == s.replicas.Keys && r.pods == now.pods &&
            forall w :: w in s.replicas ==>
              r.replicas[w] == if w !in ws then now.replicas[w]
                               else if multiset(ws)[w] == 1 then s.replicas[w] else 0
  {
    forall w | w in ws ensures w in s.replicas && KeyOf(w) in q.state {
    }
    UnquiesceKeyedBy(now, ws, q.state, faults);
  }

  /** Replica conservation of one quiesced window, with its exact condition: the counts come back
      if and only if every target listed twice was at zero to begin with. */
  lemma QuiesceRoundTrip(s: Scene, targets: seq<Target>, ns: string, now: Scene, faults: set<Fault>)
    requires AllScalable(targets, ns)
    requires var ws := WorkloadsOf(targets, ns); Present(s, ws) && NoFault(ws, faults)
    requires now.replicas.Keys == s.replicas.Keys
    requires forall w :: w in s.replicas && w !in WorkloadsOf(targets, ns) ==> now.replicas[w] == s.replicas[w]
    ensures var ws := WorkloadsOf(targets, ns);
            Unquiesce(now, Quiesce(s, targets, ns, faults).state, faults).replicas == s.replicas
            <==> forall w :: w in ws && multiset(ws)[w] > 1 ==> s.replicas[w] == 0
  {
    var ws := WorkloadsOf(targets, ns);
    QuiesceRecords(s, targets, ns, faults);
    forall w | w in ws ensures '/' !in w.ns {
      var i :| 0 <= i < |ws| && ws[i] == w;
      assert Scalable(targets[i], ns);
    }
    UnquiesceRecorded(s, ws, Quiesce(s, targets, ns, faults), now, faults);
    SameCounts(s.replicas, ws, now.replicas, Unquiesce(now, Quiesce(s, targets, ns, faults).state, faults).replicas);
  }

  lemma SameCounts(before: map<Workload, int>, ws: seq<Workload>, between: map<Workload, int>, after: map<Workload, int>)
    requires before.Keys == between.Keys == after.Keys
    requires forall w :: w in ws ==> w in before
    requires forall w :: w in before && w !in ws ==> between[w] == before[w]
    requires forall w :: w in before ==>
               after[w] == if w !in ws then between[w] else if multiset(ws)[w] == 1 then before[w] else 0
    ensures after == before <==> forall w :: w in ws && multiset(ws)[w] > 1 ==> before[w] == 0
  {
    if after == before {
      forall w | w in ws && multiset(ws)[w] > 1 ensures before[w] == 0 {
        assert after[w] == 0;
      }
    }
    if forall w :: w in ws && multiset(ws)[w] > 1 ==> before[w] == 0 {
      forall w | w in before ensures after[w] == before[w] {
        if w in ws { assert multiset(ws)[w] >= 1; }
      }
    }
  }

  /** The fallback used when nothing was recorded puts every target at one replica. */
  lemma FallbackSetsOne(s: Scene, targets: seq<Target>, ns: string, faults: set<Fault>)
    requires AllScalable(targets, ns)
    requires NoFault(WorkloadsOf(targets, ns), faults)
    ensures var r := Unquiesce(s, FallbackState(targets, ns), faults);
            r.replicas.Keys == s.replicas.Keys &&
            forall w :: w in s.replicas ==>
              r.replicas[w] == if w in WorkloadsOf(targets, ns) then 1 else s.replicas[w]
  {
    var ws, state := WorkloadsOf(targets, ns), FallbackState(targets, ns);
    forall w | w in ws ensures KeyOf(w) in state && '/' !in w.ns {
      var i :| 0 <= i < |ws| && ws[i] == w;
      KeyOfTarget(targets[i], ns);
      assert targets[i] in targets;
    }
    forall k | k in state ensures exists w :: w in ws && KeyOf(w) == k {
      var t :| t in targets && TargetKey(t, ns) == k;
      var i :| 0 <= i < |targets| && targets[i] == t;
      KeyOfTarget(t, ns);
      assert ws[i] in ws;
    }
    UnquiesceKeyedBy(s, ws, state, faults);
  }

  // ---------------------------------------------------------------------
  // Which workload a target names

  /** The targets with the backup's namespace written into those that have none. */
  function Qualified(targets: seq<Target>, ns: string): seq<Target> {
    seq(|targets|, i requires 0 <= i < |targets| => if targets[i].ns == "" then targets[i].(ns := ns) else targets[i])
  }

  /** A target with a namespace of its own names the same workload from everywhere. */
  lemma OwnNamespace(s: Scene, t: Target, ns: string, elsewhere: string, faults: set<Fault>)
    requires t.ns != ""
    ensures Quiesce(s, [t], ns, faults) == Quiesce(s, [t], elsewhere, faults)
  {
    QuiesceOne(s, t, ns, faults);
    QuiesceOne(s, t, elsewhere, faults);
  }

  lemma QuiesceOne(s: Scene, t: Target, ns: string, faults: set<Fault>)
    ensures var r := ScaleWorkload(s, t.kind, TargetNS(t, ns), t.name, 0, faults);
            Quiesce(s, [t], ns, faults) == Quiet(r.scene, if r.ok then map[TargetKey(t, ns) := r.prev] else map[], r.ok)
  {
    assert [t][..0] == [] && Quiesce(s, [], ns, faults) == Quiet(s, map[], true);
    var r := ScaleWorkload(s, t.kind, TargetNS(t, ns), t.name, 0, faults);
    var none: map<string, int> := map[];
    assert none[TargetKey(t, ns) := r.prev] == map[TargetKey(t, ns) := r.prev];
  }

  /** Quiescing from a namespace is quiescing the qualified targets from anywhere. */
  lemma {:induction false} QuiesceQualified(s: Scene, targets: seq<Target>, ns: string, elsewhere: string, faults: set<Fault>)
    requires ns != ""
    ensures Quiesce(s, targets, ns, faults) == Quiesce(s, Qualified(targets, ns), elsewhere, faults)
  {
    if targets != [] {
      var front := targets[..|targets| - 1];
      QuiesceQualified(s, front, ns, elsewhere, faults);
      assert Qualified(targets, ns)[..|targets| - 1] == Qualified(front, ns);
    }
  }

  /** v is the workload of a target: its kind and name, in its namespace or else in the backup's. */
  predicate Meant(v: Workload, t: Target, ns: string) {
    KindName(v.kind) == t.kind && v.name == t.name && (t.ns != "" ==> v.ns == t.ns) && (t.ns == "" ==> v.ns == ns)
  }

  /** A successful quiesce takes every workload that is meant to zero and records it under its kind, namespace and name;
      whatever a quiesce does, a workload that is not meant keeps its count. */
  lemma {:induction false} QuiesceMeant(s: Scene, targets: seq<Target>, ns: string, faults: set<Fault>, v: Workload)
    requires v in s.replicas
    ensures var q := Quiesce(s, targets, ns, faults);
            v in q.scene.replicas &&
            if !exists t :: t in targets && Meant(v, t, ns) then q.scene.replicas[v] == s.replicas[v]
            else q.ok ==> q.scene.replicas[v] == 0 && KindName(v.kind) + "/" + v.ns + "/" + v.name in q.state
  {
    if targets != [] {
      var front, last := targets[..|targets| - 1], targets[|targets| - 1];
      QuiesceMeant(s, front, ns, faults, v);
      var q := Quiesce(s, front, ns, faults);
      ScaleMeant(q.scene, last, ns, faults, v);
      MoreMeant(front, last, ns, v);
      assert targets == front + [last];
    }
  }

  lemma MoreMeant(front: seq<Target>, last: Target, ns: string, v: Workload)
    ensures (exists t :: t in front + [last] && Meant(v, t, ns)) <==> Meant(v, last, ns) || exists t :: t in front && Meant(v, t, ns)
  {
    if t :| t in front && Meant(v, t, ns) {
      assert t in front + [last];
    }
    assert last in front + [last];
  }

  lemma ScaleMeant(s: Scene, t: Target, ns: string, faults: set<Fault>, v: Workload)
    requires v in s.replicas
    ensures var r := ScaleWorkload(s, t.kind, TargetNS(t, ns), t.name, 0, faults);
            v in r.scene.replicas &&
            if !r.ok || !Meant(v, t, ns) then r.scene.replicas[v] == s.replicas[v]
            else r.scene.replicas[v] == 0 && TargetKey(t, ns) == KindName(v.kind) + "/" + v.ns + "/" + v.name
  {
    assert |KindName(v.kind)| > 3 == |"Pod"|;
  }

  /** The fallback names exactly the same workloads: each that is meant goes to one replica, every other keeps its count. */
  lemma FallbackMeant(s: Scene, targets: seq<Target>, ns: string, faults: set<Fault>, v: Workload)
    requires v in s.replicas
    requires '/' !in v.ns && '/' !in ns && forall t :: t in targets ==> '/' !in t.kind && '/' !in t.ns
    ensures Unquiesce(s, FallbackState(targets, ns), faults).replicas[v] ==
            if ScaleFault(v) !in faults && exists t :: t in targets && Meant(v, t, ns) then 1 else s.replicas[v]
  {
    NamesItself(v);
    FallbackNames(targets, ns, v);
  }

  lemma FallbackNames(targets: seq<Target>, ns: string, v: Workload)
    requires '/' !in v.ns && '/' !in ns && forall t :: t in targets ==> '/' !in t.kind && '/' !in t.ns
    ensures KeyOf(v) in FallbackState(targets, ns) <==> exists t :: t in targets && Meant(v, t, ns)
    ensures KeyOf(v) in FallbackState(targets, ns) ==> FallbackState(targets, ns)[KeyOf(v)] == 1
  {
    SplitOfJoin(KindName(v.kind), v.ns, v.name);
    if t :| t in targets && TargetKey(t, ns) == KeyOf(v) {
      SplitOfJoin(t.kind, TargetNS(t, ns), t.name);
      assert Meant(v, t, ns);
    }
    if t :| t in targets && Meant(v, t, ns) {
      assert TargetKey(t, ns) == KeyOf(v);
    }
  }

  /** A target can be scaled down: a pod that is gone or lets itself be deleted, or a StatefulSet or Deployment that exists
      and takes the update. */
  predicate CanStop(s: Scene, t: Target, ns: string, faults: set<Fault>) {
    var home := if t.ns != "" then t.ns else ns;
    if IsPodKind(t.kind) then Key(home, t.name) in s.pods ==> PodFault(Key(home, t.name)) !in faults
    else exists v :: v in s.replicas && Meant(v, t, ns) && ScaleFault(v) !in faults
  }

  lemma CanStopIff(s: Scene, t: Target, ns: string, faults: set<Fault>)
    ensures ScaleWorkload(s, t.kind, TargetNS(t, ns), t.name, 0, faults).ok <==> CanStop(s, t, ns, faults)
  {
    if !IsPodKind(t.kind) && KindOf(t.kind).Some? {
      var v := Workload(KindOf(t.kind).value, TargetNS(t, ns), t.name);
      assert Meant(v, t, ns);
    }
  }

  /** What scaling one target down does to whether another can be. */
  lemma StillStops(s: Scene, t: Target, u: Target, ns: string, faults: set<Fault>)
    requires CanStop(s, t, ns, faults)
    ensures var s' := ScaleWorkload(s, t.kind, TargetNS(t, ns), t.name, 0, faults).scene;
            CanStop(s', u, ns, faults) <==> CanStop(s, u, ns, faults)
  {
    CanStopIff(s, t, ns, faults);
    var s' := ScaleWorkload(s, t.kind, TargetNS(t, ns), t.name, 0, faults).scene;
    assert forall v :: v in s'.replicas <==> v in s.replicas;
  }

  /** A quiesce succeeds if and only if every target can be scaled down: an unknown kind or a missing StatefulSet or
      Deployment fails it, a missing pod does not. */
  lemma {:induction false} QuiesceOkIff(s: Scene, targets: seq<Target>, ns: string, faults: set<Fault>)
    ensures Quiesce(s, targets, ns, faults).ok <==> forall t :: t in targets ==> CanStop(s, t, ns, faults)
    ensures Quiesce(s, targets, ns, faults).ok ==>
              forall t :: CanStop(Quiesce(s, targets, ns, faults).scene, t, ns, faults) <==> CanStop(s, t, ns, faults)
  {
    if targets != [] {
      var front, last := targets[..|targets| - 1], targets[|targets| - 1];
      QuiesceOkIff(s, front, ns, faults);
      assert targets == front + [last];
      var q := Quiesce(s, front, ns, faults);
      if q.ok {
        CanStopIff(q.scene, last, ns, faults);
        if CanStop(q.scene, last, ns, faults) {
          forall t ensures CanStop(Quiesce(s, targets, ns, faults).scene, t, ns, faults) <==> CanStop(s, t, ns, faults) {
            StillStops(q.scene, last, t, ns, faults);
          }
        }
      }
    }
  }

  // ---------------------------------------------------------------------
  // Pods

  /** A pod target: quiescing deletes the pod and records whether there was one. Unquiescing leaves a pod that was there to
      its controller, but deletes one that was not there and has come up since. */
  lemma PodRoundTrip(s: Scene, t: Target, now: Scene)
    requires IsPodKind(t.kind) && t.ns != "" && '/' !in t.kind && '/' !in t.ns
    ensures var q, pod := Quiesce(s, [t], t.ns, {}), Key(t.ns, t.name);
            q.ok && q.scene == s.(pods := s.pods - {pod}) &&
            q.state == map[StateKey(t.kind, t.ns, t.name) := if pod in s.pods then 1 else 0] &&
            Unquiesce(now, q.state, {}) == now.(pods := if pod in s.pods then now.pods else now.pods - {pod})
  {
    var pod := Key(t.ns, t.name);
    PodQuiesced(s, t);
    PodReleased(now, t, if pod in s.pods then 1 else 0);
  }

  lemma PodQuiesced(s: Scene, t: Target)
    requires IsPodKind(t.kind) && t.ns != ""
    ensures var pod := Key(t.ns, t.name);
            Quiesce(s, [t], t.ns, {}) ==
            Quiet(s.(pods := s.pods - {pod}), map[StateKey(t.kind, t.ns, t.name) := if pod in s.pods then 1 else 0], true)
  {
    QuiesceOne(s, t, t.ns, {});
    var pod := Key(t.ns, t.name);
    assert pod !in s.pods ==> s.pods - {pod} == s.pods;
  }

  lemma PodReleased(now: Scene, t: Target, count: nat)
    requires IsPodKind(t.kind) && '/' !in t.kind && '/' !in t.ns
    ensures Unquiesce(now, map[StateKey(t.kind, t.ns, t.name) := count], {}) ==
            now.(pods := if count > 0 then now.pods else now.pods - {Key(t.ns, t.name)})
  {
    var key := StateKey(t.kind, t.ns, t.name);
    var state := map[key := count];
    var back := Unquiesce(now, state, {});
    SplitOfJoin(t.kind, t.ns, t.name);
    forall w | w in now.replicas ensures RestoredCount(w, now.replicas[w], state, {}) == now.replicas[w] {
      assert |KindName(w.kind)| > 3 == |"Pod"|;
    }
    assert back.replicas == now.replicas;
    forall p ensures p in back.pods <==> p in now.pods && !RemovesPod(key, count, p) {
      assert state[key] == count && key in state;
    }
    assert back.pods == if count > 0 then now.pods else now.pods - {Key(t.ns, t.name)};
  }
}
