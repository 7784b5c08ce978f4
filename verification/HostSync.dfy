/** What the operator writes to a Backrest host about a PVCBackup, and what it removes when the backup goes away. */
module HostSync {
  import opened Text
  import opened Types
  import opened JobVolumes
  import opened HostConfig
  import Shell
  import Scripts

  // ---------------------------------------------------------------------
  // Plan IDs

  predicate IDChar(c: char) { 'a' <= c <= 'z' || '0' <= c <= '9' || c == '-' || c == '_' }

  function SanitizeChar(c: char): char {
    var l := ToLowerChar(c);
    if IDChar(l) then l else '-'
  }

  /** Every character sanitized, nothing cut. */
  function SanitizeAll(s: string): (r: string)
    ensures |r| == |s| && forall i :: 0 <= i < |s| ==> r[i] == SanitizeChar(s[i])
  {
    seq(|s|, i requires 0 <= i < |s| => SanitizeChar(s[i]))
  }

  function Sanitize(s: string): string { Truncate(SanitizeAll(s), 64) }

  /** sanitizeID: one pass over the lower-cased string. */
  method SanitizeID(s: string) returns (out: string)
    ensures out == Sanitize(s)
  {
    var lower := ToLower(s);
    out := "";
    for i := 0 to |lower|
      invariant |out| == i && forall j :: 0 <= j < i ==> out[j] == SanitizeChar(s[j])
    {
      var r := lower[i];
      if ('a' <= r <= 'z') || ('0' <= r <= '9') || r == '-' || r == '_' {
        out := out + [r];
      } else {
        out := out + "-";
      }
    }
    assert out == SanitizeAll(s);
    if |out| > 64 {
      out := out[..64];
    }
  }

  predicate CleanID(s: string) { |s| <= 64 && forall i :: 0 <= i < |s| ==> IDChar(s[i]) }

  /** A sanitized ID is clean, and exactly the clean strings are left as they are. */
  lemma SanitizeClean(s: string)
    ensures CleanID(Sanitize(s))
    ensures Sanitize(s) == s <==> CleanID(s)
  {
  }

  function PlanID(ns: string, name: string): string { Sanitize(ns + "-" + name) }

  /** A dash-separated part moves from the second name of one pair to the first of the other. */
  ghost predicate Moved(a: string, b: string, a': string, b': string) {
    exists x :: a' == a + "-" + x && b == x + "-" + b'
  }

  lemma JoinedEqual(a: string, b: string, a': string, b': string)
    requires |a| <= |a'|
    ensures a + "-" + b == a' + "-" + b' <==> (a == a' && b == b') || Moved(a, b, a', b')
  {
    var s, s' := a + "-" + b, a' + "-" + b';
    if s == s' && a != a' {
      assert a == s[..|a|] == s'[..|a|] == a'[..|a|];
      assert a'[..|a'|] == a';
      assert |a| < |a'|;
      assert a'[|a|] == s'[|a|] == s[|a|] == '-';
      var x := a'[|a| + 1..];
      assert a' == a + "-" + x;
      assert b == s[|a| + 1..] == s'[|a| + 1..] == x + "-" + b';
    }
    if s == s' && a == a' {
      assert b == s[|a| + 1..] && b' == s'[|a| + 1..];
    }
    if x :| a' == a + "-" + x && b == x + "-" + b' {
      assert s == a + "-" + x + "-" + b' == s';
    }
  }

  lemma SanitizeJoined(ns: string, name: string)
    ensures SanitizeAll(ns + "-" + name) == SanitizeAll(ns) + "-" + SanitizeAll(name)
  {
  }

  /** Two pairs share a plan ID if and only if their sanitized parts are the same or a dash-separated part moves between
      them, or both are cut and agree on the 64 characters that are kept. */
  lemma PlanIDsCollide(ns: string, name: string, ns': string, name': string)
    ensures var a, b, a', b' := SanitizeAll(ns), SanitizeAll(name), SanitizeAll(ns'), SanitizeAll(name');
            var long, long' := a + "-" + b, a' + "-" + b';
            PlanID(ns, name) == PlanID(ns', name')
            <==> (a == a' && b == b') || Moved(a, b, a', b') || Moved(a', b', a, b) ||
                 (|long| >= 64 && |long'| >= 64 && long[..64] == long'[..64])
  {
    var a, b, a', b' := SanitizeAll(ns), SanitizeAll(name), SanitizeAll(ns'), SanitizeAll(name');
    SanitizeJoined(ns, name);
    SanitizeJoined(ns', name');
    CutEqual(a + "-" + b, a' + "-" + b');
    MovedLengthens(a, b, a', b');
    MovedLengthens(a', b', a, b);
    if |a| <= |a'| {
      JoinedEqual(a, b, a', b');
    } else {
      JoinedEqual(a', b', a, b);
    }
  }

  lemma CutEqual(s: string, s': string)
    ensures Truncate(s, 64) == Truncate(s', 64) <==> s == s' || (|s| >= 64 && |s'| >= 64 && s[..64] == s'[..64])
  {
    assert |s| == 64 ==> s[..64] == s;
    assert |s'| == 64 ==> s'[..64] == s';
  }

  lemma MovedLengthens(a: string, b: string, a': string, b': string)
    ensures Moved(a, b, a', b') ==> |a| < |a'|
  {
  }

  // ---------------------------------------------------------------------
  // Syncing and removing

  /** A BackupRepository as far as host syncing reads it. */
  datatype Repository = Repository(key: Key, syncToHost: bool, clusterNS: string, clusterName: string)

  function ResolveCluster(ns: string, name: string, defaultNS: string): Key {
    Key(if ns == "" then defaultNS else ns, if name == "" then "main" else name)
  }

  function ClusterOf(repo: Repository): Key { ResolveCluster(repo.clusterNS, repo.clusterName, repo.key.ns) }

  function Retention(s: BackupSpec): map<string, int> {
    match s.keepLast
    case None => map[]
    case Some(n) => map["policyKeepLastN" := n]
  }

  function PlanFor(b: PVCBackup, repo: Repository): Plan {
    Plan(PlanID(b.key.ns, b.key.name), repo.key.name, JobPaths(b.spec, PvcList(b.spec)), b.spec.excludes,
         Some(map["disabled" := true]), Retention(b.spec))
  }

  function HostsAt(hosts: map<Key, Host>, cluster: Key): set<Host> {
    if cluster in hosts then {hosts[cluster]} else {}
  }

  /** syncPVCBackupPlanToHost: on success the backup's plan is on its repository's host. */
  method SyncPlan(hosts: map<Key, Host>, b: PVCBackup, repo: Repository, ensuring: Calls, upserting: Calls)
    returns (outcome: Outcome)
    modifies HostsAt(hosts, ClusterOf(repo))
    ensures !outcome.InstanceRequired? && !outcome.InstanceUnset?
    ensures outcome.Done? && repo.syncToHost ==>
              ClusterOf(repo) in hosts &&
              var h := hosts[ClusterOf(repo)];
              h.config == old(h.config).(instance := ClusterOf(repo).name,
                                         plans := Upserted(old(h.config).plans, PlanFor(b, repo)))
    ensures !outcome.Done? || !repo.syncToHost ==>
              forall h :: h in HostsAt(hosts, ClusterOf(repo)) ==> h.config == old(h.config).(instance := h.config.instance)
  {
    if !repo.syncToHost {
      return Done;
    }
    var cluster := ClusterOf(repo);
    if cluster !in hosts {
      return CallFailed;
    }
    var h := hosts[cluster];
    outcome := h.EnsureInstance(cluster.name, ensuring);
    if !outcome.Done? {
      return;
    }
    var paths := PVCBackupPaths(b.spec);
    var id := SanitizeID(b.key.ns + "-" + b.key.name);
    var plan := Plan(id, repo.key.name, paths, b.spec.excludes, Some(map["disabled" := true]), Retention(b.spec));
    outcome := h.UpsertPlan(plan, upserting);
  }

  /** removePVCBackupPlanFromHost, run by the finalizer: on success no plan of the backup's ID is left, every other
      plan is where it was, and a repository that is gone or not synced means there is nothing to do. */
  method RemovePlan(hosts: map<Key, Host>, b: PVCBackup, repo: Option<Repository>, calls: Calls) returns (outcome: Outcome)
    modifies if repo.Some? then HostsAt(hosts, ClusterOf(repo.value)) else {}
    ensures repo.None? || !repo.value.syncToHost ==> outcome.Done?
    ensures repo.Some? && repo.value.syncToHost && outcome.Done? ==>
              ClusterOf(repo.value) in hosts &&
              var h := hosts[ClusterOf(repo.value)];
              h.config == old(h.config).(plans := Without(old(h.config).plans, PlanID(b.key.ns, b.key.name)))
    ensures repo.Some? && (!repo.value.syncToHost || !outcome.Done?) ==>
              forall h :: h in HostsAt(hosts, ClusterOf(repo.value)) ==> h.config == old(h.config)
  {
    if repo.None? || !repo.value.syncToHost {
      return Done;
    }
    var cluster := ClusterOf(repo.value);
    if cluster !in hosts {
      return CallFailed;
    }
    var id := SanitizeID(b.key.ns + "-" + b.key.name);
    assert |id| > 0;
    outcome := hosts[cluster].DeletePlan(id, calls);
  }

  /** As long as its repository still points at the same host, what the finalizer removes is what the sync wrote: with
      any edits of other plans in between, the host ends up as if the backup had never been synced, if and only if no
      plan of that ID, such as a colliding backup's, was there before. */
  lemma FinalizerUndoesSync(plans: seq<Plan>, b: PVCBackup, repo: Repository, edits: seq<Edit>)
    requires forall e :: e in edits ==> EditedID(e) != PlanID(b.key.ns, b.key.name)
    ensures Without(AllEdits(Upserted(plans, PlanFor(b, repo)), edits), PlanID(b.key.ns, b.key.name)) == AllEdits(plans, edits)
            <==> !HasID(plans, PlanID(b.key.ns, b.key.name))
  {
    CleanupUndoesSync(plans, PlanFor(b, repo), edits);
  }

  /** Plan and Job agree: for every backup the Job over its own claims runs `restic backup` on exactly the paths, excludes
      and ID of the plan shown on the host, and forgets all but exactly the number of snapshots the plan's retention
      says, which is the one the backup asks for. The host itself runs nothing: the plan's schedule is disabled. */
  lemma PlanAndJobAgree(b: PVCBackup, repo: Repository, instance: string)
    ensures var plan := PlanFor(b, repo);
            var script := Scripts.BackupText(JobPaths(b.spec, PvcList(b.spec)), b.spec.excludes, PlanID(b.key.ns, b.key.name),
                                             instance, b.spec.keepLast);
            var lists := Scripts.Commands(script);
            plan.repo == repo.key.name && plan.schedule == Some(map["disabled" := true]) &&
            plan.retention.Keys == (if b.spec.keepLast.Some? then {"policyKeepLastN"} else {}) &&
            lists.Some? && |lists.value| == 3 + |plan.retention| &&
            |lists.value[2]| == 1 && Scripts.BacksUp(lists.value[2][0], plan.paths, plan.excludes, plan.id, instance) &&
            (b.spec.keepLast.Some? ==>
               plan.retention["policyKeepLastN"] == b.spec.keepLast.value &&
               |lists.value[3]| == 2 && Scripts.Forgets(lists.value[3][0], plan.retention["policyKeepLastN"]))
  {
    var plan := PlanFor(b, repo);
    Scripts.BackupScriptCommands(plan.paths, plan.excludes, plan.id, instance, b.spec.keepLast);
    assert plan.retention.Keys == if b.spec.keepLast.Some? then {"policyKeepLastN"} else {};
    assert |plan.retention| == |plan.retention.Keys|;
  }

  /** A clean namespace and name are the plan's ID as they are, with a dash between them. */
  lemma CleanPlanID(ns: string, name: string)
    requires CleanID(ns + "-" + name)
    ensures PlanID(ns, name) == ns + "-" + name
  {
    SanitizeClean(ns + "-" + name);
  }

  /** A cluster reference with a namespace names the same cluster from everywhere, one without names a cluster beside the
      repository, and one without a name means the cluster called main. */
  lemma ClusterReference(repo: Repository, elsewhere: string)
    ensures repo.clusterNS != "" && repo.clusterName != "" ==> ClusterOf(repo) == Key(repo.clusterNS, repo.clusterName)
    ensures repo.clusterNS != "" ==> ClusterOf(repo) == ClusterOf(repo.(key := Key(elsewhere, repo.key.name)))
    ensures ClusterOf(repo.(clusterNS := "")) == ClusterOf(repo.(clusterNS := repo.key.ns))
    ensures ClusterOf(repo.(clusterName := "")) == ClusterOf(repo.(clusterName := "main"))
  {
  }
}
