/** Edits of the Backrest host's configuration: the operator reads it, changes one entry and writes it back. */
module HostConfig {
  import opened Text

  datatype Repo = Repo(
    id: string, uri: string, password: string, env: seq<string>, autoInitialize: bool, shared: bool, guid: string)

  datatype Plan = Plan(
    id: string, repo: string, paths: seq<string>, excludes: seq<string>,
    schedule: Option<map<string, bool>>, retention: map<string, int>)

  /** `rest` stands for the parts of the configuration that no operation here touches. */
  datatype Config = Config(instance: string, repos: seq<Repo>, plans: seq<Plan>, rest: string)

  // ---------------------------------------------------------------------
  // Plans as a list

  ghost predicate HasID(plans: seq<Plan>, id: string) { exists p :: p in plans && p.id == id }

  ghost predicate UniqueIDs(plans: seq<Plan>) {
    forall i, j :: 0 <= i < j < |plans| ==> plans[i].id != plans[j].id
  }

  /** The plans whose ID is not among ids, in their order. */
  function Except(plans: seq<Plan>, ids: set<string>): seq<Plan> {
    if plans == [] then []
    else
      var p := plans[|plans| - 1];
      Except(plans[..|plans| - 1], ids) + (if p.id in ids then [] else [p])
  }

  function Without(plans: seq<Plan>, id: string): seq<Plan> { Except(plans, {id}) }

  /** Where the first plan of that ID is, or past the end. */
  function IndexOf(plans: seq<Plan>, id: string): (i: nat)
    ensures i <= |plans| && (i < |plans| ==> plans[i].id == id)
    ensures forall j :: 0 <= j < i ==> plans[j].id != id
  {
    if plans == [] || plans[0].id == id then 0 else 1 + IndexOf(plans[1..], id)
  }

  /** The first plan of the same ID replaced, or the plan added at the end. */
  function Upserted(plans: seq<Plan>, plan: Plan): seq<Plan> {
    var i := IndexOf(plans, plan.id);
    if i < |plans| then plans[i := plan] else plans + [plan]
  }

  lemma {:induction false} ExceptConcat(a: seq<Plan>, b: seq<Plan>, ids: set<string>)
    ensures Except(a + b, ids) == Except(a, ids) + Except(b, ids)
  {
    if b == [] {
      assert a + b == a;
    } else {
      assert (a + b)[..|a + b| - 1] == a + b[..|b| - 1];
      ExceptConcat(a, b[..|b| - 1], ids);
    }
  }

  /** Except keeps exactly the plans of other IDs. */
  lemma {:induction false} ExceptKeeps(plans: seq<Plan>, ids: set<string>)
    ensures forall p :: p in Except(plans, ids) <==> p in plans && p.id !in ids
  {
    if plans != [] {
      ExceptKeeps(plans[..|plans| - 1], ids);
      assert plans == plans[..|plans| - 1] + [plans[|plans| - 1]];
    }
  }

  lemma ExceptOne(p: Plan, ids: set<string>)
    ensures Except([p], ids) == if p.id in ids then [] else [p]
  {
    assert [p][..0] == [];
  }

  /** The three pieces an upsert sees. */
  lemma UpsertedSplit(a: seq<Plan>, q: Plan, b: seq<Plan>, plan: Plan)
    requires !HasID(a, plan.id) && q.id == plan.id
    ensures Upserted(a + [q] + b, plan) == a + [plan] + b
  {
    var all := a + [q] + b;
    assert all[|a|] == q;
    forall j | 0 <= j < |a| ensures all[j].id != plan.id {
      assert all[j] == a[j] && a[j] in a;
    }
  }

  lemma UpsertedAbsent(plans: seq<Plan>, plan: Plan)
    requires !HasID(plans, plan.id)
    ensures Upserted(plans, plan) == plans + [plan]
  {
    forall j | 0 <= j < |plans| ensures plans[j].id != plan.id {
      assert plans[j] in plans;
    }
  }

  /** An upsert leaves every other plan and their order alone, and it commutes with dropping other plans. */
  lemma UpsertExcept(plans: seq<Plan>, plan: Plan, ids: set<string>)
    ensures Except(Upserted(plans, plan), ids) ==
            if plan.id in ids then Except(plans, ids) else Upserted(Except(plans, ids), plan)
  {
    var i := IndexOf(plans, plan.id);
    if i < |plans| {
      var a, q, b := plans[..i], plans[i], plans[i + 1..];
      assert plans == a + [q] + b;
      ReplaceExcept(a, q, b, plan, ids);
      UpsertedSplit(a, q, b, plan);
    } else {
      AppendExcept(plans, plan, ids);
    }
  }

  lemma ReplaceExcept(a: seq<Plan>, q: Plan, b: seq<Plan>, plan: Plan, ids: set<string>)
    requires !HasID(a, plan.id) && q.id == plan.id
    ensures Except(a + [plan] + b, ids) ==
            if plan.id in ids then Except(a + [q] + b, ids) else Upserted(Except(a + [q] + b, ids), plan)
  {
    ExceptParts(a, q, b, ids);
    ExceptParts(a, plan, b, ids);
    if plan.id !in ids {
      ExceptKeeps(a, ids);
      UpsertedSplit(Except(a, ids), q, Except(b, ids), plan);
    }
  }

  lemma AppendExcept(plans: seq<Plan>, plan: Plan, ids: set<string>)
    requires IndexOf(plans, plan.id) == |plans|
    ensures Except(plans + [plan], ids) ==
            if plan.id in ids then Except(plans, ids) else Upserted(Except(plans, ids), plan)
  {
    ExceptConcat(plans, [plan], ids);
    ExceptOne(plan, ids);
    ExceptKeeps(plans, ids);
    if plan.id !in ids {
      UpsertedAbsent(Except(plans, ids), plan);
    }
  }

  lemma ExceptParts(a: seq<Plan>, q: Plan, b: seq<Plan>, ids: set<string>)
    ensures Except(a + [q] + b, ids) == Except(a, ids) + (if q.id in ids then [] else [q]) + Except(b, ids)
  {
    ExceptConcat(a + [q], b, ids);
    ExceptConcat(a, [q], ids);
    ExceptOne(q, ids);
  }

  lemma {:induction false} ExceptNone(plans: seq<Plan>, ids: set<string>)
    requires forall p :: p in plans ==> p.id !in ids
    ensures Except(plans, ids) == plans
  {
    if plans != [] {
      ExceptNone(plans[..|plans| - 1], ids);
      assert plans == plans[..|plans| - 1] + [plans[|plans| - 1]];
    }
  }

  /** Deleting undoes the upsert of an absent ID. */
  lemma DeleteUndoesUpsert(plans: seq<Plan>, plan: Plan)
    requires !HasID(plans, plan.id)
    ensures Without(Upserted(plans, plan), plan.id) == plans
  {
    UpsertExcept(plans, plan, {plan.id});
    ExceptNone(plans, {plan.id});
  }

  // ---------------------------------------------------------------------
  // Lists against maps

  ghost function PlanMap(plans: seq<Plan>): map<string, Plan> {
    if plans == [] then map[]
    else PlanMap(plans[..|plans| - 1])[plans[|plans| - 1].id := plans[|plans| - 1]]
  }

  /** m has exactly the entries of the list. */
  ghost predicate Represents(m: map<string, Plan>, plans: seq<Plan>) {
    && (forall p :: p in plans ==> p.id in m && m[p.id] == p)
    && (forall id :: id in m ==> HasID(plans, id))
  }

  lemma {:induction false} PlanMapRepresents(plans: seq<Plan>)
    requires UniqueIDs(plans)
    ensures Represents(PlanMap(plans), plans)
  {
    if plans != [] {
      var front, p := plans[..|plans| - 1], plans[|plans| - 1];
      PlanMapRepresents(front);
      assert plans == front + [p];
      forall id | id in PlanMap(plans) ensures HasID(plans, id) {
        if id == p.id {
          assert p in plans;
        } else {
          var q :| q in front && q.id == id;
          assert q in plans;
        }
      }
    }
  }

  lemma OneRepresentation(m: map<string, Plan>, n: map<string, Plan>, plans: seq<Plan>)
    requires Represents(m, plans) && Represents(n, plans)
    ensures m == n
  {
    assert m.Keys == n.Keys;
  }

  lemma UpsertRepresents(m: map<string, Plan>, plans: seq<Plan>, plan: Plan)
    requires UniqueIDs(plans) && Represents(m, plans)
    ensures UniqueIDs(Upserted(plans, plan)) && Represents(m[plan.id := plan], Upserted(plans, plan))
  {
    var after, i := Upserted(plans, plan), IndexOf(plans, plan.id);
    assert after[i] == plan && plan in after;
    forall j | 0 <= j < |after| ensures j == i || (j < |plans| && after[j] == plans[j] && plans[j].id != plan.id) {
    }
    forall id | id in m && id != plan.id ensures HasID(after, id) {
      var p :| p in plans && p.id == id;
      var j :| 0 <= j < |plans| && plans[j] == p;
      assert after[j] == p && p in after;
    }
  }

  lemma ExceptRepresents(m: map<string, Plan>, plans: seq<Plan>, ids: set<string>)
    requires UniqueIDs(plans) && Represents(m, plans)
    ensures UniqueIDs(Except(plans, ids)) && Represents(m - ids, Except(plans, ids))
  {
    ExceptUniqueIDs(plans, ids);
    ExceptKeeps(plans, ids);
    forall id | id in m - ids ensures HasID(Except(plans, ids), id) {
      var p :| p in plans && p.id == id;
      assert p in Except(plans, ids);
    }
  }

  lemma {:induction false} ExceptUniqueIDs(plans: seq<Plan>, ids: set<string>)
    requires UniqueIDs(plans)
    ensures UniqueIDs(Except(plans, ids))
  {
    if plans != [] {
      var front, p := plans[..|plans| - 1], plans[|plans| - 1];
      ExceptUniqueIDs(front, ids);
      ExceptKeeps(front, ids);
      forall i | 0 <= i < |Except(front, ids)| ensures Except(front, ids)[i].id != p.id {
        assert Except(front, ids)[i] in front;
      }
    }
  }

  // ---------------------------------------------------------------------
  // Sequences of edits

  datatype Edit = Put(plan: Plan) | Delete(id: string)

  function EditedID(e: Edit): string { if e.Put? then e.plan.id else e.id }

  function EditPlans(plans: seq<Plan>, e: Edit): seq<Plan> {
    match e
    case Put(plan) => Upserted(plans, plan)
    case Delete(id) => Without(plans, id)
  }

  ghost function EditMap(m: map<string, Plan>, e: Edit): map<string, Plan> {
    match e
    case Put(plan) => m[plan.id := plan]
    case Delete(id) => m - {id}
  }

  function AllEdits(plans: seq<Plan>, edits: seq<Edit>): seq<Plan> {
    if edits == [] then plans else EditPlans(AllEdits(plans, edits[..|edits| - 1]), edits[|edits| - 1])
  }

  ghost function AllMapEdits(m: map<string, Plan>, edits: seq<Edit>): map<string, Plan> {
    if edits == [] then m else EditMap(AllMapEdits(m, edits[..|edits| - 1]), edits[|edits| - 1])
  }

  lemma {:induction false} EditsRepresent(m: map<string, Plan>, plans: seq<Plan>, edits: seq<Edit>)
    requires UniqueIDs(plans) && Represents(m, plans)
    ensures UniqueIDs(AllEdits(plans, edits)) && Represents(AllMapEdits(m, edits), AllEdits(plans, edits))
  {
    if edits != [] {
      var front, e := edits[..|edits| - 1], edits[|edits| - 1];
      EditsRepresent(m, plans, front);
      match e
      case Put(plan) => UpsertRepresents(AllMapEdits(m, front), AllEdits(plans, front), plan);
      case Delete(id) => ExceptRepresents(AllMapEdits(m, front), AllEdits(plans, front), {id});
    }
  }

  /** Any sequence of edits of an ID-unique list keeps IDs unique and acts on it as on a map from ID to plan. */
  lemma EditsRefineMap(plans: seq<Plan>, edits: seq<Edit>)
    requires UniqueIDs(plans)
    ensures UniqueIDs(AllEdits(plans, edits))
    ensures PlanMap(AllEdits(plans, edits)) == AllMapEdits(PlanMap(plans), edits)
  {
    PlanMapRepresents(plans);
    EditsRepresent(PlanMap(plans), plans, edits);
    PlanMapRepresents(AllEdits(plans, edits));
    OneRepresentation(PlanMap(AllEdits(plans, edits)), AllMapEdits(PlanMap(plans), edits), AllEdits(plans, edits));
  }

  lemma {:induction false} ExceptTwice(plans: seq<Plan>, a: set<string>, b: set<string>)
    ensures Except(Except(plans, a), b) == Except(plans, a + b)
  {
    if plans != [] {
      var front, p := plans[..|plans| - 1], plans[|plans| - 1];
      ExceptTwice(front, a, b);
      ExceptConcat(Except(front, a), if p.id in a then [] else [p], b);
      ExceptOne(p, b);
    }
  }

  /** Edits of other IDs commute with dropping ids. */
  lemma {:induction false} EditsElsewhere(plans: seq<Plan>, edits: seq<Edit>, ids: set<string>)
    requires forall e :: e in edits ==> EditedID(e) !in ids
    ensures Except(AllEdits(plans, edits), ids) == AllEdits(Except(plans, ids), edits)
  {
    if edits != [] {
      var front, e := edits[..|edits| - 1], edits[|edits| - 1];
      EditsElsewhere(plans, front, ids);
      EditExcept(AllEdits(plans, front), e, ids);
      assert e in edits;
    }
  }

  /** The plans that no edit names stay as they are and in their order. */
  lemma {:induction false} OthersKeepOrder(plans: seq<Plan>, edits: seq<Edit>, ids: set<string>)
    requires forall e :: e in edits ==> EditedID(e) in ids
    ensures Except(AllEdits(plans, edits), ids) == Except(plans, ids)
  {
    if edits != [] {
      var front, e := edits[..|edits| - 1], edits[|edits| - 1];
      OthersKeepOrder(plans, front, ids);
      EditExcept(AllEdits(plans, front), e, ids);
      assert e in edits;
    }
  }

  lemma EditExcept(plans: seq<Plan>, e: Edit, ids: set<string>)
    ensures Except(EditPlans(plans, e), ids) == if EditedID(e) in ids then Except(plans, ids) else EditPlans(Except(plans, ids), e)
  {
    match e
    case Put(plan) => UpsertExcept(plans, plan, ids);
    case Delete(id) =>
      ExceptTwice(plans, {id}, ids);
      ExceptTwice(plans, ids, {id});
      assert {id} + ids == ids + {id};
      if id in ids { assert {id} + ids == ids; }
  }

  lemma WithoutSame(plans: seq<Plan>, id: string)
    ensures Without(plans, id) == plans <==> !HasID(plans, id)
  {
    ExceptKeeps(plans, {id});
    if !HasID(plans, id) {
      ExceptNone(plans, {id});
    }
  }

  lemma {:induction false} EditsKeepID(plans: seq<Plan>, edits: seq<Edit>, id: string)
    requires forall e :: e in edits ==> EditedID(e) != id
    ensures HasID(plans, id) ==> HasID(AllEdits(plans, edits), id)
  {
    if edits != [] && HasID(plans, id) {
      var front, e := edits[..|edits| - 1], edits[|edits| - 1];
      EditsKeepID(plans, front, id);
      var before := AllEdits(plans, front);
      var p :| p in before && p.id == id;
      match e
      case Put(plan) =>
        assert e in edits;
        var i :| 0 <= i < |before| && before[i] == p;
        assert Upserted(before, plan)[i] == p;
      case Delete(other) =>
        assert e in edits;
        ExceptKeeps(before, {other});
    }
  }

  /** Removing the plan that a sync wrote leaves what all the other edits in between made of the old configuration, if
      and only if no plan had its ID before. */
  lemma CleanupUndoesSync(plans: seq<Plan>, plan: Plan, edits: seq<Edit>)
    requires forall e :: e in edits ==> EditedID(e) != plan.id
    ensures Without(AllEdits(Upserted(plans, plan), edits), plan.id) == AllEdits(plans, edits) <==> !HasID(plans, plan.id)
  {
    EditsElsewhere(Upserted(plans, plan), edits, {plan.id});
    UpsertExcept(plans, plan, {plan.id});
    EditsElsewhere(plans, edits, {plan.id});
    WithoutSame(AllEdits(plans, edits), plan.id);
    EditsKeepID(plans, edits, plan.id);
    WithoutSame(plans, plan.id);
  }

  // ---------------------------------------------------------------------
  // The operations on a host

  datatype Outcome = Done | InstanceRequired | InstanceUnset | CallFailed | AskedToAdd(repo: Repo)

  /** Which of the two calls of an edit fail. */
  datatype Calls = Calls(getFails: bool, setFails: bool)

  /** Deletes the plans of that ID from the array while reading it: what is kept is written to its front. */
  method FilterInPlace(plans: array<Plan>, id: string) returns (kept: nat, found: bool)
    modifies plans
    ensures kept <= plans.Length
    ensures plans[..kept] == Without(old(plans[..]), id)
    ensures found <==> HasID(old(plans[..]), id)
  {
    kept, found := 0, false;
    ghost var was := plans[..];
    for i := 0 to plans.Length
      invariant kept <= i
      invariant forall j :: i <= j < plans.Length ==> plans[j] == was[j]
      invariant plans[..kept] == Without(was[..i], id)
      invariant found <==> HasID(was[..i], id)
    {
      var p := plans[i];
      assert p == was[i] && was[..i + 1] == was[..i] + [p] && was[..i + 1][..i] == was[..i];
      if p.id == id {
        found := true;
      } else {
        plans[kept] := p;
        kept := kept + 1;
        assert plans[..kept] == Without(was[..i], id) + [p];
      }
    }
    assert was[..plans.Length] == was;
  }

  class Host {
    var config: Config

    constructor (config: Config)
      ensures this.config == config
    {
      this.config := config;
    }

    method GetConfig(calls: Calls) returns (cfg: Option<Config>)
      ensures cfg == if calls.getFails then None else Some(config)
    {
      cfg := if calls.getFails then None else Some(config);
    }

    method SetConfig(cfg: Config, calls: Calls) returns (outcome: Outcome)
      modifies this
      ensures outcome == if calls.setFails then CallFailed else Done
      ensures config == if calls.setFails then old(config) else cfg
    {
      if calls.setFails {
        outcome := CallFailed;
      } else {
        config := cfg;
        outcome := Done;
      }
    }

    method EnsureInstance(instance: string, calls: Calls) returns (outcome: Outcome)
      modifies this
      ensures outcome.Done? ==> instance != "" && config == old(config).(instance := instance)
      ensures !outcome.Done? ==> config == old(config)
      ensures outcome.Done? <==> instance != "" && !calls.getFails && (old(config).instance == instance || !calls.setFails)
      ensures outcome.Done? || outcome == if instance == "" then InstanceRequired else CallFailed
    {
      if instance == "" {
        return InstanceRequired;
      }
      var got := GetConfig(calls);
      if got.None? {
        return CallFailed;
      }
      var cfg := got.value;
      if cfg.instance == instance {
        return Done;
      }
      outcome := SetConfig(cfg.(instance := instance), calls);
    }

    /** Replaces the first repository of that ID, or asks the host to add one. */
    method UpsertRepo(repo: Repo, calls: Calls) returns (outcome: Outcome)
      modifies this
      ensures config.repos == old(config.repos) || outcome.Done?
      ensures config == old(config).(repos := config.repos)
      ensures outcome.InstanceUnset? <==> !calls.getFails && old(config).instance == ""
      ensures outcome.AskedToAdd? ==> outcome.repo == repo && forall r :: r in old(config).repos ==> r.id != repo.id
      ensures outcome.Done? ==>
                exists i :: 0 <= i < |old(config).repos| && old(config).repos[i].id == repo.id &&
                            config.repos == old(config).repos[i := repo.(guid := if repo.guid != "" then repo.guid else old(config).repos[i].guid)] &&
                            forall j :: 0 <= j < i ==> old(config).repos[j].id != repo.id
      ensures outcome.CallFailed? ==> calls.getFails || calls.setFails
    {
      var got := GetConfig(calls);
      if got.None? {
        return CallFailed;
      }
      var cfg := got.value;
      if cfg.instance == "" {
        return InstanceUnset;
      }
      for i := 0 to |cfg.repos|
        invariant config == old(config)
        invariant forall j :: 0 <= j < i ==> cfg.repos[j].id != repo.id
      {
        var existing := cfg.repos[i];
        if existing.id == repo.id {
          var entry := repo;
          if entry.guid == "" {
            entry := entry.(guid := existing.guid);
          }
          outcome := SetConfig(cfg.(repos := cfg.repos[i := entry]), calls);
          return;
        }
      }
      return AskedToAdd(repo);
    }

    /** Writes one plan over the first of its ID or adds it, and nothing else. */
    method UpsertPlan(plan: Plan, calls: Calls) returns (outcome: Outcome)
      modifies this
      ensures outcome.Done? ==>
                config == old(config).(plans := Upserted(old(config).plans, plan.(
                    schedule := if plan.schedule.Some? then plan.schedule else Some(map["disabled" := true]))))
      ensures !outcome.Done? ==> config == old(config)
      ensures outcome == if calls.getFails then CallFailed
                         else if old(config).instance == "" then InstanceUnset
                         else if calls.setFails then CallFailed
                         else Done
    {
      var got := GetConfig(calls);
      if got.None? {
        return CallFailed;
      }
      var cfg := got.value;
      if cfg.instance == "" {
        return InstanceUnset;
      }
      var entry := plan;
      if entry.schedule.None? {
        entry := entry.(schedule := Some(map["disabled" := true]));
      }
      var plans, found := cfg.plans, false;
      for i := 0 to |cfg.plans|
        invariant !found ==> plans == cfg.plans && forall j :: 0 <= j < i ==> plans[j].id != entry.id
        invariant found ==> plans == Upserted(cfg.plans, entry)
      {
        if plans[i].id == entry.id {
          assert IndexOf(cfg.plans, entry.id) == i;
          plans := plans[i := entry];
          found := true;
          break;
        }
      }
      if !found {
        plans := plans + [entry];
      }
      outcome := SetConfig(cfg.(plans := plans), calls);
    }

    /** Removes every plan of that ID and nothing else; an absent or empty ID is not an error. */
    method DeletePlan(id: string, calls: Calls) returns (outcome: Outcome)
      modifies this
      ensures config == if outcome.Done? && id != "" then old(config).(plans := Without(old(config).plans, id)) else old(config)
      ensures outcome == if id == "" then Done
                         else if calls.getFails then CallFailed
                         else if old(config).instance == "" then InstanceUnset
                         else if HasID(old(config).plans, id) && calls.setFails then CallFailed
                         else Done
    {
      if id == "" {
        return Done;
      }
      var got := GetConfig(calls);
      if got.None? {
        return CallFailed;
      }
      var cfg := got.value;
      if cfg.instance == "" {
        return InstanceUnset;
      }
      var plans := new Plan[|cfg.plans|](i requires 0 <= i < |cfg.plans| => cfg.plans[i]);
      assert plans[..] == cfg.plans;
      var kept, found := FilterInPlace(plans, id);
      if !found {
        ExceptNone(cfg.plans, {id});
        return Done;
      }
      outcome := SetConfig(cfg.(plans := plans[..kept]), calls);
    }
  }
}
