/** What hangs on listeners: pools, their members and monitors, and routing rules, with the client through which one
    pass changes them. As for the other client, any call may fail, with or without effect, while faults are left. */
module Children {
  import opened Common
  import opened Model
  import Ids

  datatype Failure = NotFound | Failed

  /** Errors of the managers: a call that failed, or something the code itself refuses to do. */
  datatype Problem = Refused | CallFailed(failure: Failure)

  datatype MemberSpec = MemberSpec(
    resourceID: string, resourceType: string, resourceIP: string, backendPortID: int, port: int, weight: int)

  datatype MonitorSpec = MonitorSpec(name: string, protocol: string, path: string, interval: int)

  datatype RuleSpec = RuleSpec(host: string, path: string, matchType: string, poolID: Id)

  datatype PoolRec = PoolRec(listener: Id, name: string)
  datatype MemberRec = MemberRec(pool: Id, spec: MemberSpec)
  datatype MonitorRec = MonitorRec(pool: Id, spec: MonitorSpec)
  datatype RuleRec = RuleRec(listener: Id, spec: RuleSpec)

  /** `defaults` names the default pool of a listener. */
  datatype Kids = Kids(
    pools: map<Id, PoolRec>, members: map<Id, MemberRec>, monitors: map<Id, MonitorRec>, rules: map<Id, RuleRec>,
    defaults: map<Id, Id>, issued: set<Id>)

  /** A resource as the provider tells it. */
  datatype Info<S> = Info(id: Id, spec: S)

  type MemberInfo = Info<MemberSpec>
  type MonitorInfo = Info<MonitorSpec>
  type RuleInfo = Info<RuleSpec>
  datatype PoolInfo = PoolInfo(id: Id, name: string, isDefault: bool, members: seq<MemberInfo>)

  datatype KidCall =
    | CreatePool(vs: Id, name: string) | DeletePool(vs: Id, pool: Id) | SetDefault(vs: Id, pool: Id)
    | CreateMember(pool: Id, spec: MemberSpec) | UpdateMember(pool: Id, member: Id, spec: MemberSpec)
    | DeleteMember(pool: Id, member: Id)
    | CreateMonitor(pool: Id, monitorSpec: MonitorSpec) | UpdateMonitor(pool: Id, monitor: Id, monitorSpec: MonitorSpec)
    | DeleteMonitor(pool: Id, monitor: Id)
    | CreateRule(vs: Id, ruleSpec: RuleSpec) | DeleteRule(vs: Id, rule: Id)

  ghost predicate WellFormedKids(k: Kids) {
    && NO_ID !in k.issued
    && k.pools.Keys + k.members.Keys + k.monitors.Keys + k.rules.Keys <= k.issued
    && (forall id | id in k.members :: k.members[id].pool in k.pools)
    && (forall id | id in k.monitors :: k.monitors[id].pool in k.pools)
  }

  /** defaultResourceType: what the provider stores for a member. */
  function Stored(spec: MemberSpec): MemberSpec {
    if spec.resourceType == "" then spec.(resourceType := "compute") else spec
  }

  predicate PoolAt(k: Kids, vs: Id, pool: Id) {
    pool in k.pools && k.pools[pool].listener == vs
  }

  function MembersOf(k: Kids, pool: Id): set<Id> {
    set id | id in k.members && k.members[id].pool == pool
  }

  function MonitorsOf(k: Kids, pool: Id): set<Id> {
    set id | id in k.monitors && k.monitors[id].pool == pool
  }

  function RulesOf(k: Kids, vs: Id): set<Id> {
    set id | id in k.rules && k.rules[id].listener == vs
  }

  function PoolsOf(k: Kids, vs: Id): set<Id> {
    set id | id in k.pools && k.pools[id].listener == vs
  }

  // ----- Complete lists, each resource once -----

  ghost predicate ListsMembers(k: Kids, pool: Id, list: seq<MemberInfo>) {
    && (forall i | 0 <= i < |list| :: list[i].id in MembersOf(k, pool) && list[i].spec == k.members[list[i].id].spec)
    && (forall i, j | 0 <= i < |list| && 0 <= j < |list| && list[i].id == list[j].id :: i == j)
    && (forall id | id in MembersOf(k, pool) :: exists i :: 0 <= i < |list| && list[i].id == id)
  }

  ghost predicate ListsMonitors(k: Kids, pool: Id, list: seq<MonitorInfo>) {
    && (forall i | 0 <= i < |list| :: list[i].id in MonitorsOf(k, pool) && list[i].spec == k.monitors[list[i].id].spec)
    && (forall i, j | 0 <= i < |list| && 0 <= j < |list| && list[i].id == list[j].id :: i == j)
    && (forall id | id in MonitorsOf(k, pool) :: exists i :: 0 <= i < |list| && list[i].id == id)
  }

  ghost predicate ListsRules(k: Kids, vs: Id, list: seq<RuleInfo>) {
    && (forall i | 0 <= i < |list| :: list[i].id in RulesOf(k, vs) && list[i].spec == k.rules[list[i].id].spec)
    && (forall i, j | 0 <= i < |list| && 0 <= j < |list| && list[i].id == list[j].id :: i == j)
    && (forall id | id in RulesOf(k, vs) :: exists i :: 0 <= i < |list| && list[i].id == id)
  }

  ghost predicate TellsPool(k: Kids, vs: Id, p: PoolInfo) {
    && PoolAt(k, vs, p.id) && p.name == k.pools[p.id].name
    && p.isDefault == (vs in k.defaults && k.defaults[vs] == p.id)
    && ListsMembers(k, p.id, p.members)
  }

  ghost predicate ListsPools(k: Kids, vs: Id, list: seq<PoolInfo>) {
    && (forall i | 0 <= i < |list| :: TellsPool(k, vs, list[i]))
    && (forall i, j | 0 <= i < |list| && 0 <= j < |list| && list[i].id == list[j].id :: i == j)
    && (forall id | id in PoolsOf(k, vs) :: exists i :: 0 <= i < |list| && list[i].id == id)
  }

  // ----- What a creation adds -----

  predicate IsNew(k: Kids, id: Id) {
    id != NO_ID && id !in k.issued
  }

  /** The same provider, except that a pool may have been added, with members and a monitor of its own. */
  ghost predicate AddsPool(k: Kids, m: Kids, vs: Id, name: string, id: Id) {
    && IsNew(k, id) && m.pools == k.pools[id := PoolRec(vs, name)]
    && m.rules == k.rules && m.defaults == k.defaults && k.issued <= m.issued && WellFormedKids(m)
    && k.members.Keys <= m.members.Keys && k.monitors.Keys <= m.monitors.Keys
    && (forall x | x in m.members :: if x in k.members then m.members[x] == k.members[x] else m.members[x].pool == id && x !in k.issued)
    && (forall x | x in m.monitors :: if x in k.monitors then m.monitors[x] == k.monitors[x] else m.monitors[x].pool == id && x !in k.issued)
  }

  class ChildClient {
    var kids: Kids
    var faults: nat
    ghost var calls: seq<KidCall>

    ghost predicate Valid()
      reads this
    {
      WellFormedKids(kids)
    }

    constructor (kids: Kids, faults: nat)
      requires WellFormedKids(kids)
      ensures Valid() && this.kids == kids && this.faults == faults && calls == []
    {
      this.kids := kids;
      this.faults := faults;
      this.calls := [];
    }

    /** The adversary may spend a fault on this call; if so, it decides whether the call takes effect. */
    method Strikes() returns (hit: bool, acts: bool)
      modifies this`faults
      ensures faults <= old(faults) && (hit ==> faults < old(faults)) && (!hit ==> faults == old(faults) && acts)
    {
      hit, acts := *, *;
      hit := hit && faults > 0;
      if hit {
        faults := faults - 1;
      } else {
        acts := true;
      }
    }

    // ----- Members -----

    method CreatePoolMember(vs: Id, pool: Id, spec: MemberSpec) returns (r: Result<MemberInfo, Failure>)
      requires Valid()
      modifies this
      ensures Valid() && faults <= old(faults) && calls == old(calls) + [CreateMember(pool, spec)]
      ensures match r
              case Ok(m) =>
                && PoolAt(old(kids), vs, pool) && IsNew(old(kids), m.id) && m.spec == Stored(spec)
                && kids == old(kids).(members := old(kids.members)[m.id := MemberRec(pool, m.spec)], issued := old(kids.issued) + {m.id})
              case Err(f) =>
                && (faults < old(faults) || !PoolAt(kids, vs, pool))
                && (kids == old(kids)
                    || exists id :: PoolAt(old(kids), vs, pool) && IsNew(old(kids), id)
                         && kids == old(kids).(members := old(kids.members)[id := MemberRec(pool, Stored(spec))], issued := old(kids.issued) + {id}))
    {
      calls := calls + [CreateMember(pool, spec)];
      var hit, acts := Strikes();
      var id := Ids.Issue(kids.issued);
      var able := PoolAt(kids, vs, pool);
      if able && acts {
        kids := kids.(members := kids.members[id := MemberRec(pool, Stored(spec))], issued := kids.issued + {id});
      }
      return if hit then Err(Failed) else if able then Ok(Info(id, Stored(spec))) else Err(NotFound);
    }

    method UpdatePoolMember(vs: Id, pool: Id, id: Id, spec: MemberSpec) returns (r: Result<MemberInfo, Failure>)
      requires Valid()
      modifies this
      ensures Valid() && faults <= old(faults) && calls == old(calls) + [UpdateMember(pool, id, spec)]
      ensures kids == old(kids) || (id in MembersOf(old(kids), pool)
                                    && kids == old(kids).(members := old(kids.members)[id := MemberRec(pool, Stored(spec))]))
      ensures match r
              case Ok(m) => m == Info(id, Stored(spec)) && id in kids.members && kids.members[id] == MemberRec(pool, m.spec)
              case Err(f) => faults < old(faults) || !PoolAt(kids, vs, pool) || id !in MembersOf(kids, pool)
    {
      calls := calls + [UpdateMember(pool, id, spec)];
      var hit, acts := Strikes();
      var able := PoolAt(kids, vs, pool) && id in kids.members && kids.members[id].pool == pool;
      if able && acts {
        kids := kids.(members := kids.members[id := MemberRec(pool, Stored(spec))]);
      }
      return if hit then Err(Failed) else if able then Ok(Info(id, Stored(spec))) else Err(NotFound);
    }

    /** Deleting what is absent may read as success or as not found. */
    method DeletePoolMember(vs: Id, pool: Id, id: Id) returns (r: Result<(), Failure>)
      requires Valid()
      modifies this
      ensures Valid() && faults <= old(faults) && calls == old(calls) + [DeleteMember(pool, id)]
      ensures kids == old(kids) || (id in MembersOf(old(kids), pool) && kids == old(kids).(members := old(kids.members) - {id}))
      ensures r.Ok? || r.error == NotFound ==> PoolAt(kids, vs, pool) ==> id !in MembersOf(kids, pool)
      ensures r.Err? ==> faults < old(faults) || !PoolAt(kids, vs, pool) || id !in MembersOf(old(kids), pool)
      ensures r == Err(Failed) ==> faults < old(faults)
    {
      calls := calls + [DeleteMember(pool, id)];
      var hit, acts := Strikes();
      var absent := *;
      var able := PoolAt(kids, vs, pool) && id in kids.members && kids.members[id].pool == pool;
      if able && acts {
        kids := kids.(members := kids.members - {id});
      }
      return if hit then Err(Failed) else if !able && absent then Err(NotFound) else Ok(());
    }

    // ----- Monitors -----

    method ListMonitors(vs: Id, pool: Id) returns (r: Result<seq<MonitorInfo>, Failure>)
      requires Valid()
      modifies this`faults
      ensures faults <= old(faults)
      ensures r.Ok? ==> PoolAt(kids, vs, pool) && ListsMonitors(kids, pool, r.value)
      ensures r.Err? ==> faults < old(faults) || !PoolAt(kids, vs, pool)
    {
      var hit, _ := Strikes();
      if hit || !PoolAt(kids, vs, pool) {
        return Err(if hit then Failed else NotFound);
      }
      var left := kids.monitors.Keys;
      var list: seq<MonitorInfo> := [];
      while left != {}
        invariant left <= kids.monitors.Keys
        invariant forall i | 0 <= i < |list| ::
            list[i].id in MonitorsOf(kids, pool) && list[i].id !in left && list[i].spec == kids.monitors[list[i].id].spec
        invariant forall i, j | 0 <= i < |list| && 0 <= j < |list| && list[i].id == list[j].id :: i == j
        invariant forall id | id in MonitorsOf(kids, pool) && id !in left :: exists i :: 0 <= i < |list| && list[i].id == id
        decreases left
        modifies {}
      {
        var id :| id in left;
        left := left - {id};
        if kids.monitors[id].pool == pool {
          ghost var before := list;
          list := list + [Info(id, kids.monitors[id].spec)];
          assert list[|before|].id == id;
          assert forall i | 0 <= i < |before| :: list[i] == before[i];
        }
      }
      return Ok(list);
    }

    method CreatePoolMonitor(vs: Id, pool: Id, spec: MonitorSpec) returns (r: Result<MonitorInfo, Failure>)
      requires Valid()
      modifies this
      ensures Valid() && faults <= old(faults) && calls == old(calls) + [CreateMonitor(pool, spec)]
      ensures match r
              case Ok(m) =>
                && PoolAt(old(kids), vs, pool) && IsNew(old(kids), m.id) && m.spec == spec
                && kids == old(kids).(monitors := old(kids.monitors)[m.id := MonitorRec(pool, spec)], issued := old(kids.issued) + {m.id})
              case Err(f) =>
                && (faults < old(faults) || !PoolAt(kids, vs, pool))
                && (kids == old(kids)
                    || exists id :: PoolAt(old(kids), vs, pool) && IsNew(old(kids), id)
                         && kids == old(kids).(monitors := old(kids.monitors)[id := MonitorRec(pool, spec)], issued := old(kids.issued) + {id}))
    {
      calls := calls + [CreateMonitor(pool, spec)];
      var hit, acts := Strikes();
      var id := Ids.Issue(kids.issued);
      var able := PoolAt(kids, vs, pool);
      if able && acts {
        kids := kids.(monitors := kids.monitors[id := MonitorRec(pool, spec)], issued := kids.issued + {id});
      }
      return if hit then Err(Failed) else if able then Ok(Info(id, spec)) else Err(NotFound);
    }

    method UpdatePoolMonitor(vs: Id, pool: Id, id: Id, spec: MonitorSpec) returns (r: Result<MonitorInfo, Failure>)
      requires Valid()
      modifies this
      ensures Valid() && faults <= old(faults) && calls == old(calls) + [UpdateMonitor(pool, id, spec)]
      ensures kids == old(kids) || (id in MonitorsOf(old(kids), pool)
                                    && kids == old(kids).(monitors := old(kids.monitors)[id := MonitorRec(pool, spec)]))
      ensures match r
              case Ok(m) => m == Info(id, spec) && id in kids.monitors && kids.monitors[id] == MonitorRec(pool, spec)
              case Err(f) => faults < old(faults) || !PoolAt(kids, vs, pool) || id !in MonitorsOf(kids, pool)
    {
      calls := calls + [UpdateMonitor(pool, id, spec)];
      var hit, acts := Strikes();
      var able := PoolAt(kids, vs, pool) && id in kids.monitors && kids.monitors[id].pool == pool;
      if able && acts {
        kids := kids.(monitors := kids.monitors[id := MonitorRec(pool, spec)]);
      }
      return if hit then Err(Failed) else if able then Ok(Info(id, spec)) else Err(NotFound);
    }

    method DeletePoolMonitor(vs: Id, pool: Id, id: Id) returns (r: Result<(), Failure>)
      requires Valid()
      modifies this
      ensures Valid() && faults <= old(faults) && calls == old(calls) + [DeleteMonitor(pool, id)]
      ensures kids == old(kids) || (id in MonitorsOf(old(kids), pool) && kids == old(kids).(monitors := old(kids.monitors) - {id}))
      ensures r.Ok? || r.error == NotFound ==> PoolAt(kids, vs, pool) ==> id !in MonitorsOf(kids, pool)
      ensures r.Err? ==> faults < old(faults) || !PoolAt(kids, vs, pool) || id !in MonitorsOf(old(kids), pool)
      ensures r == Err(Failed) ==> faults < old(faults)
    {
      calls := calls + [DeleteMonitor(pool, id)];
      var hit, acts := Strikes();
      var absent := *;
      var able := PoolAt(kids, vs, pool) && id in kids.monitors && kids.monitors[id].pool == pool;
      if able && acts {
        kids := kids.(monitors := kids.monitors - {id});
      }
      return if hit then Err(Failed) else if !able && absent then Err(NotFound) else Ok(());
    }

    // ----- Routing rules -----

    method ListRoutingRules(vs: Id) returns (r: Result<seq<RuleInfo>, Failure>)
      requires Valid()
      modifies this`faults
      ensures faults <= old(faults)
      ensures r.Ok? ==> ListsRules(kids, vs, r.value)
      ensures r.Err? ==> faults < old(faults)
    {
      var hit, _ := Strikes();
      if hit {
        return Err(Failed);
      }
      var left := kids.rules.Keys;
      var list: seq<RuleInfo> := [];
      while left != {}
        invariant left <= kids.rules.Keys
        invariant forall i | 0 <= i < |list| ::
            list[i].id in RulesOf(kids, vs) && list[i].id !in left && list[i].spec == kids.rules[list[i].id].spec
        invariant forall i, j | 0 <= i < |list| && 0 <= j < |list| && list[i].id == list[j].id :: i == j
        invariant forall id | id in RulesOf(kids, vs) && id !in left :: exists i :: 0 <= i < |list| && list[i].id == id
        decreases left
        modifies {}
      {
        var id :| id in left;
        left := left - {id};
        if kids.rules[id].listener == vs {
          ghost var before := list;
          list := list + [Info(id, kids.rules[id].spec)];
          assert list[|before|].id == id;
          assert forall i | 0 <= i < |before| :: list[i] == before[i];
        }
      }
      return Ok(list);
    }

    method CreateRoutingRule(vs: Id, spec: RuleSpec) returns (r: Result<RuleInfo, Failure>)
      requires Valid()
      modifies this
      ensures Valid() && faults <= old(faults) && calls == old(calls) + [CreateRule(vs, spec)]
      ensures match r
              case Ok(m) =>
                && IsNew(old(kids), m.id) && m.spec == spec
                && kids == old(kids).(rules := old(kids.rules)[m.id := RuleRec(vs, spec)], issued := old(kids.issued) + {m.id})
              case Err(f) =>
                && faults < old(faults)
                && (kids == old(kids)
                    || exists id :: IsNew(old(kids), id)
                         && kids == old(kids).(rules := old(kids.rules)[id := RuleRec(vs, spec)], issued := old(kids.issued) + {id}))
    {
      calls := calls + [CreateRule(vs, spec)];
      var hit, acts := Strikes();
      var id := Ids.Issue(kids.issued);
      if acts {
        kids := kids.(rules := kids.rules[id := RuleRec(vs, spec)], issued := kids.issued + {id});
      }
      return if hit then Err(Failed) else Ok(Info(id, spec));
    }

    method DeleteRoutingRule(vs: Id, id: Id) returns (r: Result<(), Failure>)
      requires Valid()
      modifies this
      ensures Valid() && faults <= old(faults) && calls == old(calls) + [DeleteRule(vs, id)]
      ensures kids == old(kids) || (id in RulesOf(old(kids), vs) && kids == old(kids).(rules := old(kids.rules) - {id}))
      ensures r.Ok? || r.error == NotFound ==> id !in RulesOf(kids, vs)
      ensures r.Err? ==> faults < old(faults) || id !in RulesOf(old(kids), vs)
      ensures r == Err(Failed) ==> faults < old(faults)
    {
      calls := calls + [DeleteRule(vs, id)];
      var hit, acts := Strikes();
      var absent := *;
      var able := id in kids.rules && kids.rules[id].listener == vs;
      if able && acts {
        kids := kids.(rules := kids.rules - {id});
      }
      return if hit then Err(Failed) else if !able && absent then Err(NotFound) else Ok(());
    }

    // ----- Pools -----

    method ListMembers(pool: Id) returns (list: seq<MemberInfo>)
      ensures ListsMembers(kids, pool, list)
    {
      var left := kids.members.Keys;
      list := [];
      while left != {}
        invariant left <= kids.members.Keys
        invariant forall i | 0 <= i < |list| ::
            list[i].id in MembersOf(kids, pool) && list[i].id !in left && list[i].spec == kids.members[list[i].id].spec
        invariant forall i, j | 0 <= i < |list| && 0 <= j < |list| && list[i].id == list[j].id :: i == j
        invariant forall id | id in MembersOf(kids, pool) && id !in left :: exists i :: 0 <= i < |list| && list[i].id == id
        decreases left
      {
        var id :| id in left;
        left := left - {id};
        if kids.members[id].pool == pool {
          ghost var before := list;
          list := list + [Info(id, kids.members[id].spec)];
          assert list[|before|].id == id;
          assert forall i | 0 <= i < |before| :: list[i] == before[i];
        }
      }
    }

    method ListPools(vs: Id) returns (r: Result<seq<PoolInfo>, Failure>)
      requires Valid()
      modifies this`faults
      ensures faults <= old(faults)
      ensures r.Ok? ==> ListsPools(kids, vs, r.value)
      ensures r.Err? ==> faults < old(faults)
    {
      hide ListsMembers;
      var hit, _ := Strikes();
      if hit {
        return Err(Failed);
      }
      var left := kids.pools.Keys;
      var list: seq<PoolInfo> := [];
      while left != {}
        invariant left <= kids.pools.Keys
        invariant forall i | 0 <= i < |list| :: TellsPool(kids, vs, list[i]) && list[i].id !in left
        invariant forall i, j | 0 <= i < |list| && 0 <= j < |list| && list[i].id == list[j].id :: i == j
        invariant forall id | id in PoolsOf(kids, vs) && id !in left :: exists i :: 0 <= i < |list| && list[i].id == id
        decreases left
        modifies {}
      {
        var id :| id in left;
        left := left - {id};
        if kids.pools[id].listener == vs {
          var members := ListMembers(id);
          ghost var before := list;
          list := list + [PoolInfo(id, kids.pools[id].name, vs in kids.defaults && kids.defaults[vs] == id, members)];
          assert list[|before|].id == id;
          assert forall i | 0 <= i < |before| :: list[i] == before[i];
        }
      }
      return Ok(list);
    }

    /** Deleting a pool takes its members and monitors along. */
    method DeleteVSPool(vs: Id, id: Id) returns (r: Result<(), Failure>)
      requires Valid()
      modifies this
      ensures Valid() && faults <= old(faults) && calls == old(calls) + [DeletePool(vs, id)]
      ensures kids == old(kids) || (PoolAt(old(kids), vs, id) && kids == WithoutPool(old(kids), id))
      ensures r.Ok? || r.error == NotFound ==> !PoolAt(kids, vs, id)
      ensures r.Err? ==> faults < old(faults) || !PoolAt(old(kids), vs, id)
      ensures r == Err(Failed) ==> faults < old(faults)
    {
      calls := calls + [DeletePool(vs, id)];
      var hit, acts := Strikes();
      var absent := *;
      var able := PoolAt(kids, vs, id);
      if able && acts {
        kids := WithoutPool(kids, id);
      }
      return if hit then Err(Failed) else if !able && absent then Err(NotFound) else Ok(());
    }

    method SetDefaultPool(vs: Id, id: Id) returns (r: Result<(), Failure>)
      requires Valid()
      modifies this
      ensures Valid() && faults <= old(faults) && calls == old(calls) + [SetDefault(vs, id)]
      ensures kids == old(kids) || kids == old(kids).(defaults := old(kids.defaults)[vs := id])
      ensures r.Ok? ==> vs in kids.defaults && kids.defaults[vs] == id
      ensures r.Err? ==> faults < old(faults) || !PoolAt(kids, vs, id)
    {
      calls := calls + [SetDefault(vs, id)];
      var hit, acts := Strikes();
      var able := PoolAt(kids, vs, id);
      if able && acts {
        kids := kids.(defaults := kids.defaults[vs := id]);
      }
      return if hit then Err(Failed) else if able then Ok(()) else Err(NotFound);
    }

    /** The provider may install the requested members together with the pool, all or none of them, and a monitor; it
        reports what it stores. */
    method CreateVSPool(vs: Id, name: string, monitor: Option<MonitorSpec>, members: seq<MemberSpec>)
      returns (r: Result<PoolInfo, Failure>)
      requires Valid()
      modifies this
      ensures Valid() && faults <= old(faults) && calls == old(calls) + [CreatePool(vs, name)]
      ensures match r
              case Ok(p) =>
                && AddsPool(old(kids), kids, vs, name, p.id) && TellsPool(kids, vs, p)
                && (p.members == [] || |p.members| == |members|)
                && (forall i | 0 <= i < |p.members| :: p.members[i].spec == Stored(members[i]))
              case Err(f) => faults < old(faults) && (kids == old(kids) || exists id :: AddsPool(old(kids), kids, vs, name, id))
    {
      hide ListsMembers, AddsPool, WellFormedKids;
      calls := calls + [CreatePool(vs, name)];
      var hit, acts := Strikes();
      if !acts {
        return Err(Failed);
      }
      ghost var k0 := kids;
      var id := Ids.Issue(kids.issued);
      var withMembers, withMonitor := *, *;
      var list: seq<MemberInfo> := [];
      kids := kids.(pools := kids.pools[id := PoolRec(vs, name)], issued := kids.issued + {id});
      NewPoolIsEmpty(k0, kids, vs, name, id);
      if withMembers {
        for i := 0 to |members|
          invariant |list| == i && AddsPool(k0, kids, vs, name, id) && ListsMembers(kids, id, list)
          invariant forall j | 0 <= j < i :: list[j].spec == Stored(members[j])
          modifies this`kids
        {
          var m := Ids.Issue(kids.issued);
          var spec := Stored(members[i]);
          ghost var k1 := kids;
          AddedPoolIsThere(k0, k1, vs, name, id);
          kids := kids.(members := kids.members[m := MemberRec(id, spec)], issued := kids.issued + {m});
          MemberFills(k0, k1, kids, vs, name, id, m, spec);
          ListGrows(k1, kids, id, list, m, spec);
          list := list + [Info(m, spec)];
        }
      }
      if withMonitor && monitor.Some? {
        var m := Ids.Issue(kids.issued);
        ghost var k1 := kids;
        kids := kids.(monitors := kids.monitors[m := MonitorRec(id, monitor.value)], issued := kids.issued + {m});
        MonitorFills(k0, k1, kids, vs, name, id, m, monitor.value);
        SameMembersSameList(k1, kids, id, list);
      }
      AddedPoolIsThere(k0, kids, vs, name, id);
      if hit {
        return Err(Failed);
      }
      return Ok(PoolInfo(id, name, vs in kids.defaults && kids.defaults[vs] == id, list));
    }
  }

  function WithoutPool(k: Kids, id: Id): Kids {
    k.(pools := k.pools - {id},
       members := map x | x in k.members && k.members[x].pool != id :: k.members[x],
       monitors := map x | x in k.monitors && k.monitors[x].pool != id :: k.monitors[x])
  }

  lemma NewPoolIsEmpty(k: Kids, m: Kids, vs: Id, name: string, id: Id)
    requires WellFormedKids(k) && IsNew(k, id)
    requires m == k.(pools := k.pools[id := PoolRec(vs, name)], issued := k.issued + {id})
    ensures AddsPool(k, m, vs, name, id) && ListsMembers(m, id, [])
  {
    assert MembersOf(m, id) == {};
  }

  lemma ListGrows(k: Kids, m: Kids, pool: Id, list: seq<MemberInfo>, id: Id, spec: MemberSpec)
    requires WellFormedKids(k) && ListsMembers(k, pool, list) && IsNew(k, id)
    requires m == k.(members := k.members[id := MemberRec(pool, spec)], issued := k.issued + {id})
    ensures ListsMembers(m, pool, list + [Info(id, spec)])
  {
    var more := list + [Info(id, spec)];
    assert MembersOf(m, pool) == MembersOf(k, pool) + {id};
    forall x | x in MembersOf(m, pool) ensures exists i :: 0 <= i < |more| && more[i].id == x {
      if x == id {
        assert more[|list|].id == x;
      } else {
        var i :| 0 <= i < |list| && list[i].id == x;
        assert more[i].id == x;
      }
    }
  }

  lemma SameMembersSameList(k: Kids, m: Kids, pool: Id, list: seq<MemberInfo>)
    requires m.members == k.members && ListsMembers(k, pool, list)
    ensures ListsMembers(m, pool, list)
  {
    assert MembersOf(m, pool) == MembersOf(k, pool);
  }

  /** The new pool gets a member or a monitor of its own. */
  lemma MemberFills(k: Kids, k1: Kids, m: Kids, vs: Id, name: string, id: Id, x: Id, spec: MemberSpec)
    requires WellFormedKids(k) && AddsPool(k, k1, vs, name, id) && IsNew(k1, x)
    requires m == k1.(members := k1.members[x := MemberRec(id, spec)], issued := k1.issued + {x})
    ensures AddsPool(k, m, vs, name, id)
  {
    assert x !in k.issued && x !in k1.members;
    assert WellFormedKids(m);
  }

  lemma MonitorFills(k: Kids, k1: Kids, m: Kids, vs: Id, name: string, id: Id, x: Id, spec: MonitorSpec)
    requires WellFormedKids(k) && AddsPool(k, k1, vs, name, id) && IsNew(k1, x)
    requires m == k1.(monitors := k1.monitors[x := MonitorRec(id, spec)], issued := k1.issued + {x})
    ensures AddsPool(k, m, vs, name, id)
  {
    assert x !in k.issued && x !in k1.monitors;
    assert WellFormedKids(m);
  }

  lemma AddedPoolIsThere(k: Kids, m: Kids, vs: Id, name: string, id: Id)
    requires AddsPool(k, m, vs, name, id)
    ensures WellFormedKids(m) && PoolAt(m, vs, id) && m.pools[id].name == name
  {
  }

  // ----- Lists and indexes of resources -----

  predicate NoRepeats(ids: seq<Id>) {
    forall i, j | 0 <= i < |ids| && 0 <= j < |ids| && ids[i] == ids[j] :: i == j
  }

  function IDs<S>(list: seq<Info<S>>): set<Id> {
    set j | 0 <= j < |list| :: list[j].id
  }

  lemma IDsGrow<S>(list: seq<Info<S>>, m: Info<S>)
    ensures IDs(list + [m]) == IDs(list) + {m.id}
  {
    var more := list + [m];
    assert more[|list|] == m;
    forall id | id in IDs(list) ensures id in IDs(more) {
      var j :| 0 <= j < |list| && list[j].id == id;
      assert more[j].id == id;
    }
  }

  /** The resources indexed under the given keys. */
  function Indexed<S>(byKey: map<string, Info<S>>, keys: set<string>): set<Id> {
    set key | key in keys && key in byKey :: byKey[key].id
  }

  ghost predicate Injective<S>(byKey: map<string, Info<S>>) {
    forall a, b | a in byKey && b in byKey && byKey[a].id == byKey[b].id :: a == b
  }

  lemma IndexedGrows<S>(byKey: map<string, Info<S>>, keys: set<string>, key: string)
    requires key in byKey && key !in keys && Injective(byKey)
    ensures Indexed(byKey, keys + {key}) == Indexed(byKey, keys) + {byKey[key].id} && byKey[key].id !in Indexed(byKey, keys)
  {
    forall id | id in Indexed(byKey, keys) + {byKey[key].id} ensures id in Indexed(byKey, keys + {key}) {
      if id in Indexed(byKey, keys) {
        var k :| k in keys && k in byKey && byKey[k].id == id;
      }
    }
  }

  function SetOf(ids: seq<Id>): set<Id> {
    set id | id in ids
  }

  lemma IndexedIsIn<S>(byKey: map<string, Info<S>>, key: string)
    requires key in byKey
    ensures byKey[key].id in Indexed(byKey, byKey.Keys)
  {
  }

  // ----- Deletions -----

  /** Deletions only. */
  predicate Shrinks(a: Kids, b: Kids) {
    && b.pools.Keys <= a.pools.Keys && b.members.Keys <= a.members.Keys
    && b.monitors.Keys <= a.monitors.Keys && b.rules.Keys <= a.rules.Keys
    && (forall id | id in b.pools :: b.pools[id] == a.pools[id]) && (forall id | id in b.members :: b.members[id] == a.members[id])
    && (forall id | id in b.monitors :: b.monitors[id] == a.monitors[id]) && (forall id | id in b.rules :: b.rules[id] == a.rules[id])
    && b.defaults == a.defaults && b.issued == a.issued
  }

  lemma ShrinksChains(a: Kids, b: Kids, c: Kids)
    requires Shrinks(a, b) && Shrinks(b, c)
    ensures Shrinks(a, c)
  {
  }

  lemma ShrinksItself(k: Kids)
    ensures Shrinks(k, k)
  {
  }

  lemma Removed(a: Kids, b: Kids, parent: Id, id: Id)
    requires || b == a || b == a.(rules := a.rules - {id}) || b == a.(members := a.members - {id})
             || b == a.(monitors := a.monitors - {id}) || b == WithoutPool(a, id)
    ensures Shrinks(a, b)
  {
  }
}
