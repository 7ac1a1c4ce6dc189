/** PoolManager (pkg/deploy/lbaas/pool_manager.go): the pools of one listener. */
module Pools {
  import opened Common
  import opened Model
  import opened Text
  import opened Children
  import Members
  import Monitors

  /** Nothing changes but pools in `own`, pools that did not exist before, and the default of this listener. */
  ghost predicate OnlyOwn(k: Kids, m: Kids, vs: Id, own: set<Id>) {
    && k.issued <= m.issued && m.rules == k.rules
    && (forall id | id in k.pools :: id in m.pools && m.pools[id] == k.pools[id])
    && (forall id | id in m.pools && id !in k.pools :: m.pools[id].listener == vs && id !in k.issued)
    && (forall id | id in k.members && k.members[id].pool !in own :: id in m.members && m.members[id] == k.members[id])
    && (forall id | id in m.members && (id !in k.members || k.members[id].pool in own) ::
          m.members[id].pool in own || m.members[id].pool !in k.pools)
    && (forall id | id in k.monitors && k.monitors[id].pool !in own :: id in m.monitors && m.monitors[id] == k.monitors[id])
    && (forall id | id in m.monitors && (id !in k.monitors || k.monitors[id].pool in own) ::
          m.monitors[id].pool in own || m.monitors[id].pool !in k.pools)
    && (forall v | v in m.defaults && v != vs :: v in k.defaults && m.defaults[v] == k.defaults[v])
    && (forall v | v in k.defaults && v != vs :: v in m.defaults)
  }

  lemma NothingChanged(k: Kids, vs: Id, own: set<Id>)
    requires WellFormedKids(k)
    ensures OnlyOwn(k, k, vs, own)
  {
  }

  lemma AddedPoolIsOwn(k: Kids, m: Kids, vs: Id, name: string, id: Id, own: set<Id>)
    requires WellFormedKids(k) && AddsPool(k, m, vs, name, id)
    ensures OnlyOwn(k, m, vs, own) && m.defaults == k.defaults
  {
  }

  lemma MembersAreOwn(k0: Kids, k: Kids, m: Kids, vs: Id, own: set<Id>, pool: Id)
    requires WellFormedKids(k0) && WellFormedKids(k) && OnlyOwn(k0, k, vs, own) && Members.OnlyMembers(k, m, pool)
    requires pool in own || (pool !in k0.pools)
    ensures OnlyOwn(k0, m, vs, own) && m.defaults == k.defaults && m.pools == k.pools && m.monitors == k.monitors
  {
  }

  lemma MonitorsAreOwn(k0: Kids, k: Kids, m: Kids, vs: Id, own: set<Id>, pool: Id)
    requires WellFormedKids(k0) && WellFormedKids(k) && OnlyOwn(k0, k, vs, own) && Monitors.OnlyMonitors(k, m, pool)
    requires pool in own || (pool !in k0.pools)
    ensures OnlyOwn(k0, m, vs, own) && m.defaults == k.defaults && m.pools == k.pools && m.members == k.members
  {
  }

  lemma OnlyOwnChains(a: Kids, b: Kids, c: Kids, vs: Id, own1: set<Id>, own2: set<Id>)
    requires WellFormedKids(a) && WellFormedKids(b) && OnlyOwn(a, b, vs, own1) && OnlyOwn(b, c, vs, own2)
    ensures OnlyOwn(a, c, vs, own1 + own2)
  {
  }

  lemma DefaultIsOwn(k0: Kids, k: Kids, m: Kids, vs: Id, own: set<Id>, pool: Id)
    requires OnlyOwn(k0, k, vs, own) && m == k.(defaults := k.defaults[vs := pool])
    ensures OnlyOwn(k0, m, vs, own)
  {
  }

  predicate SameName(p: PoolInfo, name: string) {
    EqualFold(p.name, name)
  }

  datatype Search = Search(pool: Option<PoolInfo>, collision: bool, ambiguous: bool)

  /** The loop of ensure over the listed pools. By id only the recorded pool is found; by name only without a record, and
      only in the compatibility mode. */
  method Find(existing: seq<PoolInfo>, name: string, observedPoolID: Id, legacyNameAdoption: bool) returns (r: Search)
    requires forall i | 0 <= i < |existing| :: existing[i].id != NO_ID
    requires forall i, j | 0 <= i < |existing| && 0 <= j < |existing| && existing[i].id == existing[j].id :: i == j
    ensures !legacyNameAdoption ==> !r.ambiguous
    ensures !legacyNameAdoption && r.pool.Some? ==> r.pool.value in existing && r.pool.value.id == observedPoolID != NO_ID
    ensures !legacyNameAdoption && r.pool.None? ==>
              && (observedPoolID != NO_ID ==> forall i | 0 <= i < |existing| :: existing[i].id != observedPoolID)
              && (r.collision <==> exists i :: 0 <= i < |existing| && SameName(existing[i], name))
    ensures legacyNameAdoption && observedPoolID == NO_ID && !r.ambiguous ==>
              match r.pool
              case None => !r.collision && forall i | 0 <= i < |existing| :: !SameName(existing[i], name)
              case Some(p) => p in existing && SameName(p, name) && forall i | 0 <= i < |existing| && SameName(existing[i], name) :: existing[i] == p
    ensures r.ambiguous ==> observedPoolID == NO_ID ==>
              exists i, j :: 0 <= i < j < |existing| && SameName(existing[i], name) && SameName(existing[j], name)
  {
    hide SameName;
    r := Search(None, false, false);
    for i := 0 to |existing|
      invariant !r.ambiguous
      invariant r.pool.Some? ==> r.pool.value in existing[..i]
      invariant !legacyNameAdoption && r.pool.Some? ==> r.pool.value.id == observedPoolID != NO_ID
      invariant !legacyNameAdoption && r.pool.None? && observedPoolID != NO_ID ==> forall j | 0 <= j < i :: existing[j].id != observedPoolID
      invariant !legacyNameAdoption && r.pool.None? ==> (r.collision <==> exists j :: 0 <= j < i && SameName(existing[j], name))
      invariant legacyNameAdoption && observedPoolID == NO_ID ==>
          match r.pool
          case None => !r.collision && forall j | 0 <= j < i :: !SameName(existing[j], name)
          case Some(p) => SameName(p, name) && forall j | 0 <= j < i && SameName(existing[j], name) :: existing[j] == p
    {
      var candidate := existing[i];
      if observedPoolID != NO_ID && candidate.id == observedPoolID {
        r := r.(pool := Some(candidate));
        continue;
      }
      if SameName(candidate, name) {
        r := r.(collision := true);
        if !legacyNameAdoption {
          continue;
        }
        if r.pool.Some? {
          if observedPoolID == NO_ID {
            TwoNamed(existing, name, r.pool.value, i);
          }
          return r.(ambiguous := true);
        }
        r := r.(pool := Some(candidate));
      }
    }
    assert existing[..|existing|] == existing;
  }

  lemma TwoNamed(existing: seq<PoolInfo>, name: string, p: PoolInfo, i: nat)
    requires i < |existing| && p in existing[..i] && SameName(p, name) && SameName(existing[i], name)
    ensures exists a, b :: 0 <= a < b < |existing| && SameName(existing[a], name) && SameName(existing[b], name)
  {
    hide SameName;
    var a :| 0 <= a < i && existing[a] == p;
    assert SameName(existing[a], name) && SameName(existing[i], name);
  }

  // ----- PoolManager.ensure -----

  /** A pool of the listener has the name, up to case. */
  predicate NameTaken(k: Kids, vs: Id, name: string) {
    exists id | id in PoolsOf(k, vs) :: EqualFold(k.pools[id].name, name)
  }

  predicate IsDefault(k: Kids, vs: Id, pool: Id) {
    vs in k.defaults && k.defaults[vs] == pool
  }

  function MonitorSpecOf(m: Option<Monitor>): Option<MonitorSpec> {
    match m
    case None => None
    case Some(d) => Some(MonitorSpec(d.name, d.kind, d.path, d.interval))
  }

  /** Which pools a run may touch. */
  function OwnPools(k: Kids, vs: Id, observedPoolID: Id, legacyNameAdoption: bool): set<Id> {
    if legacyNameAdoption then PoolsOf(k, vs) else {observedPoolID} * PoolsOf(k, vs)
  }

  /** By record only: the recorded pool if it is still there, else a new one, and then no pool of that name existed. */
  ghost predicate Chosen(k: Kids, vs: Id, name: string, observedPoolID: Id, id: Id) {
    if observedPoolID != NO_ID && observedPoolID in PoolsOf(k, vs) then id == observedPoolID
    else id !in k.issued && !NameTaken(k, vs, name)
  }

  lemma ListedAreReal(k: Kids, vs: Id, list: seq<PoolInfo>)
    requires WellFormedKids(k) && ListsPools(k, vs, list)
    ensures forall i | 0 <= i < |list| :: list[i].id != NO_ID && list[i].id in PoolsOf(k, vs)
    ensures forall i, j | 0 <= i < |list| && 0 <= j < |list| && list[i].id == list[j].id :: i == j
  {
    hide ListsMembers;
  }

  lemma NotListedIsAbsent(k: Kids, vs: Id, list: seq<PoolInfo>, observedPoolID: Id, name: string)
    requires ListsPools(k, vs, list)
    ensures (forall i | 0 <= i < |list| :: list[i].id != observedPoolID) ==> observedPoolID !in PoolsOf(k, vs)
    ensures (exists i :: 0 <= i < |list| && SameName(list[i], name)) <==> NameTaken(k, vs, name)
  {
    hide ListsMembers, EqualFold;
    if NameTaken(k, vs, name) {
      var id :| id in PoolsOf(k, vs) && EqualFold(k.pools[id].name, name);
      var i :| 0 <= i < |list| && list[i].id == id;
      assert TellsPool(k, vs, list[i]);
      assert SameName(list[i], name);
    }
    forall i | 0 <= i < |list| && SameName(list[i], name) ensures NameTaken(k, vs, name) {
      assert TellsPool(k, vs, list[i]);
      assert list[i].id in PoolsOf(k, vs);
    }
  }

  /** The first half of ensure: the pool to work on, found or created. */
  method Acquire(c: ChildClient, vs: Id, desired: Pool, members: seq<MemberSpec>, observedPoolID: Id, legacyNameAdoption: bool)
    returns (r: Result<PoolInfo, Problem>, changed: bool)
    requires c.Valid() && Members.DistinctSpecs(members) && (legacyNameAdoption ==> observedPoolID == NO_ID)
    requires forall p | p in PoolsOf(c.kids, vs) :: Members.DistinctIn(c.kids, p)
    modifies c
    ensures c.Valid() && c.faults <= old(c.faults)
    ensures OnlyOwn(old(c.kids), c.kids, vs, OwnPools(old(c.kids), vs, observedPoolID, legacyNameAdoption))
    ensures changed <==> c.calls == old(c.calls) + [CreatePool(vs, desired.name)] && r.Ok?
    ensures r.Ok? && !changed ==> c.calls == old(c.calls) && c.kids == old(c.kids)
    ensures r.Ok? ==>
              && TellsPool(c.kids, vs, r.value) && Members.DistinctIn(c.kids, r.value.id) && r.value.id != NO_ID
              && (r.value.id !in old(c.kids).pools ==> r.value.name == desired.name)
              && c.kids.defaults == old(c.kids).defaults && c.kids.pools.Keys == old(c.kids).pools.Keys + {r.value.id}
              && (r.value.id in OwnPools(old(c.kids), vs, observedPoolID, legacyNameAdoption) || r.value.id !in old(c.kids).pools)
              && (!legacyNameAdoption ==> Chosen(old(c.kids), vs, desired.name, observedPoolID, r.value.id))
              && (!legacyNameAdoption && observedPoolID != NO_ID && observedPoolID in PoolsOf(old(c.kids), vs) ==> !changed)
    ensures !legacyNameAdoption && observedPoolID != NO_ID && observedPoolID in PoolsOf(old(c.kids), vs) ==>
              c.kids == old(c.kids) && c.calls == old(c.calls) && (r.Err? ==> c.faults < old(c.faults))
    ensures r.Err? ==> c.faults < old(c.faults) || (r.error == Refused && (legacyNameAdoption || NameTaken(old(c.kids), vs, desired.name)))
  {
    hide OnlyOwn, WellFormedKids, ListsMembers, Members.DistinctIn, Members.DistinctSpecs, EqualFold, SameName, AddsPool, ListsPools,
      TellsPool, NameTaken;
    ghost var k0 := c.kids;
    ghost var own := OwnPools(k0, vs, observedPoolID, legacyNameAdoption);
    NothingChanged(k0, vs, own);
    changed := false;
    var existing := c.ListPools(vs);
    if existing.Err? {
      return Err(CallFailed(existing.error)), changed;
    }
    ListedAreReal(k0, vs, existing.value);
    NotListedIsAbsent(k0, vs, existing.value, observedPoolID, desired.name);
    var found := Find(existing.value, desired.name, observedPoolID, legacyNameAdoption);
    if found.ambiguous {
      return Err(Refused), changed;
    }
    if found.pool.Some? {
      ListTells(k0, vs, existing.value, found.pool.value);
      return Ok(found.pool.value), changed;
    }
    if found.collision && !legacyNameAdoption {
      return Err(Refused), changed;
    }
    var made := c.CreateVSPool(vs, desired.name, MonitorSpecOf(desired.monitor), members);
    if made.Err? {
      if c.kids != k0 {
        ghost var id :| AddsPool(k0, c.kids, vs, desired.name, id);
        AddedPoolIsOwn(k0, c.kids, vs, desired.name, id, own);
      }
      return Err(CallFailed(made.error)), changed;
    }
    AddedPoolIsOwn(k0, c.kids, vs, desired.name, made.value.id, own);
    AddedIdIsNew(k0, c.kids, vs, desired.name, made.value.id);
    InstalledAreDistinct(c.kids, vs, made.value, members);
    changed := true;
    return Ok(made.value), changed;
  }

  lemma ListTells(k: Kids, vs: Id, list: seq<PoolInfo>, p: PoolInfo)
    requires ListsPools(k, vs, list) && p in list
    ensures TellsPool(k, vs, p) && p.id in k.pools && k.pools.Keys + {p.id} == k.pools.Keys
  {
  }

  lemma AddedIdIsNew(k: Kids, m: Kids, vs: Id, name: string, id: Id)
    requires WellFormedKids(k) && AddsPool(k, m, vs, name, id)
    ensures id !in k.issued && id !in k.pools && id != NO_ID && m.pools.Keys == k.pools.Keys + {id} && m.pools[id].name == name
  {
  }

  lemma InstalledAreDistinct(k: Kids, vs: Id, p: PoolInfo, members: seq<MemberSpec>)
    requires TellsPool(k, vs, p) && Members.DistinctSpecs(members)
    requires p.members == [] || |p.members| == |members|
    requires forall i | 0 <= i < |p.members| :: p.members[i].spec == Stored(members[i])
    ensures Members.DistinctIn(k, p.id) && p.id in k.pools && p.name == k.pools[p.id].name
  {
    forall i | 0 <= i < |p.members| ensures Members.KeyOf(p.members[i].spec) == Members.KeyOf(members[i]) {
      Members.StoredMatches(members[i]);
    }
    hide Members.KeyOf, Stored;
    forall a, b | a in MembersOf(k, p.id) && b in MembersOf(k, p.id)
                  && Members.KeyOf(k.members[a].spec) == Members.KeyOf(k.members[b].spec)
      ensures a == b
    {
      var i :| 0 <= i < |p.members| && p.members[i].id == a;
      var j :| 0 <= j < |p.members| && p.members[j].id == b;
      assert Members.KeyOf(members[i]) == Members.KeyOf(members[j]);
    }
  }

  /** Everything about the pool is as desired. */
  ghost predicate Settled(k: Kids, vs: Id, pool: Id, members: seq<MemberSpec>, setDefault: bool) {
    && pool in PoolsOf(k, vs) && Members.Rests(Members.View(k, pool), members)
    && (setDefault ==> IsDefault(k, vs, pool))
  }

  method Ensure(c: ChildClient, lb: Id, vs: Id, desired: Pool, members: seq<MemberSpec>, setDefault: bool, observedPoolID: Id,
                legacyNameAdoption: bool)
    returns (pool: PoolInfo, changed: bool, err: Option<Problem>)
    requires c.Valid() && Members.DistinctSpecs(members) && (legacyNameAdoption ==> observedPoolID == NO_ID)
    requires forall p | p in PoolsOf(c.kids, vs) :: Members.DistinctIn(c.kids, p)
    modifies c
    ensures c.Valid() && c.faults <= old(c.faults)
    ensures OnlyOwn(old(c.kids), c.kids, vs, OwnPools(old(c.kids), vs, observedPoolID, legacyNameAdoption))
    ensures err.None? ==>
              && pool.id in PoolsOf(c.kids, vs) && pool.id != NO_ID && pool.name == c.kids.pools[pool.id].name
              && (pool.id !in old(c.kids).pools ==> pool.name == desired.name)
              && Members.Converged(Members.View(c.kids, pool.id), members, pool.members)
              && (if setDefault then IsDefault(c.kids, vs, pool.id) else c.kids.defaults == old(c.kids).defaults)
              && (!legacyNameAdoption ==> Chosen(old(c.kids), vs, desired.name, observedPoolID, pool.id))
              && c.kids.pools.Keys == old(c.kids).pools.Keys + {pool.id}
              && (changed <==> c.calls != old(c.calls)) && old(c.calls) <= c.calls && desired.name != ""
    ensures !legacyNameAdoption && observedPoolID != NO_ID && Settled(old(c.kids), vs, observedPoolID, members, setDefault) ==>
              && c.calls == old(c.calls) && c.kids == old(c.kids)
              && (err.Some? ==> c.faults < old(c.faults) || lb == NO_ID || vs == NO_ID || desired.name == "")
    ensures err.Some? ==>
              || c.faults < old(c.faults) || lb == NO_ID || vs == NO_ID || desired.name == "" || legacyNameAdoption
              || NameTaken(old(c.kids), vs, desired.name) || Members.Lacking(members)
  {
    hide OnlyOwn, WellFormedKids, ListsMembers, Members.DistinctIn, Members.DistinctSpecs, EqualFold, NameTaken, Members.Converged,
      Members.View, Members.Minimal, Members.OnlyMembers, Members.DesiredSpared, Members.Lacking, Members.Holds, Members.Barless,
      Members.SameBackend, Members.Rests;
    ghost var k0, calls0 := c.kids, c.calls;
    ghost var own := OwnPools(k0, vs, observedPoolID, legacyNameAdoption);
    NothingChanged(k0, vs, own);
    pool, changed := PoolInfo(NO_ID, "", false, []), false;
    if lb == NO_ID || vs == NO_ID || desired.name == "" {
      err := Some(Refused);
      return;
    }
    var acquired, created := Acquire(c, vs, desired, members, observedPoolID, legacyNameAdoption);
    if acquired.Err? {
      err := Some(acquired.error);
      return;
    }
    pool, changed := acquired.value, created;
    ghost var k1 := c.kids;
    var converged, membersChanged, failure := Members.Ensure(c, lb, vs, pool.id, pool.members, members);
    ghost var k2 := c.kids;
    MembersAreOwn(k0, k1, k2, vs, own, pool.id);
    if failure.Some? {
      err := failure;
      return;
    }
    pool := pool.(members := converged);
    changed := changed || membersChanged;
    if setDefault && !pool.isDefault {
      var r := c.SetDefaultPool(vs, pool.id);
      if c.kids != k2 {
        DefaultIsOwn(k0, k2, c.kids, vs, own, pool.id);
        SameMembersSameView(k2, c.kids, pool.id);
      }
      if r.Err? {
        err := Some(CallFailed(r.error));
        return;
      }
      pool := pool.(isDefault := true);
      changed := true;
    }
    err := None;
  }

  lemma SameMembersSameView(k: Kids, m: Kids, pool: Id)
    requires m.members == k.members
    ensures Members.View(m, pool) == Members.View(k, pool)
  {
  }

  /** Cleanup */
  method Cleanup(c: ChildClient, lb: Id, vs: Id, id: Id) returns (r: Result<(), Failure>)
    requires c.Valid()
    modifies c
    ensures c.Valid() && c.faults <= old(c.faults)
    ensures c.kids == old(c.kids) || (PoolAt(old(c.kids), vs, id) && c.kids == WithoutPool(old(c.kids), id))
    ensures if lb == NO_ID || vs == NO_ID || id == NO_ID then r.Ok? && c.calls == old(c.calls) && c.kids == old(c.kids)
            else c.calls == old(c.calls) + [DeletePool(vs, id)]
                 && (r.Ok? || r.error == NotFound ==> !PoolAt(c.kids, vs, id))
                 && (r.Err? ==> c.faults < old(c.faults) || !PoolAt(old(c.kids), vs, id))
                 && (r == Err(Failed) ==> c.faults < old(c.faults))
  {
    if lb == NO_ID || vs == NO_ID || id == NO_ID {
      return Ok(());
    }
    r := c.DeleteVSPool(vs, id);
  }
}
