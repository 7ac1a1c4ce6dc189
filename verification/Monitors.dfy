/** MonitorManager (pkg/deploy/lbaas/monitor_manager.go): a pool has at most one monitor. */
module Monitors {
  import opened Common
  import opened Model
  import opened Text
  import opened Children

  type View = map<Id, MonitorSpec>

  function ViewOf(k: Kids, pool: Id): (v: View)
    ensures v.Keys == MonitorsOf(k, pool)
  {
    map id | id in MonitorsOf(k, pool) :: k.monitors[id].spec
  }

  /** The request for a desired monitor; an unnamed one gets the default name. */
  function SpecOf(m: Monitor): MonitorSpec {
    MonitorSpec(if m.name == "" then "default-monitor" else m.name, m.kind, m.path, m.interval)
  }

  /** monitorSpecEqual */
  predicate SpecEqual(observed: MonitorSpec, desired: MonitorSpec) {
    EqualFold(observed.protocol, desired.protocol) && observed.path == desired.path && observed.interval == desired.interval
  }

  predicate Right(observed: MonitorSpec, desired: MonitorSpec) {
    observed.name == desired.name && SpecEqual(observed, desired)
  }

  /** Only monitors of this pool change. */
  ghost predicate OnlyMonitors(k: Kids, m: Kids, pool: Id) {
    && m == k.(monitors := m.monitors, issued := m.issued) && k.issued <= m.issued
    && (forall id | id in m.monitors && id !in k.issued :: m.monitors[id].pool == pool)
    && (forall id | id in k.monitors && k.monitors[id].pool != pool :: id in m.monitors && m.monitors[id] == k.monitors[id])
    && (forall id | id in m.monitors && id in k.issued :: id in k.monitors && m.monitors[id].pool == k.monitors[id].pool)
  }

  lemma OnlyMonitorsChains(a: Kids, b: Kids, c: Kids, pool: Id)
    requires WellFormedKids(a) && WellFormedKids(b) && OnlyMonitors(a, b, pool) && OnlyMonitors(b, c, pool)
    ensures OnlyMonitors(a, c, pool)
  {
  }

  lemma NothingChanged(k: Kids, pool: Id)
    requires WellFormedKids(k)
    ensures OnlyMonitors(k, k, pool)
  {
  }

  lemma StoreMonitor(k: Kids, m: Kids, pool: Id, id: Id, spec: MonitorSpec)
    requires WellFormedKids(k) && pool in k.pools && (id in MonitorsOf(k, pool) || IsNew(k, id))
    requires m == k.(monitors := k.monitors[id := MonitorRec(pool, spec)], issued := k.issued + {id})
    ensures WellFormedKids(m) && OnlyMonitors(k, m, pool) && ViewOf(m, pool) == ViewOf(k, pool)[id := spec]
  {
    assert MonitorsOf(m, pool) == MonitorsOf(k, pool) + {id};
  }

  lemma RemoveMonitor(k: Kids, m: Kids, pool: Id, id: Id)
    requires WellFormedKids(k) && id in MonitorsOf(k, pool) && m == k.(monitors := k.monitors - {id})
    ensures WellFormedKids(m) && OnlyMonitors(k, m, pool) && ViewOf(m, pool) == ViewOf(k, pool) - {id}
  {
  }

  method Remove(c: ChildClient, vs: Id, pool: Id, id: Id, ghost k0: Kids) returns (r: Result<(), Failure>)
    requires c.Valid() && PoolAt(c.kids, vs, pool) && id in ViewOf(c.kids, pool)
    requires WellFormedKids(k0) && OnlyMonitors(k0, c.kids, pool)
    modifies c
    ensures c.Valid() && PoolAt(c.kids, vs, pool) && OnlyMonitors(k0, c.kids, pool) && c.faults <= old(c.faults)
    ensures c.calls == old(c.calls) + [DeleteMonitor(pool, id)]
    ensures r.Ok? ==> ViewOf(c.kids, pool) == ViewOf(old(c.kids), pool) - {id}
    ensures r.Err? ==> c.faults < old(c.faults)
  {
    hide ViewOf, OnlyMonitors, WellFormedKids;
    ghost var k := c.kids;
    r := c.DeletePoolMonitor(vs, pool, id);
    if c.kids != k {
      RemoveMonitor(k, c.kids, pool, id);
      OnlyMonitorsChains(k0, k, c.kids, pool);
    }
  }

  lemma InView(k: Kids, pool: Id, id: Id)
    requires WellFormedKids(k) && id in ViewOf(k, pool)
    ensures id in MonitorsOf(k, pool) && k.issued + {id} == k.issued
  {
  }

  lemma SameMonitor(k: Kids, pool: Id, id: Id, spec: MonitorSpec)
    requires id in k.monitors && k.monitors[id] == MonitorRec(pool, spec)
    ensures ViewOf(k, pool)[id := spec] == ViewOf(k, pool)
  {
  }

  method Update(c: ChildClient, vs: Id, pool: Id, id: Id, spec: MonitorSpec, ghost k0: Kids) returns (r: Result<MonitorInfo, Failure>)
    requires c.Valid() && PoolAt(c.kids, vs, pool) && id in ViewOf(c.kids, pool)
    requires WellFormedKids(k0) && OnlyMonitors(k0, c.kids, pool)
    modifies c
    ensures c.Valid() && PoolAt(c.kids, vs, pool) && OnlyMonitors(k0, c.kids, pool) && c.faults <= old(c.faults)
    ensures c.calls == old(c.calls) + [UpdateMonitor(pool, id, spec)]
    ensures r.Ok? ==> r.value == Info(id, spec) && ViewOf(c.kids, pool) == ViewOf(old(c.kids), pool)[id := spec]
    ensures r.Err? ==> c.faults < old(c.faults)
  {
    hide ViewOf, OnlyMonitors, WellFormedKids;
    ghost var k := c.kids;
    InView(k, pool, id);
    r := c.UpdatePoolMonitor(vs, pool, id, spec);
    if c.kids != k {
      StoreMonitor(k, c.kids, pool, id, spec);
      OnlyMonitorsChains(k0, k, c.kids, pool);
    } else if r.Ok? {
      SameMonitor(k, pool, id, spec);
    }
  }

  method Create(c: ChildClient, vs: Id, pool: Id, spec: MonitorSpec, ghost k0: Kids) returns (r: Result<MonitorInfo, Failure>)
    requires c.Valid() && PoolAt(c.kids, vs, pool) && WellFormedKids(k0) && OnlyMonitors(k0, c.kids, pool)
    modifies c
    ensures c.Valid() && OnlyMonitors(k0, c.kids, pool) && c.faults <= old(c.faults)
    ensures c.calls == old(c.calls) + [CreateMonitor(pool, spec)]
    ensures r.Ok? ==> r.value.spec == spec && r.value.id !in k0.issued && r.value.id != NO_ID
                      && ViewOf(c.kids, pool) == ViewOf(old(c.kids), pool)[r.value.id := spec]
    ensures r.Err? ==> c.faults < old(c.faults)
  {
    hide ViewOf, OnlyMonitors, WellFormedKids;
    ghost var k := c.kids;
    IssuedGrows(k0, k, pool);
    r := c.CreatePoolMonitor(vs, pool, spec);
    if c.kids != k {
      ghost var id := if r.Ok? then r.value.id else NewMonitor(k, c.kids, pool, spec);
      StoreMonitor(k, c.kids, pool, id, spec);
      OnlyMonitorsChains(k0, k, c.kids, pool);
    }
  }

  lemma IssuedGrows(k0: Kids, k: Kids, pool: Id)
    requires OnlyMonitors(k0, k, pool)
    ensures k0.issued <= k.issued && k.pools == k0.pools && k.members == k0.members && k.rules == k0.rules && k.defaults == k0.defaults
  {
  }

  ghost function NewMonitor(k: Kids, m: Kids, pool: Id, spec: MonitorSpec): Id
    requires exists id :: IsNew(k, id) && m == k.(monitors := k.monitors[id := MonitorRec(pool, spec)], issued := k.issued + {id})
  {
    var id :| IsNew(k, id) && m == k.(monitors := k.monitors[id := MonitorRec(pool, spec)], issued := k.issued + {id});
    id
  }

  // ----- MonitorManager.Ensure -----

  /** `kept` is the first listed monitor of the wanted name. */
  predicate IsFirstNamed(list: seq<MonitorInfo>, n: nat, name: string, id: Id)
    requires n <= |list|
  {
    exists f :: 0 <= f < n && list[f].id == id && list[f].spec.name == name && forall j | 0 <= j < f :: list[j].spec.name != name
  }

  predicate NoneNamed(list: seq<MonitorInfo>, n: nat, name: string)
    requires n <= |list|
  {
    forall j | 0 <= j < n :: list[j].spec.name != name
  }

  /** After the first n listed monitors: the rest is untouched, and of these n only the kept one is left. */
  ghost predicate Sifted(v: View, list: seq<MonitorInfo>, n: nat, spec: MonitorSpec, kept: Option<MonitorInfo>)
    requires n <= |list|
  {
    && v.Keys == IDs(list[n..]) + (if kept.Some? then {kept.value.id} else {})
    && (forall j | n <= j < |list| :: list[j].id in v && v[list[j].id] == list[j].spec && (kept.Some? ==> list[j].id != kept.value.id))
    && match kept
       case None => NoneNamed(list, n, spec.name)
       case Some(m) => m.id in v && v[m.id] == m.spec && Right(m.spec, spec) && IsFirstNamed(list, n, spec.name, m.id)
  }

  ghost predicate ListsView(v: View, list: seq<MonitorInfo>) {
    && v.Keys == IDs(list)
    && (forall i | 0 <= i < |list| :: list[i].id in v && v[list[i].id] == list[i].spec)
    && (forall i, j | 0 <= i < |list| && 0 <= j < |list| && list[i].id == list[j].id :: i == j)
  }

  lemma ListIsView(k: Kids, pool: Id, list: seq<MonitorInfo>)
    requires ListsMonitors(k, pool, list)
    ensures ListsView(ViewOf(k, pool), list)
  {
    forall id | id in MonitorsOf(k, pool) ensures id in IDs(list) {
      var i :| 0 <= i < |list| && list[i].id == id;
    }
  }

  lemma RestOfList(list: seq<MonitorInfo>, n: nat)
    requires n < |list|
    ensures IDs(list[n..]) == IDs(list[n + 1..]) + {list[n].id}
  {
    assert list[n..] == [list[n]] + list[n + 1..];
    forall id | id in IDs(list[n + 1..]) ensures id in IDs(list[n..]) {
      var j :| 0 <= j < |list[n + 1..]| && list[n + 1..][j].id == id;
      assert list[n..][j + 1].id == id;
    }
    assert list[n..][0].id == list[n].id;
  }

  lemma SiftDrop(v: View, list: seq<MonitorInfo>, n: nat, spec: MonitorSpec, kept: Option<MonitorInfo>)
    requires n < |list| && ListsViewIds(list) && Sifted(v, list, n, spec, kept)
    requires list[n].spec.name != spec.name || kept.Some?
    ensures Sifted(v - {list[n].id}, list, n + 1, spec, kept)
  {
    hide SpecEqual, IDs;
    RestOfList(list, n);
    LaterAreOthers(list, n);
    if kept.Some? {
      FirstStaysFirst(list, n, spec.name, kept.value.id);
    }
  }

  ghost predicate ListsViewIds(list: seq<MonitorInfo>) {
    forall i, j | 0 <= i < |list| && 0 <= j < |list| && list[i].id == list[j].id :: i == j
  }

  lemma LaterAreOthers(list: seq<MonitorInfo>, n: nat)
    requires n < |list| && ListsViewIds(list)
    ensures list[n].id !in IDs(list[n + 1..]) && forall j | n < j < |list| :: list[j].id != list[n].id
  {
  }

  lemma FirstStaysFirst(list: seq<MonitorInfo>, n: nat, name: string, id: Id)
    requires n < |list| && IsFirstNamed(list, n, name, id)
    ensures IsFirstNamed(list, n + 1, name, id)
  {
  }

  lemma SiftKeep(v: View, list: seq<MonitorInfo>, n: nat, spec: MonitorSpec, m: MonitorInfo)
    requires n < |list| && ListsViewIds(list) && Sifted(v, list, n, spec, None)
    requires list[n].spec.name == spec.name && m.id == list[n].id && Right(m.spec, spec)
    ensures Sifted(v[m.id := m.spec], list, n + 1, spec, Some(m))
  {
    hide SpecEqual, IDs;
    RestOfList(list, n);
    LaterAreOthers(list, n);
    assert IsFirstNamed(list, n + 1, spec.name, m.id);
  }

  /** Exactly one monitor, as desired, or none. */
  ghost predicate Ends(v: View, desired: Option<Monitor>, m: MonitorInfo) {
    match desired
    case None => v.Keys == {} && m.id == NO_ID
    case Some(d) => v.Keys == {m.id} && v[m.id] == m.spec && Right(m.spec, SpecOf(d)) && m.id != NO_ID
  }

  const NO_MONITOR: MonitorInfo := Info(NO_ID, MonitorSpec("", "", "", 0))

  /** The first listed monitor of the wanted name is reused; without one, a new one is made. */
  ghost predicate Reuses(list: seq<MonitorInfo>, name: string, id: Id, issued: set<Id>) {
    if NoneNamed(list, |list|, name) then id !in issued else IsFirstNamed(list, |list|, name, id)
  }

  /** The case without a desired monitor. */
  method Clear(c: ChildClient, vs: Id, pool: Id, monitors: seq<MonitorInfo>)
    returns (changed: bool, err: Option<Problem>)
    requires c.Valid() && PoolAt(c.kids, vs, pool) && ListsView(ViewOf(c.kids, pool), monitors)
    modifies c
    ensures c.Valid() && c.faults <= old(c.faults) && OnlyMonitors(old(c.kids), c.kids, pool)
    ensures err.None? ==> ViewOf(c.kids, pool).Keys == {}
    ensures err.None? ==> (changed <==> c.calls != old(c.calls))
    ensures old(c.calls) <= c.calls
    ensures monitors == [] ==> c.calls == old(c.calls) && c.kids == old(c.kids) && !changed && err.None?
    ensures err.None? ==> (changed <==> monitors != [])
    ensures err.Some? ==> c.faults < old(c.faults)
  {
    hide ViewOf, OnlyMonitors, WellFormedKids, IDs;
    ghost var k0, calls0 := c.kids, c.calls;
    NothingChanged(k0, pool);
    changed, err := false, None;
    assert monitors[0..] == monitors;
    for i := 0 to |monitors|
      invariant c.Valid() && c.faults <= old(c.faults) && PoolAt(c.kids, vs, pool) && OnlyMonitors(k0, c.kids, pool)
      invariant ViewOf(c.kids, pool).Keys == IDs(monitors[i..])
      invariant calls0 <= c.calls && |c.calls| == |calls0| + i && (changed <==> i > 0) && (i == 0 ==> c.calls == calls0 && c.kids == k0)
    {
      RestOfList(monitors, i);
      LaterAreOthers(monitors, i);
      var r := Remove(c, vs, pool, monitors[i].id, k0);
      if r.Err? {
        return changed, Some(CallFailed(r.error));
      }
      changed := true;
    }
    NothingLeft(monitors);
  }

  lemma NothingLeft(list: seq<MonitorInfo>)
    ensures IDs(list[|list|..]) == {} && list[|list|..] == []
  {
  }

  /** The loop with a desired monitor. */
  method Sift(c: ChildClient, vs: Id, pool: Id, monitors: seq<MonitorInfo>, spec: MonitorSpec)
    returns (kept: Option<MonitorInfo>, changed: bool, err: Option<Problem>)
    requires c.Valid() && PoolAt(c.kids, vs, pool) && ListsView(ViewOf(c.kids, pool), monitors)
    modifies c
    ensures c.Valid() && c.faults <= old(c.faults) && PoolAt(c.kids, vs, pool) && OnlyMonitors(old(c.kids), c.kids, pool)
    ensures err.None? ==> Sifted(ViewOf(c.kids, pool), monitors, |monitors|, spec, kept) && (changed <==> c.calls != old(c.calls))
    ensures old(c.calls) <= c.calls
    ensures |monitors| == 1 && Right(monitors[0].spec, spec) ==>
              c.calls == old(c.calls) && c.kids == old(c.kids) && err.None? && kept == Some(monitors[0])
    ensures err.Some? ==> c.faults < old(c.faults)
  {
    hide ViewOf, OnlyMonitors, WellFormedKids, IDs, Sifted, SpecEqual;
    ghost var k0, calls0 := c.kids, c.calls;
    NothingChanged(k0, pool);
    kept, changed, err := None, false, None;
    SiftStarts(ViewOf(k0, pool), monitors, spec);
    for i := 0 to |monitors|
      invariant c.Valid() && c.faults <= old(c.faults) && PoolAt(c.kids, vs, pool) && OnlyMonitors(k0, c.kids, pool)
      invariant Sifted(ViewOf(c.kids, pool), monitors, i, spec, kept)
      invariant calls0 <= c.calls && (changed <==> c.calls != calls0) && (i == 0 ==> c.calls == calls0 && c.kids == k0 && kept == None)
      invariant changed ==> |calls0| < |c.calls|
      invariant i == 1 && Right(monitors[0].spec, spec) ==> c.calls == calls0 && c.kids == k0 && kept == Some(monitors[0])
    {
      var monitor := monitors[i];
      ghost var v := ViewOf(c.kids, pool);
      NextIsThere(v, monitors, i, spec, kept);
      if monitor.spec.name != spec.name || kept.Some? {
        var r := Remove(c, vs, pool, monitor.id, k0);
        if r.Err? {
          return kept, changed, Some(CallFailed(r.error));
        }
        SiftDrop(v, monitors, i, spec, kept);
        changed := true;
        continue;
      }
      if SpecEqual(monitor.spec, spec) {
        SiftKeep(v, monitors, i, spec, monitor);
        assert v[monitor.id := monitor.spec] == v;
        kept := Some(monitor);
        continue;
      }
      var r := Update(c, vs, pool, monitor.id, spec, k0);
      if r.Err? {
        return Some(monitor), changed, Some(CallFailed(r.error));
      }
      SpecIsRight(spec);
      SiftKeep(v, monitors, i, spec, r.value);
      kept := Some(r.value);
      changed := true;
    }
  }

  lemma SpecIsRight(spec: MonitorSpec)
    ensures Right(spec, spec)
  {
  }

  lemma SiftStarts(v: View, list: seq<MonitorInfo>, spec: MonitorSpec)
    requires ListsView(v, list)
    ensures Sifted(v, list, 0, spec, None)
  {
    assert list[0..] == list;
  }

  lemma NextIsThere(v: View, list: seq<MonitorInfo>, n: nat, spec: MonitorSpec, kept: Option<MonitorInfo>)
    requires n < |list| && Sifted(v, list, n, spec, kept)
    ensures list[n].id in v && v[list[n].id] == list[n].spec
  {
    hide SpecEqual;
  }

  lemma SiftEnds(v: View, list: seq<MonitorInfo>, spec: MonitorSpec, kept: Option<MonitorInfo>)
    requires Sifted(v, list, |list|, spec, kept)
    ensures kept.Some? ==> v.Keys == {kept.value.id} && v[kept.value.id] == kept.value.spec && Right(kept.value.spec, spec)
                           && IsFirstNamed(list, |list|, spec.name, kept.value.id)
    ensures kept.None? ==> v == map[] && NoneNamed(list, |list|, spec.name)
  {
    hide SpecEqual;
    NothingLeft(list);
  }

  /** With a desired monitor the pool ends up with exactly one, as desired, reusing the first one of its name; without one
      it ends up with none. Nothing outside the pool's monitors changes, and where everything is right already no
      call is made. */
  method Ensure(c: ChildClient, lb: Id, vs: Id, pool: Id, desired: Option<Monitor>)
    returns (m: MonitorInfo, changed: bool, err: Option<Problem>, ghost listed: seq<MonitorInfo>)
    requires c.Valid() && PoolAt(c.kids, vs, pool)
    modifies c
    ensures c.Valid() && c.faults <= old(c.faults) && OnlyMonitors(old(c.kids), c.kids, pool)
    ensures old(c.calls) <= c.calls
    ensures err.None? ==>
              && Ends(ViewOf(c.kids, pool), desired, m) && ListsMonitors(old(c.kids), pool, listed)
              && (desired.Some? ==> Reuses(listed, SpecOf(desired.value).name, m.id, old(c.kids.issued)))
              && (changed <==> c.calls != old(c.calls))
    ensures (exists now :: Ends(ViewOf(old(c.kids), pool), desired, now)) ==>
              c.calls == old(c.calls) && c.kids == old(c.kids) && (err.None? ==> !changed && Ends(ViewOf(c.kids, pool), desired, m))
    ensures err.Some? ==> c.faults < old(c.faults) || lb == NO_ID || vs == NO_ID || pool == NO_ID
  {
    hide ViewOf, OnlyMonitors, WellFormedKids, IDs, Sifted, SpecEqual, ListsMonitors, ListsView, Ends, IsFirstNamed, NoneNamed, SpecOf;
    ghost var k0, calls0 := c.kids, c.calls;
    NothingChanged(k0, pool);
    m, changed, err, listed := NO_MONITOR, false, None, [];
    if lb == NO_ID || vs == NO_ID || pool == NO_ID {
      err := Some(Refused);
      return;
    }
    var got := c.ListMonitors(vs, pool);
    if got.Err? {
      err := Some(CallFailed(got.error));
      return;
    }
    var monitors := got.value;
    listed := monitors;
    ListIsView(k0, pool, monitors);
    if exists now :: Ends(ViewOf(k0, pool), desired, now) {
      RightMeansOne(ViewOf(k0, pool), desired, monitors);
    }
    if desired.None? {
      changed, err := Clear(c, vs, pool, monitors);
      if err.None? {
        ClearedEnds(ViewOf(c.kids, pool), NO_MONITOR);
        NoneListed(monitors);
      }
      return;
    }
    var spec := SpecOf(desired.value);
    var kept, sifted, failure := Sift(c, vs, pool, monitors, spec);
    changed, err := sifted, failure;
    if err.Some? {
      m := if kept.Some? then kept.value else NO_MONITOR;
      return;
    }
    ghost var v := ViewOf(c.kids, pool);
    SiftEnds(v, monitors, spec, kept);
    if kept.Some? {
      KeptIsReal(c.kids, pool, kept.value.id);
      KeptEnds(v, desired.value, kept.value, monitors, k0.issued);
      m := kept.value;
      return;
    }
    var created := Create(c, vs, pool, spec, k0);
    if created.Err? {
      err := Some(CallFailed(created.error));
      return;
    }
    m, changed := created.value, true;
    SpecIsRight(spec);
    CreatedEnds(v, desired.value, m, monitors, k0.issued);
  }

  lemma KeptIsReal(k: Kids, pool: Id, id: Id)
    requires WellFormedKids(k) && id in ViewOf(k, pool)
    ensures id != NO_ID
  {
  }

  lemma ClearedEnds(v: View, m: MonitorInfo)
    requires v.Keys == {} && m.id == NO_ID
    ensures Ends(v, None, m)
  {
  }

  lemma NoneListed(list: seq<MonitorInfo>)
    ensures list == [] <==> IDs(list) == {}
  {
    if list != [] {
      assert list[0].id in IDs(list);
    }
  }

  lemma KeptEnds(v: View, d: Monitor, m: MonitorInfo, list: seq<MonitorInfo>, issued: set<Id>)
    requires v.Keys == {m.id} && v[m.id] == m.spec && Right(m.spec, SpecOf(d)) && m.id != NO_ID
    requires IsFirstNamed(list, |list|, SpecOf(d).name, m.id)
    ensures Ends(v, Some(d), m) && Reuses(list, SpecOf(d).name, m.id, issued)
  {
    hide SpecEqual;
  }

  lemma CreatedEnds(v: View, d: Monitor, m: MonitorInfo, list: seq<MonitorInfo>, issued: set<Id>)
    requires v == map[] && Right(m.spec, SpecOf(d)) && m.id != NO_ID && m.id !in issued && NoneNamed(list, |list|, SpecOf(d).name)
    ensures Ends(v[m.id := m.spec], Some(d), m) && Reuses(list, SpecOf(d).name, m.id, issued)
  {
    hide SpecEqual;
  }

  lemma RightMeansOne(v: View, desired: Option<Monitor>, list: seq<MonitorInfo>)
    requires ListsView(v, list) && exists now :: Ends(v, desired, now)
    ensures desired.None? ==> list == []
    ensures desired.Some? ==> |list| == 1 && Right(list[0].spec, SpecOf(desired.value))
  {
    hide SpecEqual;
    var now :| Ends(v, desired, now);
    NoneListed(list);
    if desired.Some? {
      var j := if |list| > 1 then 1 else 0;
      assert list[0].id in v && list[j].id in v;
    }
  }

  /** Cleanup */
  method Cleanup(c: ChildClient, lb: Id, vs: Id, pool: Id, id: Id) returns (r: Result<(), Failure>)
    requires c.Valid()
    modifies c
    ensures c.Valid() && c.faults <= old(c.faults)
    ensures c.kids == old(c.kids)
            || (id in MonitorsOf(old(c.kids), pool) && c.kids == old(c.kids).(monitors := old(c.kids.monitors) - {id}))
    ensures if lb == NO_ID || vs == NO_ID || pool == NO_ID || id == NO_ID then r.Ok? && c.calls == old(c.calls) && c.kids == old(c.kids)
            else c.calls == old(c.calls) + [DeleteMonitor(pool, id)]
                 && (r.Ok? || r.error == NotFound ==> PoolAt(c.kids, vs, pool) ==> id !in MonitorsOf(c.kids, pool))
                 && (r.Err? ==> c.faults < old(c.faults) || !PoolAt(c.kids, vs, pool) || id !in MonitorsOf(old(c.kids), pool))
                 && (r == Err(Failed) ==> c.faults < old(c.faults))
  {
    if lb == NO_ID || vs == NO_ID || pool == NO_ID || id == NO_ID {
      return Ok(());
    }
    r := c.DeletePoolMonitor(vs, pool, id);
  }
}
