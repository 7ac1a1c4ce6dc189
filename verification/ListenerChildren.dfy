/** The part of EnsureStack (pkg/deploy/lbaas/deployer.go) that converges what hangs on one listener, and records it. */
module ListenerChildren {
  import opened Common
  import opened Model
  import opened Text
  import opened GraphKeys
  import opened Children
  import Members
  import Monitors
  import Pools
  import Rules

  // ----- What is recorded -----

  function MemberKey(vs: string, pool: string, m: MemberInfo): string {
    MemberKeyOf(vs, pool, Members.KeyOf(m.spec))
  }

  function MemberEntry(vs: string, pool: Pool, m: MemberInfo): Resource {
    Resource(MemberKey(vs, pool.name, m), m.id, m.spec.resourceIP + ":" + Itoa(m.spec.port), "", "", pool.ownership)
  }

  /** The members of one pool, recorded one by one. */
  function AddMembers(bucket: Bucket, vs: string, pool: Pool, list: seq<MemberInfo>): Bucket {
    if list == [] then bucket
    else
      var m := list[|list| - 1];
      AddMembers(bucket, vs, pool, list[..|list| - 1])[MemberKey(vs, pool.name, m) := MemberEntry(vs, pool, m)]
  }

  /** The bucket without what belongs to a pool. */
  function WithoutPoolKey(bucket: Bucket, poolKey: string): Bucket {
    map key | key in bucket && PoolKey(key) != poolKey :: bucket[key]
  }

  function WithoutVSName(bucket: Bucket, vs: string): Bucket {
    map key | key in bucket && VSName(key) != vs :: bucket[key]
  }

  function PoolEntry(vs: string, pool: Pool, id: Id, name: string): Resource {
    Resource(PoolKeyOf(vs, pool.name), id, name, "", "", pool.ownership)
  }

  function MonitorEntry(vs: string, pool: Pool, m: MonitorInfo): Resource {
    Resource(PoolKeyOf(vs, pool.name), m.id, m.spec.name, "", "", pool.ownership)
  }

  /** The keys of the pools that ask for a monitor. */
  function MonitoredKeys(vs: string, pools: seq<Pool>): set<string> {
    set i | 0 <= i < |pools| && pools[i].monitor.Some? :: PoolKeyOf(vs, pools[i].name)
  }

  /** Monitors are put on record under these keys, and none goes. */
  predicate AddsMonitors(g: Graph, h: Graph, keys: set<string>) {
    h.monitors.Keys == g.monitors.Keys + keys
  }

  lemma MonitorsChain(a: Graph, b: Graph, c: Graph, x: set<string>, y: set<string>)
    requires AddsMonitors(a, b, x) && AddsMonitors(b, c, y)
    ensures AddsMonitors(a, c, x + y)
  {
  }

  function MonitoredKey(vs: string, pool: Pool): set<string> {
    if pool.monitor.Some? then {PoolKeyOf(vs, pool.name)} else {}
  }

  lemma MonitoredGrow(vs: string, pools: seq<Pool>, i: nat)
    requires i < |pools|
    ensures MonitoredKeys(vs, pools[..i + 1]) == MonitoredKeys(vs, pools[..i]) + MonitoredKey(vs, pools[i])
  {
    hide PoolKeyOf;
    var more := pools[..i + 1];
    assert more[i] == pools[i] && forall j | 0 <= j < i :: more[j] == pools[..i][j];
    forall key | key in MonitoredKeys(vs, pools[..i]) ensures key in MonitoredKeys(vs, more) {
      var j :| 0 <= j < i && pools[..i][j].monitor.Some? && PoolKeyOf(vs, pools[..i][j].name) == key;
      assert PoolKeyOf(vs, more[j].name) == key;
    }
  }

  function RecordMonitor(g: Graph, vs: string, pool: Pool, m: MonitorInfo): Graph {
    if m.id == NO_ID then g else g.(monitors := g.monitors[PoolKeyOf(vs, pool.name) := MonitorEntry(vs, pool, m)])
  }

  function RuleKey(vs: string, r: RuleInfo): string {
    RuleKeyOf(vs, Rules.KeyOf(r.spec))
  }

  function RuleEntry(vs: VirtualServer, r: RuleInfo): Resource {
    Resource(RuleKey(vs.name, r), r.id, "", "", "", vs.ownership)
  }

  function AddRules(bucket: Bucket, vs: VirtualServer, list: seq<RuleInfo>): Bucket {
    if list == [] then bucket
    else
      var r := list[|list| - 1];
      AddRules(bucket, vs, list[..|list| - 1])[RuleKey(vs.name, r) := RuleEntry(vs, r)]
  }

  // ----- The loops that edit the graph -----

  method PrunePoolKey(bucket: Bucket, poolKey: string) returns (r: Bucket)
    ensures r == WithoutPoolKey(bucket, poolKey)
  {
    hide PoolKey;
    r := bucket;
    var left := bucket.Keys;
    while left != {}
      invariant left <= bucket.Keys
      invariant r == map key | key in bucket && (key in left || PoolKey(key) != poolKey) :: bucket[key]
      decreases left
    {
      var key :| key in left;
      left := left - {key};
      if PoolKey(key) == poolKey {
        r := r - {key};
      }
    }
  }

  method PruneVSName(bucket: Bucket, vs: string) returns (r: Bucket)
    ensures r == WithoutVSName(bucket, vs)
  {
    hide VSName;
    r := bucket;
    var left := bucket.Keys;
    while left != {}
      invariant left <= bucket.Keys
      invariant r == map key | key in bucket && (key in left || VSName(key) != vs) :: bucket[key]
      decreases left
    {
      var key :| key in left;
      left := left - {key};
      if VSName(key) == vs {
        r := r - {key};
      }
    }
  }

  method AppendMembers(bucket: Bucket, vs: string, pool: Pool, list: seq<MemberInfo>) returns (r: Bucket)
    ensures r == AddMembers(bucket, vs, pool, list)
  {
    hide MemberKey, Itoa;
    r := bucket;
    for i := 0 to |list|
      invariant r == AddMembers(bucket, vs, pool, list[..i])
    {
      assert list[..i + 1][..i] == list[..i];
      r := r[MemberKey(vs, pool.name, list[i]) := MemberEntry(vs, pool, list[i])];
    }
    assert list[..|list|] == list;
  }

  method AppendRules(bucket: Bucket, vs: VirtualServer, list: seq<RuleInfo>) returns (r: Bucket)
    ensures r == AddRules(bucket, vs, list)
  {
    hide RuleKey;
    r := bucket;
    for i := 0 to |list|
      invariant r == AddRules(bucket, vs, list[..i])
    {
      assert list[..i + 1][..i] == list[..i];
      r := r[RuleKey(vs.name, list[i]) := RuleEntry(vs, list[i])];
    }
    assert list[..|list|] == list;
  }

  // ----- What the record says -----

  /** Under the pool's key the record has exactly the listed members, each under its own key. */
  ghost predicate MembersOnRecord(bucket: Bucket, vs: string, pool: Pool, list: seq<MemberInfo>) {
    && (forall j | 0 <= j < |list| ::
          MemberKey(vs, pool.name, list[j]) in bucket && bucket[MemberKey(vs, pool.name, list[j])] == MemberEntry(vs, pool, list[j]))
    && (forall key | key in bucket && PoolKey(key) == PoolKeyOf(vs, pool.name) ::
          bucket[key].logicalID == key && exists j :: 0 <= j < |list| && key == MemberKey(vs, pool.name, list[j]))
  }

  predicate DistinctKeys(list: seq<MemberInfo>) {
    forall i, j | 0 <= i < |list| && 0 <= j < |list| && Members.KeyOf(list[i].spec) == Members.KeyOf(list[j].spec) :: i == j
  }

  lemma MemberKeysDiffer(vs: string, pool: string, a: MemberInfo, b: MemberInfo)
    requires MemberKey(vs, pool, a) == MemberKey(vs, pool, b)
    ensures Members.KeyOf(a.spec) == Members.KeyOf(b.spec)
  {
    hide Members.KeyOf;
    PrefixCancels(PoolKeyOf(vs, pool) + "/", Members.KeyOf(a.spec), Members.KeyOf(b.spec));
  }

  lemma {:induction false} AddedMembers(bucket: Bucket, vs: string, pool: Pool, list: seq<MemberInfo>)
    requires DistinctKeys(list)
    ensures forall j | 0 <= j < |list| ::
              MemberKey(vs, pool.name, list[j]) in AddMembers(bucket, vs, pool, list)
              && AddMembers(bucket, vs, pool, list)[MemberKey(vs, pool.name, list[j])] == MemberEntry(vs, pool, list[j])
  {
    hide MemberKey, MemberEntry, Members.KeyOf;
    if list != [] {
      var n := |list| - 1;
      var before := list[..n];
      assert forall i | 0 <= i < n :: before[i] == list[i];
      AddedMembers(bucket, vs, pool, before);
      var after := AddMembers(bucket, vs, pool, list);
      forall j | 0 <= j < |list|
        ensures MemberKey(vs, pool.name, list[j]) in after && after[MemberKey(vs, pool.name, list[j])] == MemberEntry(vs, pool, list[j])
      {
        if j < n && MemberKey(vs, pool.name, list[j]) == MemberKey(vs, pool.name, list[n]) {
          MemberKeysDiffer(vs, pool.name, list[j], list[n]);
        }
      }
    }
  }

  /** Only members are added. */
  lemma {:induction false} MembersOnly(bucket: Bucket, vs: string, pool: Pool, list: seq<MemberInfo>)
    ensures forall key | key in AddMembers(bucket, vs, pool, list) ::
              || (exists j :: 0 <= j < |list| && key == MemberKey(vs, pool.name, list[j]))
              || (key in bucket && AddMembers(bucket, vs, pool, list)[key] == bucket[key])
    ensures bucket.Keys <= AddMembers(bucket, vs, pool, list).Keys
  {
    hide MemberKey, MemberEntry;
    if list != [] {
      var n := |list| - 1;
      var before := list[..n];
      MembersOnly(bucket, vs, pool, before);
      var was, after := AddMembers(bucket, vs, pool, before), AddMembers(bucket, vs, pool, list);
      forall key | key in after
        ensures (exists j :: 0 <= j < |list| && key == MemberKey(vs, pool.name, list[j])) || (key in bucket && after[key] == bucket[key])
      {
        if key != MemberKey(vs, pool.name, list[n]) {
          assert key in was && after[key] == was[key];
          if j :| 0 <= j < n && key == MemberKey(vs, pool.name, before[j]) {
            assert key == MemberKey(vs, pool.name, list[j]);
          }
        }
      }
    }
  }

  lemma RecordedMembers(bucket: Bucket, vs: string, pool: Pool, list: seq<MemberInfo>)
    requires '/' !in vs && '/' !in pool.name && DistinctKeys(list)
    ensures var after := AddMembers(WithoutPoolKey(bucket, PoolKeyOf(vs, pool.name)), vs, pool, list);
            && MembersOnRecord(after, vs, pool, list)
            && (forall key | PoolKey(key) != PoolKeyOf(vs, pool.name) ::
                  (key in after <==> key in bucket) && (key in bucket ==> after[key] == bucket[key]))
  {
    hide MemberKey, PoolKey, Members.KeyOf, PoolKeyOf;
    var rest := WithoutPoolKey(bucket, PoolKeyOf(vs, pool.name));
    var after := AddMembers(rest, vs, pool, list);
    AddedMembers(rest, vs, pool, list);
    MembersOnly(rest, vs, pool, list);
    forall j | 0 <= j < |list| ensures PoolKey(MemberKey(vs, pool.name, list[j])) == PoolKeyOf(vs, pool.name) {
      MemberKeyReads(vs, pool.name, list[j]);
    }
    forall j | 0 <= j < |list| ensures MemberEntry(vs, pool, list[j]).logicalID == MemberKey(vs, pool.name, list[j]) {}
  }

  lemma MemberKeyReads(vs: string, pool: string, m: MemberInfo)
    requires '/' !in vs && '/' !in pool
    ensures PoolKey(MemberKey(vs, pool, m)) == PoolKeyOf(vs, pool)
  {
    hide Members.KeyOf;
    PoolKeyReads(vs, pool, Members.KeyOf(m.spec));
  }

  // ----- One pool -----

  /** The pool is as desired in the provider, and so is its record. */
  ghost predicate PoolDone(k: Kids, g: Graph, vsID: Id, vs: VirtualServer, pool: Pool, specs: seq<MemberSpec>) {
    var key := PoolKeyOf(vs.name, pool.name);
    && key in g.pools && pool.name != "" && var id := g.pools[key].externalID;
    && id != NO_ID && id in PoolsOf(k, vsID) && g.pools[key] == PoolEntry(vs.name, pool, id, k.pools[id].name)
    && MembersDone(k, g, id, vs.name, pool, specs) && MonitorDone(k, g, id, vs.name, pool)
    && (pool.name == vs.defaultPoolName ==> Pools.IsDefault(k, vsID, id))
  }

  ghost predicate MembersDone(k: Kids, g: Graph, id: Id, vs: string, pool: Pool, specs: seq<MemberSpec>) {
    exists out :: Members.Converged(Members.View(k, id), specs, out) && MembersOnRecord(g.members, vs, pool, out)
  }

  ghost predicate MonitorDone(k: Kids, g: Graph, id: Id, vs: string, pool: Pool) {
    exists m :: Monitors.Ends(Monitors.ViewOf(k, id), pool.monitor, m) && MonitorOnRecord(g, vs, pool, m)
  }

  predicate MonitorOnRecord(g: Graph, vs: string, pool: Pool, m: MonitorInfo) {
    m.id != NO_ID ==> PoolKeyOf(vs, pool.name) in g.monitors && g.monitors[PoolKeyOf(vs, pool.name)] == MonitorEntry(vs, pool, m)
  }

  /** Nothing of the graph changes but what belongs to one pool. */
  ghost predicate OnlyPoolKey(g: Graph, h: Graph, poolKey: string) {
    && h == g.(pools := h.pools, members := h.members, monitors := h.monitors)
    && poolKey in h.pools && h.pools == g.pools[poolKey := h.pools[poolKey]]
    && (forall key | PoolKey(key) != poolKey :: (key in h.members <==> key in g.members) && (key in g.members ==> h.members[key] == g.members[key]))
    && (forall key | key != poolKey :: (key in h.monitors <==> key in g.monitors) && (key in g.monitors ==> h.monitors[key] == g.monitors[key]))
  }

  lemma ConvergedIsKeyDistinct(v: map<Id, MemberSpec>, specs: seq<MemberSpec>, out: seq<MemberInfo>)
    requires Members.Converged(v, specs, out) && Members.DistinctSpecs(specs)
    ensures DistinctKeys(out)
  {
    hide Members.KeyOf, Members.NeedsUpdate;
    forall i, j | 0 <= i < |out| && 0 <= j < |out| && Members.KeyOf(out[i].spec) == Members.KeyOf(out[j].spec) ensures i == j {
      assert Members.KeyOf(specs[i]) == Members.KeyOf(specs[j]);
    }
  }

  ghost predicate AllDistinct(k: Kids, vs: Id) {
    forall p | p in PoolsOf(k, vs) :: Members.DistinctIn(k, p)
  }

  /** Member keys stay distinct: the converged pool has the desired ones, the others are untouched. */
  lemma StaysDistinct(k: Kids, m: Kids, vs: Id, own: set<Id>, id: Id, specs: seq<MemberSpec>, out: seq<MemberInfo>)
    requires WellFormedKids(k) && WellFormedKids(m) && AllDistinct(k, vs) && Pools.OnlyOwn(k, m, vs, own)
    requires own <= {id} || (own * PoolsOf(k, vs) == {})
    requires PoolsOf(m, vs) == PoolsOf(k, vs) + {id}
    requires Members.Converged(Members.View(m, id), specs, out) && Members.DistinctSpecs(specs)
    ensures AllDistinct(m, vs)
  {
    hide Members.KeyOf, Members.Converged, Members.DistinctSpecs, Members.View;
    Members.ConvergedIsDistinct(m, id, specs, out);
    forall p | p in PoolsOf(m, vs) && p != id ensures Members.DistinctIn(m, p) {
      assert p in PoolsOf(k, vs) && p !in own;
      assert Members.DistinctIn(k, p);
      assert MembersOf(m, p) == MembersOf(k, p);
    }
  }

  method EnsureMonitor(c: ChildClient, g: Graph, lb: Id, vsID: Id, id: Id, vs: VirtualServer, pool: Pool)
    returns (h: Graph, changed: bool, err: Option<Problem>)
    requires c.Valid() && PoolAt(c.kids, vsID, id)
    modifies c
    ensures c.Valid() && c.faults <= old(c.faults) && Monitors.OnlyMonitors(old(c.kids), c.kids, id) && old(c.calls) <= c.calls
    ensures err.None? ==>
              && MonitorDone(c.kids, h, id, vs.name, pool) && (changed <==> c.calls != old(c.calls))
              && (h == g || (PoolKeyOf(vs.name, pool.name) in h.monitors
                             && h == g.(monitors := g.monitors[PoolKeyOf(vs.name, pool.name) := h.monitors[PoolKeyOf(vs.name, pool.name)]])))
              && (Keyed(g.monitors) ==> Keyed(h.monitors)) && AddsMonitors(g, h, MonitoredKey(vs.name, pool))
    ensures MonitorDone(old(c.kids), g, id, vs.name, pool) ==> c.calls == old(c.calls) && c.kids == old(c.kids) && h == g
    ensures err.Some? ==> c.faults < old(c.faults) || lb == NO_ID || vsID == NO_ID || id == NO_ID
  {
    hide Monitors.ViewOf, Monitors.Ends, Monitors.OnlyMonitors, WellFormedKids, PoolKeyOf, MonitorDone, RecordMonitor, Keyed, Monitors.Reuses,
      ListsMonitors, MonitoredKey;
    ghost var k0 := c.kids;
    if MonitorDone(k0, g, id, vs.name, pool) {
      DoneEnds(k0, g, id, vs.name, pool);
    }
    var m, changed0, failure;
    ghost var listed;
    m, changed0, failure, listed := Monitors.Ensure(c, lb, vsID, id, pool.monitor);
    h, changed, err := g, changed0, failure;
    if err.Some? {
      return;
    }
    h := RecordMonitor(g, vs.name, pool, m);
    MonitorIsRecorded(c.kids, g, id, vs.name, pool, m);
    if MonitorDone(k0, g, id, vs.name, pool) {
      SameMonitorRecord(k0, g, id, vs.name, pool, m);
    }
  }

  lemma DoneEnds(k: Kids, g: Graph, id: Id, vs: string, pool: Pool)
    requires MonitorDone(k, g, id, vs, pool)
    ensures exists m :: Monitors.Ends(Monitors.ViewOf(k, id), pool.monitor, m)
  {
    hide Monitors.ViewOf, Monitors.Ends;
  }

  lemma MonitorIsRecorded(k: Kids, g: Graph, id: Id, vs: string, pool: Pool, m: MonitorInfo)
    requires Monitors.Ends(Monitors.ViewOf(k, id), pool.monitor, m)
    ensures var h := RecordMonitor(g, vs, pool, m);
            && MonitorDone(k, h, id, vs, pool) && (Keyed(g.monitors) ==> Keyed(h.monitors))
            && AddsMonitors(g, h, MonitoredKey(vs, pool))
            && (h == g || (PoolKeyOf(vs, pool.name) in h.monitors
                           && h == g.(monitors := g.monitors[PoolKeyOf(vs, pool.name) := h.monitors[PoolKeyOf(vs, pool.name)]])))
  {
    hide Monitors.ViewOf, Monitors.Ends, PoolKeyOf, MonitorOnRecord, RecordMonitor, Keyed, AddsMonitors, MonitoredKey;
    EndsTells(Monitors.ViewOf(k, id), pool.monitor, m);
    MonitorAdds(g, vs, pool, m);
  }

  lemma EndsTells(v: Monitors.View, desired: Option<Monitor>, m: MonitorInfo)
    requires Monitors.Ends(v, desired, m)
    ensures m.id != NO_ID <==> desired.Some?
  {
    hide Monitors.Right;
  }

  lemma MonitorAdds(g: Graph, vs: string, pool: Pool, m: MonitorInfo)
    requires m.id != NO_ID <==> pool.monitor.Some?
    ensures var h := RecordMonitor(g, vs, pool, m);
            && MonitorOnRecord(h, vs, pool, m) && (Keyed(g.monitors) ==> Keyed(h.monitors)) && AddsMonitors(g, h, MonitoredKey(vs, pool))
            && (h == g || (PoolKeyOf(vs, pool.name) in h.monitors
                           && h == g.(monitors := g.monitors[PoolKeyOf(vs, pool.name) := h.monitors[PoolKeyOf(vs, pool.name)]])))
  {
    hide PoolKeyOf;
  }

  /** A pool's only monitor is recorded as before. */
  lemma SameMonitorRecord(k: Kids, g: Graph, id: Id, vs: string, pool: Pool, m: MonitorInfo)
    requires MonitorDone(k, g, id, vs, pool) && Monitors.Ends(Monitors.ViewOf(k, id), pool.monitor, m)
    ensures RecordMonitor(g, vs, pool, m) == g
  {
    hide PoolKeyOf, Monitors.ViewOf, Monitors.Right;
    var n :| Monitors.Ends(Monitors.ViewOf(k, id), pool.monitor, n) && MonitorOnRecord(g, vs, pool, n);
    if pool.monitor.Some? {
      assert n.id in Monitors.ViewOf(k, id).Keys;
      assert m == n;
    }
  }

  /** The record of a pool and its members: prior entries of the pool are pruned first. */
  method Record(g: Graph, vs: VirtualServer, pool: Pool, p: PoolInfo, ghost k: Kids, ghost specs: seq<MemberSpec>) returns (h: Graph)
    requires Members.Converged(Members.View(k, p.id), specs, p.members) && Members.DistinctSpecs(specs)
    requires '/' !in vs.name && '/' !in pool.name
    ensures OnlyPoolKey(g, h, PoolKeyOf(vs.name, pool.name)) && h.monitors == g.monitors
    ensures MembersDone(k, h, p.id, vs.name, pool, specs)
    ensures h.pools[PoolKeyOf(vs.name, pool.name)] == PoolEntry(vs.name, pool, p.id, p.name)
    ensures MembersDone(k, g, p.id, vs.name, pool, specs) && PoolKeyOf(vs.name, pool.name) in g.pools ==>
              g.pools[PoolKeyOf(vs.name, pool.name)] == PoolEntry(vs.name, pool, p.id, p.name) ==> h == g
  {
    hide Members.KeyOf, Members.Converged, Members.DistinctSpecs, Members.View, PoolKeyOf, MembersOnRecord, PoolKey, AddMembers, WithoutPoolKey;
    var key := PoolKeyOf(vs.name, pool.name);
    var rest := PrunePoolKey(g.members, key);
    var members := AppendMembers(rest, vs.name, pool, p.members);
    ConvergedIsKeyDistinct(Members.View(k, p.id), specs, p.members);
    RecordedMembers(g.members, vs.name, pool, p.members);
    h := g.(pools := g.pools[key := PoolEntry(vs.name, pool, p.id, p.name)], members := members);
    if MembersDone(k, g, p.id, vs.name, pool, specs) {
      SameMembersRecord(k, g, p.id, vs.name, pool, specs, p.members);
    }
  }

  /** Members that have converged already are recorded as before. */
  lemma SameMembersRecord(k: Kids, g: Graph, id: Id, vs: string, pool: Pool, specs: seq<MemberSpec>, out: seq<MemberInfo>)
    requires MembersDone(k, g, id, vs, pool, specs) && Members.Converged(Members.View(k, id), specs, out) && Members.DistinctSpecs(specs)
    requires '/' !in vs && '/' !in pool.name
    ensures AddMembers(WithoutPoolKey(g.members, PoolKeyOf(vs, pool.name)), vs, pool, out) == g.members
  {
    hide Members.KeyOf, Members.Converged, Members.DistinctSpecs, Members.View, PoolKeyOf, PoolKey, MemberKey, MemberEntry, AddMembers,
      WithoutPoolKey;
    var recorded :| Members.Converged(Members.View(k, id), specs, recorded) && MembersOnRecord(g.members, vs, pool, recorded);
    Members.ConvergedIsUnique(Members.View(k, id), specs, recorded, out);
    ConvergedIsKeyDistinct(Members.View(k, id), specs, out);
    RecordedMembers(g.members, vs, pool, out);
    var after := AddMembers(WithoutPoolKey(g.members, PoolKeyOf(vs, pool.name)), vs, pool, out);
    forall j | 0 <= j < |out| ensures PoolKey(MemberKey(vs, pool.name, out[j])) == PoolKeyOf(vs, pool.name) {
      MemberKeyReads(vs, pool.name, out[j]);
    }
    assert forall key | key in after :: key in g.members && after[key] == g.members[key];
    assert forall key | key in g.members :: key in after;
  }

  /** EnsureOwned, the record of the pool and its members, and the monitor. */
  method EnsurePool(c: ChildClient, g: Graph, lb: Id, vsID: Id, vs: VirtualServer, pool: Pool, specs: seq<MemberSpec>)
    returns (h: Graph, changed: bool, id: Id, err: Option<Problem>)
    requires c.Valid() && Members.DistinctSpecs(specs) && AllDistinct(c.kids, vsID) && '/' !in vs.name && '/' !in pool.name
    modifies c
    ensures c.Valid() && c.faults <= old(c.faults)
    ensures Pools.OnlyOwn(old(c.kids), c.kids, vsID, {IDAt(g.pools, PoolKeyOf(vs.name, pool.name))} * PoolsOf(old(c.kids), vsID))
    ensures err.None? ==>
              && PoolDone(c.kids, h, vsID, vs, pool, specs) && OnlyPoolKey(g, h, PoolKeyOf(vs.name, pool.name))
              && id == h.pools[PoolKeyOf(vs.name, pool.name)].externalID
              && Pools.Chosen(old(c.kids), vsID, pool.name, IDAt(g.pools, PoolKeyOf(vs.name, pool.name)), id)
              && (pool.name != vs.defaultPoolName ==> c.kids.defaults == old(c.kids).defaults)
              && c.kids.pools.Keys == old(c.kids).pools.Keys + {id} && (Keyed(g.monitors) ==> Keyed(h.monitors))
              && AddsMonitors(g, h, MonitoredKey(vs.name, pool))
              && (changed <==> c.calls != old(c.calls)) && old(c.calls) <= c.calls
    ensures PoolDone(old(c.kids), g, vsID, vs, pool, specs) ==>
              c.calls == old(c.calls) && c.kids == old(c.kids) && h == g && (err.Some? ==> c.faults < old(c.faults) || lb == NO_ID || vsID == NO_ID)
  {
    hide Members.KeyOf, Members.Converged, Members.DistinctSpecs, Members.View, WellFormedKids, Members.DistinctIn, Pools.OnlyOwn,
      PoolKeyOf, RecordMonitor, MembersOnRecord, MonitorDone, Monitors.OnlyMonitors, Pools.Chosen, Pools.Settled, Pools.NameTaken,
      Monitors.Ends, Monitors.ViewOf, MembersDone, PoolKey, OnlyPoolKey, PoolDone, MonitoredKey;
    ghost var k0 := c.kids;
    var observedPoolID := IDAt(g.pools, PoolKeyOf(vs.name, pool.name));
    if PoolDone(k0, g, vsID, vs, pool, specs) {
      DoneIsSettled(k0, g, vsID, vs, pool, specs);
    }
    var p, changed0, failure := Pools.Ensure(c, lb, vsID, pool, specs, pool.name == vs.defaultPoolName, observedPoolID, false);
    h, changed, id, err := g, changed0, p.id, failure;
    if err.Some? {
      return;
    }
    ghost var k1 := c.kids;
    ChosenIsRecorded(k0, vsID, pool.name, observedPoolID, p.id);
    if PoolDone(k0, g, vsID, vs, pool, specs) {
      DoneIsOnRecord(k0, g, vsID, vs, pool, specs, p);
    }
    h := Record(g, vs, pool, p, k1, specs);
    ghost var h1 := h;
    var changed1;
    h, changed1, err := EnsureMonitor(c, h, lb, vsID, p.id, vs, pool);
    ChosenIsOwn(k0, vsID, pool.name, observedPoolID, p.id);
    Pools.MonitorsAreOwn(k0, k1, c.kids, vsID, {observedPoolID} * PoolsOf(k0, vsID), p.id);
    changed := changed || changed1;
    if err.Some? {
      return;
    }
    PoolIsDone(k1, c.kids, g, h1, h, vsID, vs, pool, specs, p.id);
  }

  lemma DoneIsSettled(k: Kids, g: Graph, vsID: Id, vs: VirtualServer, pool: Pool, specs: seq<MemberSpec>)
    requires PoolDone(k, g, vsID, vs, pool, specs)
    ensures var id := IDAt(g.pools, PoolKeyOf(vs.name, pool.name));
            && id != NO_ID && pool.name != "" && id in PoolsOf(k, vsID) && Pools.Settled(k, vsID, id, specs, pool.name == vs.defaultPoolName)
  {
    hide MembersOnRecord, Members.Converged, Members.View, MonitorDone, PoolKeyOf, PoolEntry;
    var id := g.pools[PoolKeyOf(vs.name, pool.name)].externalID;
    assert Members.Rests(Members.View(k, id), specs);
  }

  lemma DoneIsOnRecord(k: Kids, g: Graph, vsID: Id, vs: VirtualServer, pool: Pool, specs: seq<MemberSpec>, p: PoolInfo)
    requires PoolDone(k, g, vsID, vs, pool, specs) && p.id == IDAt(g.pools, PoolKeyOf(vs.name, pool.name)) && p.id in k.pools
    requires p.name == k.pools[p.id].name
    ensures MembersDone(k, g, p.id, vs.name, pool, specs) && MonitorDone(k, g, p.id, vs.name, pool)
    ensures PoolKeyOf(vs.name, pool.name) in g.pools
    ensures g.pools[PoolKeyOf(vs.name, pool.name)] == PoolEntry(vs.name, pool, p.id, p.name)
  {
    hide MembersDone, MonitorDone, PoolKeyOf, PoolEntry;
  }

  lemma ChosenIsRecorded(k: Kids, vs: Id, name: string, observedPoolID: Id, id: Id)
    requires WellFormedKids(k) && Pools.Chosen(k, vs, name, observedPoolID, id)
    ensures observedPoolID in PoolsOf(k, vs) ==> id == observedPoolID
  {
  }

  lemma PoolIsDone(k1: Kids, k2: Kids, g: Graph, h1: Graph, h: Graph, vsID: Id, vs: VirtualServer, pool: Pool, specs: seq<MemberSpec>, id: Id)
    requires k2.members == k1.members && k2.pools == k1.pools && k2.defaults == k1.defaults
    requires id != NO_ID && pool.name != "" && id in PoolsOf(k1, vsID) && (pool.name == vs.defaultPoolName ==> Pools.IsDefault(k1, vsID, id))
    requires OnlyPoolKey(g, h1, PoolKeyOf(vs.name, pool.name)) && h1.monitors == g.monitors
    requires MembersDone(k1, h1, id, vs.name, pool, specs) && MonitorDone(k2, h, id, vs.name, pool)
    requires id in k1.pools && h1.pools[PoolKeyOf(vs.name, pool.name)] == PoolEntry(vs.name, pool, id, k1.pools[id].name)
    requires h == h1 || (PoolKeyOf(vs.name, pool.name) in h.monitors
                         && h == h1.(monitors := h1.monitors[PoolKeyOf(vs.name, pool.name) := h.monitors[PoolKeyOf(vs.name, pool.name)]]))
    ensures PoolDone(k2, h, vsID, vs, pool, specs) && OnlyPoolKey(g, h, PoolKeyOf(vs.name, pool.name))
  {
    hide Members.KeyOf, Members.Converged, PoolKeyOf, PoolKey, MembersOnRecord, MonitorDone;
    Pools.SameMembersSameView(k1, k2, id);
    assert h.members == h1.members;
    assert MembersDone(k2, h, id, vs.name, pool, specs);
  }

  lemma ChosenIsOwn(k: Kids, vs: Id, name: string, observedPoolID: Id, id: Id)
    requires WellFormedKids(k) && Pools.Chosen(k, vs, name, observedPoolID, id)
    ensures id in {observedPoolID} * PoolsOf(k, vs) || id !in k.pools
  {
  }

  // ----- Working on one pool leaves the others done -----

  lemma OwnLeavesOthers(k: Kids, m: Kids, vs: Id, own: set<Id>, id: Id)
    requires WellFormedKids(k) && Pools.OnlyOwn(k, m, vs, own) && id in k.pools && id !in own
    ensures Members.View(m, id) == Members.View(k, id) && Monitors.ViewOf(m, id) == Monitors.ViewOf(k, id)
    ensures id in m.pools && m.pools[id] == k.pools[id]
  {
    assert MembersOf(m, id) == MembersOf(k, id);
    assert MonitorsOf(m, id) == MonitorsOf(k, id);
  }

  lemma RecordStays(g: Bucket, h: Bucket, vs: string, pool: Pool, out: seq<MemberInfo>)
    requires '/' !in vs && '/' !in pool.name && MembersOnRecord(g, vs, pool, out)
    requires forall key | PoolKey(key) == PoolKeyOf(vs, pool.name) :: (key in h <==> key in g) && (key in g ==> h[key] == g[key])
    ensures MembersOnRecord(h, vs, pool, out)
  {
    hide MemberKey, PoolKey, PoolKeyOf, MemberEntry;
    forall j | 0 <= j < |out| ensures MemberKey(vs, pool.name, out[j]) in h && h[MemberKey(vs, pool.name, out[j])] == MemberEntry(vs, pool, out[j]) {
      MemberKeyReads(vs, pool.name, out[j]);
    }
  }

  /** The graph says the same about one pool. */
  ghost predicate SamePoolRecord(g: Graph, h: Graph, key: string) {
    && key in g.pools && key in h.pools && h.pools[key] == g.pools[key]
    && (forall x | PoolKey(x) == key :: (x in h.members <==> x in g.members) && (x in g.members ==> h.members[x] == g.members[x]))
    && (key in g.monitors ==> key in h.monitors && h.monitors[key] == g.monitors[key])
  }

  lemma PoolDoneStays(k: Kids, m: Kids, g: Graph, h: Graph, vsID: Id, vs: VirtualServer, pool: Pool, specs: seq<MemberSpec>)
    requires PoolDone(k, g, vsID, vs, pool, specs) && '/' !in vs.name && '/' !in pool.name
    requires SamePoolRecord(g, h, PoolKeyOf(vs.name, pool.name))
    requires var id := g.pools[PoolKeyOf(vs.name, pool.name)].externalID;
             && Members.View(m, id) == Members.View(k, id) && Monitors.ViewOf(m, id) == Monitors.ViewOf(k, id)
             && id in m.pools && id in k.pools && m.pools[id] == k.pools[id]
    requires pool.name == vs.defaultPoolName ==>
               Pools.IsDefault(k, vsID, g.pools[PoolKeyOf(vs.name, pool.name)].externalID)
               ==> Pools.IsDefault(m, vsID, g.pools[PoolKeyOf(vs.name, pool.name)].externalID)
    ensures PoolDone(m, h, vsID, vs, pool, specs)
  {
    hide PoolKey, PoolKeyOf, MembersOnRecord, Members.Converged, Monitors.Ends, Members.View, Monitors.ViewOf, PoolEntry, MonitorEntry;
    var key := PoolKeyOf(vs.name, pool.name);
    var id := g.pools[key].externalID;
    var out :| Members.Converged(Members.View(k, id), specs, out) && MembersOnRecord(g.members, vs.name, pool, out);
    RecordStays(g.members, h.members, vs.name, pool, out);
    assert MembersDone(m, h, id, vs.name, pool, specs);
    var monitor :| Monitors.Ends(Monitors.ViewOf(k, id), pool.monitor, monitor) && MonitorOnRecord(g, vs.name, pool, monitor);
    assert MonitorOnRecord(h, vs.name, pool, monitor);
  }

  lemma OtherPoolSameRecord(g: Graph, h: Graph, other: string, key: string)
    requires OnlyPoolKey(g, h, other) && key != other && key in g.pools
    ensures SamePoolRecord(g, h, key)
  {
    hide PoolKey;
  }

  // ----- The pools of a listener -----

  function PoolsFor(stack: Stack, vs: VirtualServer): seq<Pool> {
    Filter(stack.pools, Needed(stack, vs))
  }

  /** The default pool and whatever some routing rule selects. */
  function Needed(stack: Stack, vs: VirtualServer): set<string> {
    (if vs.defaultPoolName != "" then {vs.defaultPoolName} else {}) + set i | 0 <= i < |stack.routingRules| :: stack.routingRules[i].poolName
  }

  /** The listener needs the pool: as its default, or because a rule selects it. */
  predicate IsNeeded(stack: Stack, vs: VirtualServer, pool: Pool) {
    || (vs.defaultPoolName != "" && pool.name == vs.defaultPoolName)
    || exists rule :: rule in stack.routingRules && rule.poolName == pool.name
  }

  /** The stack has the listener's default pool. */
  predicate NamesDefault(stack: Stack, vs: VirtualServer) {
    vs.defaultPoolName != "" && exists pool :: pool in stack.pools && pool.name == vs.defaultPoolName
  }

  /** The pools that a run works on are those that the listener needs. */
  lemma PoolsForMeans(stack: Stack, vs: VirtualServer)
    ensures forall pool :: pool in PoolsFor(stack, vs) <==> pool in stack.pools && IsNeeded(stack, vs, pool)
  {
    FilterMeans(stack.pools, Needed(stack, vs));
    forall pool: Pool ensures pool.name in Needed(stack, vs) <==> IsNeeded(stack, vs, pool) {
      if rule :| rule in stack.routingRules && rule.poolName == pool.name {
        var i :| 0 <= i < |stack.routingRules| && stack.routingRules[i] == rule;
      }
    }
  }

  lemma {:induction false} FilterMeans(pools: seq<Pool>, needed: set<string>)
    ensures forall pool :: pool in Filter(pools, needed) <==> pool in pools && pool.name in needed
  {
    if pools != [] {
      var n := |pools| - 1;
      FilterMeans(pools[..n], needed);
      assert pools == pools[..n] + [pools[n]];
    }
  }

  function Filter(pools: seq<Pool>, needed: set<string>): seq<Pool> {
    if pools == [] then []
    else if pools[|pools| - 1].name in needed then Filter(pools[..|pools| - 1], needed) + [pools[|pools| - 1]]
    else Filter(pools[..|pools| - 1], needed)
  }

  method PoolsForVirtualServer(stack: Stack, vs: VirtualServer) returns (out: seq<Pool>)
    ensures out == PoolsFor(stack, vs)
  {
    var needed := if vs.defaultPoolName != "" then {vs.defaultPoolName} else {};
    for i := 0 to |stack.routingRules|
      invariant needed == (if vs.defaultPoolName != "" then {vs.defaultPoolName} else {}) + set j | 0 <= j < i :: stack.routingRules[j].poolName
    {
      needed := needed + {stack.routingRules[i].poolName};
    }
    out := [];
    for i := 0 to |stack.pools|
      invariant out == Filter(stack.pools[..i], needed)
    {
      assert stack.pools[..i + 1][..i] == stack.pools[..i];
      if stack.pools[i].name in needed {
        out := out + [stack.pools[i]];
      }
    }
    assert stack.pools[..|stack.pools|] == stack.pools;
  }

  predicate DistinctPools(pools: seq<Pool>) {
    forall i, j | 0 <= i < |pools| && 0 <= j < |pools| && pools[i].name == pools[j].name :: i == j
  }

  lemma {:induction false} FilterKeepsDistinct(pools: seq<Pool>, needed: set<string>)
    requires DistinctPools(pools)
    ensures DistinctPools(Filter(pools, needed))
    ensures forall p | p in Filter(pools, needed) :: p in pools && p.name in needed
    ensures forall p | p in pools && p.name in needed :: p in Filter(pools, needed)
  {
    if pools != [] {
      var n := |pools| - 1;
      assert forall i | 0 <= i < n :: pools[..n][i] == pools[i];
      FilterKeepsDistinct(pools[..n], needed);
      assert pools == pools[..n] + [pools[n]];
    }
  }

  // ----- The pool loop -----

  type Resolver = BackendMember -> Option<MemberSpec>

  /** poolMemberSpecs: the member requests of a pool, if every backend's compute port can be found. */
  function SpecsOf(resolve: Resolver, members: seq<BackendMember>): Option<seq<MemberSpec>> {
    if members == [] then Some([])
    else
      match SpecsOf(resolve, members[..|members| - 1])
      case None => None
      case Some(specs) =>
        match resolve(members[|members| - 1])
        case None => None
        case Some(spec) => Some(specs + [spec])
  }

  lemma {:induction false} SpecsFail(resolve: Resolver, members: seq<BackendMember>, i: nat)
    requires i < |members| && resolve(members[i]) == None
    ensures SpecsOf(resolve, members) == None
  {
    if i < |members| - 1 {
      SpecsFail(resolve, members[..|members| - 1], i);
    }
  }

  method PoolMemberSpecs(resolve: Resolver, members: seq<BackendMember>) returns (r: Option<seq<MemberSpec>>)
    ensures r == SpecsOf(resolve, members)
  {
    var out: seq<MemberSpec> := [];
    for i := 0 to |members|
      invariant SpecsOf(resolve, members[..i]) == Some(out)
    {
      assert members[..i + 1][..i] == members[..i];
      var spec := resolve(members[i]);
      if spec.None? {
        SpecsFail(resolve, members, i);
        return None;
      }
      out := out + [spec.value];
    }
    assert members[..|members|] == members;
    return Some(out);
  }

  /** Different pools have different ids, all of which the provider has given out. */
  ghost predicate PoolIDsApart(g: Graph, issued: set<Id>) {
    && (forall a, b | a in g.pools && b in g.pools && g.pools[a].externalID == g.pools[b].externalID != NO_ID :: a == b)
    && (forall a | a in g.pools && g.pools[a].externalID != NO_ID :: g.pools[a].externalID in issued)
  }

  /** What one round of the loop does to the other pools' records. */
  ghost predicate OnlyPoolKeys(g: Graph, h: Graph, keys: set<string>) {
    && h == g.(pools := h.pools, members := h.members, monitors := h.monitors)
    && h.pools.Keys == g.pools.Keys + keys && (forall key | key in g.pools && key !in keys :: h.pools[key] == g.pools[key])
    && (forall key | PoolKey(key) !in keys :: (key in h.members <==> key in g.members) && (key in g.members ==> h.members[key] == g.members[key]))
    && (forall key | key !in keys :: (key in h.monitors <==> key in g.monitors) && (key in g.monitors ==> h.monitors[key] == g.monitors[key]))
  }

  function KeysOf(vs: string, pools: seq<Pool>): set<string> {
    set i | 0 <= i < |pools| :: PoolKeyOf(vs, pools[i].name)
  }

  /** The ids that the graph records for these pools. */
  function OwnIDs(g: Graph, keys: set<string>): set<Id> {
    set key | key in keys :: IDAt(g.pools, key)
  }

  ghost predicate Workable(pools: seq<Pool>, resolve: Resolver) {
    && DistinctPools(pools)
    && (forall i | 0 <= i < |pools| :: '/' !in pools[i].name
          && (SpecsOf(resolve, pools[i].members).Some? ==> Members.DistinctSpecs(SpecsOf(resolve, pools[i].members).value)))
  }

  ghost predicate PoolsDone(k: Kids, g: Graph, vsID: Id, vs: VirtualServer, pools: seq<Pool>, n: nat, resolve: Resolver)
    requires n <= |pools|
  {
    forall i | 0 <= i < n :: SpecsOf(resolve, pools[i].members).Some?
                             && PoolDone(k, g, vsID, vs, pools[i], SpecsOf(resolve, pools[i].members).value)
  }

  /** Ids of finished pools are the recorded ones or new. */
  ghost predicate OldOrNew(g0: Graph, g: Graph, issued: set<Id>) {
    forall key | key in g.pools :: g.pools[key].externalID == IDAt(g0.pools, key) || g.pools[key].externalID !in issued
  }

  lemma KeysGrow(vs: string, pools: seq<Pool>, i: nat)
    requires i < |pools|
    ensures KeysOf(vs, pools[..i + 1]) == KeysOf(vs, pools[..i]) + {PoolKeyOf(vs, pools[i].name)}
  {
    hide PoolKeyOf;
    var more := pools[..i + 1];
    assert more[i] == pools[i] && forall j | 0 <= j < i :: more[j] == pools[..i][j];
    forall key | key in KeysOf(vs, pools[..i]) ensures key in KeysOf(vs, more) {
      var j :| 0 <= j < i && PoolKeyOf(vs, pools[..i][j].name) == key;
      assert PoolKeyOf(vs, more[j].name) == key;
    }
  }

  lemma KeyIsNew(vs: string, pools: seq<Pool>, i: nat)
    requires i < |pools| && DistinctPools(pools) && '/' !in vs && forall j | 0 <= j < |pools| :: '/' !in pools[j].name
    ensures PoolKeyOf(vs, pools[i].name) !in KeysOf(vs, pools[..i])
    ensures forall j | 0 <= j < |pools| && j != i :: PoolKeyOf(vs, pools[j].name) != PoolKeyOf(vs, pools[i].name)
  {
    forall j | 0 <= j < |pools| && j != i ensures PoolKeyOf(vs, pools[j].name) != PoolKeyOf(vs, pools[i].name) {
      if PoolKeyOf(vs, pools[j].name) == PoolKeyOf(vs, pools[i].name) {
        DifferentPoolsDifferentKeys(vs, pools[j].name, vs, pools[i].name);
      }
    }
  }

  lemma OnlyKeysGrow(g: Graph, h: Graph, h2: Graph, keys: set<string>, key: string)
    requires OnlyPoolKeys(g, h, keys) && OnlyPoolKey(h, h2, key)
    ensures OnlyPoolKeys(g, h2, keys + {key})
  {
    hide PoolKey;
  }

  lemma ApartGrows(g0: Graph, g: Graph, h: Graph, issued0: set<Id>, k: Kids, m: Kids, vsID: Id, key: string, name: string)
    requires WellFormedKids(m) && PoolIDsApart(g, k.issued) && OldOrNew(g0, g, issued0) && issued0 <= k.issued <= m.issued
    requires OnlyPoolKey(g, h, key) && IDAt(g.pools, key) == IDAt(g0.pools, key)
    requires Pools.Chosen(k, vsID, name, IDAt(g.pools, key), h.pools[key].externalID) && h.pools[key].externalID in m.pools
    ensures PoolIDsApart(h, m.issued) && OldOrNew(g0, h, issued0)
  {
    hide PoolKey, Pools.NameTaken;
  }

  lemma DoneStays(k: Kids, m: Kids, g: Graph, h: Graph, vsID: Id, vs: VirtualServer, pools: seq<Pool>, i: nat, j: nat, specs: seq<MemberSpec>)
    requires WellFormedKids(k) && i < |pools| && j < |pools| && j != i && DistinctPools(pools) && '/' !in vs.name
    requires forall p | 0 <= p < |pools| :: '/' !in pools[p].name
    requires PoolDone(k, g, vsID, vs, pools[j], specs) && PoolIDsApart(g, k.issued)
    requires Pools.OnlyOwn(k, m, vsID, {IDAt(g.pools, PoolKeyOf(vs.name, pools[i].name))} * PoolsOf(k, vsID))
    requires OnlyPoolKey(g, h, PoolKeyOf(vs.name, pools[i].name))
    requires pools[i].name != vs.defaultPoolName ==> m.defaults == k.defaults
    ensures PoolDone(m, h, vsID, vs, pools[j], specs)
  {
    hide PoolKeyOf, PoolKey, MembersDone, MonitorDone, Members.View, Monitors.ViewOf, Pools.OnlyOwn, WellFormedKids, OnlyPoolKey;
    var key := PoolKeyOf(vs.name, pools[j].name);
    KeyIsNew(vs.name, pools, i);
    OtherPoolSameRecord(g, h, PoolKeyOf(vs.name, pools[i].name), key);
    assert g.pools[key].externalID != IDAt(g.pools, PoolKeyOf(vs.name, pools[i].name));
    OwnLeavesOthers(k, m, vsID, {IDAt(g.pools, PoolKeyOf(vs.name, pools[i].name))} * PoolsOf(k, vsID), g.pools[key].externalID);
    PoolDoneStays(k, m, g, h, vsID, vs, pools[j], specs);
  }

  lemma OnlyOwnLarger(k: Kids, m: Kids, vs: Id, a: set<Id>, b: set<Id>)
    requires WellFormedKids(k) && Pools.OnlyOwn(k, m, vs, a) && a <= b
    ensures Pools.OnlyOwn(k, m, vs, b)
  {
  }

  lemma OnlyOwnFacts(k: Kids, m: Kids, vs: Id, own: set<Id>)
    requires Pools.OnlyOwn(k, m, vs, own)
    ensures k.issued <= m.issued && m.rules == k.rules
  {
  }

  lemma NewPoolSet(k: Kids, m: Kids, vs: Id, own: set<Id>, id: Id)
    requires Pools.OnlyOwn(k, m, vs, own) && m.pools.Keys == k.pools.Keys + {id} && id in PoolsOf(m, vs)
    ensures PoolsOf(m, vs) == PoolsOf(k, vs) + {id}
  {
  }

  lemma DoneSays(k: Kids, g: Graph, vsID: Id, vs: VirtualServer, pool: Pool, specs: seq<MemberSpec>)
    requires PoolDone(k, g, vsID, vs, pool, specs)
    ensures PoolKeyOf(vs.name, pool.name) in g.pools && var id := g.pools[PoolKeyOf(vs.name, pool.name)].externalID;
            && id in PoolsOf(k, vsID) && id in k.pools && exists out :: Members.Converged(Members.View(k, id), specs, out)
  {
    hide MembersOnRecord, Members.Converged, Members.View, MonitorDone;
  }

  lemma OneDone(k: Kids, g: Graph, vsID: Id, vs: VirtualServer, pools: seq<Pool>, i: nat, resolve: Resolver)
    requires i < |pools| && PoolsDone(k, g, vsID, vs, pools, |pools|, resolve)
    ensures SpecsOf(resolve, pools[i].members).Some? && PoolDone(k, g, vsID, vs, pools[i], SpecsOf(resolve, pools[i].members).value)
  {
    hide PoolDone, SpecsOf;
  }

  /** A round finishes its pool and leaves those of earlier rounds done. */
  lemma OneMoreDone(k: Kids, m: Kids, g: Graph, h: Graph, vsID: Id, vs: VirtualServer, pools: seq<Pool>, i: nat, resolve: Resolver)
    requires WellFormedKids(k) && i < |pools| && '/' !in vs.name && Workable(pools, resolve)
    requires PoolsDone(k, g, vsID, vs, pools, i, resolve) && PoolIDsApart(g, k.issued)
    requires Pools.OnlyOwn(k, m, vsID, {IDAt(g.pools, PoolKeyOf(vs.name, pools[i].name))} * PoolsOf(k, vsID))
    requires OnlyPoolKey(g, h, PoolKeyOf(vs.name, pools[i].name)) && (pools[i].name != vs.defaultPoolName ==> m.defaults == k.defaults)
    requires SpecsOf(resolve, pools[i].members).Some? && PoolDone(m, h, vsID, vs, pools[i], SpecsOf(resolve, pools[i].members).value)
    requires forall j | 0 <= j < i :: PoolKeyOf(vs.name, pools[j].name) in g.pools
    ensures PoolsDone(m, h, vsID, vs, pools, i + 1, resolve)
    ensures forall j | 0 <= j < i :: PoolKeyOf(vs.name, pools[j].name) in h.pools
                                     && h.pools[PoolKeyOf(vs.name, pools[j].name)] == g.pools[PoolKeyOf(vs.name, pools[j].name)]
  {
    hide WellFormedKids, Pools.OnlyOwn, PoolKeyOf, PoolDone, OnlyPoolKey, PoolIDsApart, SpecsOf, PoolsOf, Members.DistinctSpecs;
    KeyIsNew(vs.name, pools, i);
    forall j | 0 <= j < i
      ensures SpecsOf(resolve, pools[j].members).Some? && PoolDone(m, h, vsID, vs, pools[j], SpecsOf(resolve, pools[j].members).value)
      ensures PoolKeyOf(vs.name, pools[j].name) in h.pools && h.pools[PoolKeyOf(vs.name, pools[j].name)] == g.pools[PoolKeyOf(vs.name, pools[j].name)]
    {
      DoneStays(k, m, g, h, vsID, vs, pools, i, j, SpecsOf(resolve, pools[j].members).value);
      OtherPoolSameRecord(g, h, PoolKeyOf(vs.name, pools[i].name), PoolKeyOf(vs.name, pools[j].name));
    }
  }

  lemma NoneDone(k: Kids, g: Graph, vsID: Id, vs: VirtualServer, pools: seq<Pool>, resolve: Resolver)
    ensures PoolsDone(k, g, vsID, vs, pools, 0, resolve)
  {
  }

  method EnsurePools(c: ChildClient, g: Graph, lb: Id, vsID: Id, vs: VirtualServer, pools: seq<Pool>, resolve: Resolver)
    returns (h: Graph, changed: bool, poolIDs: map<string, Id>, err: Option<Problem>)
    requires c.Valid() && AllDistinct(c.kids, vsID) && '/' !in vs.name && Workable(pools, resolve) && PoolIDsApart(g, c.kids.issued)
    modifies c
    ensures c.Valid() && c.faults <= old(c.faults)
    ensures Pools.OnlyOwn(old(c.kids), c.kids, vsID, OwnIDs(g, KeysOf(vs.name, pools)) * PoolsOf(old(c.kids), vsID))
    ensures err.None? ==>
              && PoolsDone(c.kids, h, vsID, vs, pools, |pools|, resolve) && OnlyPoolKeys(g, h, KeysOf(vs.name, pools))
              && PoolIDsApart(h, c.kids.issued) && OldOrNew(g, h, old(c.kids).issued) && AllDistinct(c.kids, vsID)
              && poolIDs.Keys == (set i | 0 <= i < |pools| :: pools[i].name)
              && (forall i | 0 <= i < |pools| :: PoolKeyOf(vs.name, pools[i].name) in h.pools
                    && poolIDs[pools[i].name] == h.pools[PoolKeyOf(vs.name, pools[i].name)].externalID)
              && (Keyed(g.monitors) ==> Keyed(h.monitors)) && AddsMonitors(g, h, MonitoredKeys(vs.name, pools))
              && (changed <==> c.calls != old(c.calls)) && old(c.calls) <= c.calls
              && ((forall i | 0 <= i < |pools| :: pools[i].name != vs.defaultPoolName) ==> c.kids.defaults == old(c.kids).defaults)
    ensures PoolsDone(old(c.kids), g, vsID, vs, pools, |pools|, resolve) ==>
              c.calls == old(c.calls) && c.kids == old(c.kids) && h == g && (err.Some? ==> c.faults < old(c.faults) || lb == NO_ID || vsID == NO_ID)
  {
    hide Members.KeyOf, Members.Converged, Members.DistinctSpecs, Members.View, WellFormedKids, Pools.OnlyOwn, PoolKeyOf, PoolDone, Keyed,
      OnlyPoolKey, OnlyPoolKeys, PoolIDsApart, OldOrNew, AllDistinct, Pools.Chosen, KeysOf, OwnIDs, SpecsOf, PoolsOf, MonitoredKeys, MonitoredKey,
      AddsMonitors, PoolsDone, Members.Lacking, Slash;
    ghost var k0, own := c.kids, OwnIDs(g, KeysOf(vs.name, pools)) * PoolsOf(c.kids, vsID);
    ghost var rests := PoolsDone(k0, g, vsID, vs, pools, |pools|, resolve);
    Pools.NothingChanged(k0, vsID, own);
    LoopStarts(g, vs.name, pools, k0.issued);
    NoneDone(k0, g, vsID, vs, pools, resolve);
    h, changed, poolIDs, err := g, false, map[], None;
    for i := 0 to |pools|
      invariant c.Valid() && c.faults <= old(c.faults) && Pools.OnlyOwn(k0, c.kids, vsID, own) && AllDistinct(c.kids, vsID)
      invariant PoolsDone(c.kids, h, vsID, vs, pools, i, resolve) && OnlyPoolKeys(g, h, KeysOf(vs.name, pools[..i]))
      invariant PoolIDsApart(h, c.kids.issued) && OldOrNew(g, h, k0.issued) && k0.issued <= c.kids.issued
      invariant Keyed(g.monitors) ==> Keyed(h.monitors)
      invariant AddsMonitors(g, h, MonitoredKeys(vs.name, pools[..i]))
      invariant poolIDs.Keys == set j | 0 <= j < i :: pools[j].name
      invariant forall j | 0 <= j < i :: PoolKeyOf(vs.name, pools[j].name) in h.pools
                                         && poolIDs[pools[j].name] == h.pools[PoolKeyOf(vs.name, pools[j].name)].externalID
      invariant (changed <==> c.calls != old(c.calls)) && old(c.calls) <= c.calls
      invariant rests ==> c.calls == old(c.calls) && c.kids == k0 && h == g
      invariant (forall j | 0 <= j < i :: pools[j].name != vs.defaultPoolName) ==> c.kids.defaults == k0.defaults
    {
      var pool := pools[i];
      var specs := PoolMemberSpecs(resolve, pool.members);
      if specs.None? {
        if rests {
          OneDone(k0, g, vsID, vs, pools, i, resolve);
        }
        err := Some(Refused);
        return;
      }
      ghost var k, h0 := c.kids, h;
      ghost var key := PoolKeyOf(vs.name, pool.name);
      KeysGrow(vs.name, pools, i);
      KeyIsNew(vs.name, pools, i);
      MonitoredGrow(vs.name, pools, i);
      RecordUntouched(g, h0, KeysOf(vs.name, pools[..i]), key);
      OwnAmongAll(g, vs.name, pools, i);
      if rests {
        OneDone(k0, g, vsID, vs, pools, i, resolve);
      }
      var changed0, id, failure;
      h, changed0, id, failure := EnsurePool(c, h, lb, vsID, vs, pool, specs.value);
      StaysOwn(g, k0, k, c.kids, h0, vsID, key, own);
      if failure.Some? {
        err := failure;
        return;
      }
      changed := changed || changed0;
      OnlyKeysGrow(g, h0, h, KeysOf(vs.name, pools[..i]), key);
      MonitorsChain(g, h0, h, MonitoredKeys(vs.name, pools[..i]), MonitoredKey(vs.name, pool));
      PoolJoins(g, h0, h, k0.issued, k, c.kids, vsID, vs, pool, specs.value, own, id);
      OneMoreDone(k, c.kids, h0, h, vsID, vs, pools, i, resolve);
      poolIDs := poolIDs[pool.name := id];
    }
    assert pools[..|pools|] == pools;
  }

  lemma StaysOwn(g: Graph, k0: Kids, k: Kids, m: Kids, h: Graph, vsID: Id, key: string, own: set<Id>)
    requires PoolIDsApart(g, k0.issued) && WellFormedKids(k0) && WellFormedKids(k) && WellFormedKids(m)
    requires Pools.OnlyOwn(k0, k, vsID, own) && Pools.OnlyOwn(k, m, vsID, {IDAt(h.pools, key)} * PoolsOf(k, vsID))
    requires IDAt(h.pools, key) == IDAt(g.pools, key) && (IDAt(g.pools, key) in PoolsOf(k0, vsID) ==> IDAt(g.pools, key) in own)
    ensures Pools.OnlyOwn(k0, m, vsID, own) && Pools.OnlyOwn(k, m, vsID, own)
  {
    hide WellFormedKids, Pools.OnlyOwn, PoolIDsApart, PoolsOf, IDAt;
    RecordedIsOld(g, k0, k, vsID, key, own);
    OnlyOwnLarger(k, m, vsID, {IDAt(h.pools, key)} * PoolsOf(k, vsID), own);
    Pools.OnlyOwnChains(k0, k, m, vsID, own, own);
    assert own + own == own;
  }

  /** After one round the record's ids are still apart, and member keys still distinct. */
  lemma PoolJoins(g0: Graph, g: Graph, h: Graph, issued0: set<Id>, k: Kids, m: Kids, vsID: Id, vs: VirtualServer, pool: Pool,
                  specs: seq<MemberSpec>, own: set<Id>, id: Id)
    requires WellFormedKids(k) && WellFormedKids(m) && Pools.OnlyOwn(k, m, vsID, own) && Members.DistinctSpecs(specs)
    requires var key := PoolKeyOf(vs.name, pool.name);
             && OnlyPoolKey(g, h, key) && id == h.pools[key].externalID && IDAt(g.pools, key) == IDAt(g0.pools, key)
             && Pools.Chosen(k, vsID, pool.name, IDAt(g.pools, key), id)
             && Pools.OnlyOwn(k, m, vsID, {IDAt(g.pools, key)} * PoolsOf(k, vsID))
    requires PoolDone(m, h, vsID, vs, pool, specs) && m.pools.Keys == k.pools.Keys + {id} && AllDistinct(k, vsID)
    requires PoolIDsApart(g, k.issued) && OldOrNew(g0, g, issued0) && issued0 <= k.issued
    ensures PoolIDsApart(h, m.issued) && OldOrNew(g0, h, issued0) && issued0 <= m.issued && AllDistinct(m, vsID)
    ensures PoolKeyOf(vs.name, pool.name) in h.pools
  {
    hide WellFormedKids, Pools.OnlyOwn, PoolIDsApart, OldOrNew, AllDistinct, Pools.Chosen, Members.DistinctSpecs, OnlyPoolKey, PoolDone,
      PoolKeyOf, Members.Converged, Members.View, PoolsOf, IDAt;
    var key := PoolKeyOf(vs.name, pool.name);
    OnlyOwnFacts(k, m, vsID, own);
    DoneSays(m, h, vsID, vs, pool, specs);
    KeyIsRecorded(g, h, key);
    ApartGrows(g0, g, h, issued0, k, m, vsID, key, pool.name);
    NewPoolSet(k, m, vsID, own, id);
    StillDistinct(g0, g, k, m, vsID, key, pool.name, id, specs);
  }

  lemma KeyIsRecorded(g: Graph, h: Graph, key: string)
    requires OnlyPoolKey(g, h, key)
    ensures key in h.pools
  {
    hide PoolKey;
  }

  /** A recorded pool that is there now was there from the start. */
  lemma RecordedIsOld(g: Graph, k0: Kids, k: Kids, vsID: Id, key: string, own: set<Id>)
    requires PoolIDsApart(g, k0.issued) && WellFormedKids(k0) && WellFormedKids(k) && Pools.OnlyOwn(k0, k, vsID, own)
    requires IDAt(g.pools, key) in PoolsOf(k0, vsID) ==> IDAt(g.pools, key) in own
    ensures {IDAt(g.pools, key)} * PoolsOf(k, vsID) <= own
  {
  }

  lemma LoopStarts(g: Graph, vs: string, pools: seq<Pool>, issued: set<Id>)
    ensures KeysOf(vs, pools[..0]) == {} && AddsMonitors(g, g, MonitoredKeys(vs, pools[..0])) && OnlyPoolKeys(g, g, {}) && OldOrNew(g, g, issued)
  {
  }

  lemma RecordUntouched(g: Graph, h: Graph, keys: set<string>, key: string)
    requires OnlyPoolKeys(g, h, keys) && key !in keys
    ensures IDAt(h.pools, key) == IDAt(g.pools, key)
  {
    hide PoolKey;
  }

  lemma OwnAmongAll(g: Graph, vs: string, pools: seq<Pool>, i: nat)
    requires i < |pools|
    ensures IDAt(g.pools, PoolKeyOf(vs, pools[i].name)) in OwnIDs(g, KeysOf(vs, pools))
  {
    hide PoolKeyOf;
    assert PoolKeyOf(vs, pools[i].name) in KeysOf(vs, pools);
  }

  lemma StillDistinct(g0: Graph, g: Graph, k: Kids, m: Kids, vsID: Id, key: string, name: string, id: Id, specs: seq<MemberSpec>)
    requires WellFormedKids(k) && WellFormedKids(m) && AllDistinct(k, vsID)
    requires Pools.OnlyOwn(k, m, vsID, {IDAt(g.pools, key)} * PoolsOf(k, vsID))
    requires Pools.Chosen(k, vsID, name, IDAt(g.pools, key), id) && PoolsOf(m, vsID) == PoolsOf(k, vsID) + {id}
    requires (exists out :: Members.Converged(Members.View(m, id), specs, out)) && Members.DistinctSpecs(specs)
    ensures AllDistinct(m, vsID)
  {
    hide Members.Converged, Members.View, Members.DistinctSpecs, AllDistinct, Pools.OnlyOwn, WellFormedKids, Pools.NameTaken;
    var out :| Members.Converged(Members.View(m, id), specs, out);
    var own := IDAt(g.pools, key);
    if own != id {
      StaleIsNoPool(k, vsID, own, id, name);
    }
    StaysDistinct(k, m, vsID, {own} * PoolsOf(k, vsID), id, specs, out);
  }

  lemma StaleIsNoPool(k: Kids, vsID: Id, own: Id, id: Id, name: string)
    requires WellFormedKids(k) && Pools.Chosen(k, vsID, name, own, id) && own != id
    ensures {own} * PoolsOf(k, vsID) == {}
  {
  }

  // ----- The routing rules of a listener -----

  /** Under the listener's name the record has exactly the listed rules. */
  ghost predicate RulesOnRecord(bucket: Bucket, vs: VirtualServer, list: seq<RuleInfo>) {
    && (forall j | 0 <= j < |list| :: RuleKey(vs.name, list[j]) in bucket && bucket[RuleKey(vs.name, list[j])] == RuleEntry(vs, list[j]))
    && (forall key | key in bucket && VSName(key) == vs.name ::
          bucket[key].logicalID == key && exists j :: 0 <= j < |list| && key == RuleKey(vs.name, list[j]))
  }

  predicate DistinctRules(list: seq<RuleInfo>) {
    forall i, j | 0 <= i < |list| && 0 <= j < |list| && Rules.KeyOf(list[i].spec) == Rules.KeyOf(list[j].spec) :: i == j
  }

  lemma RuleKeysDiffer(vs: string, a: RuleInfo, b: RuleInfo)
    requires RuleKey(vs, a) == RuleKey(vs, b)
    ensures Rules.KeyOf(a.spec) == Rules.KeyOf(b.spec)
  {
    hide Rules.KeyOf;
    PrefixCancels(vs + "/", Rules.KeyOf(a.spec), Rules.KeyOf(b.spec));
  }

  lemma RuleKeyReads(vs: string, r: RuleInfo)
    requires '/' !in vs
    ensures VSName(RuleKey(vs, r)) == vs
  {
    hide Rules.KeyOf;
    VSNameReads(vs, Rules.KeyOf(r.spec));
  }

  lemma {:induction false} AddedRules(bucket: Bucket, vs: VirtualServer, list: seq<RuleInfo>)
    requires DistinctRules(list)
    ensures forall j | 0 <= j < |list| ::
              RuleKey(vs.name, list[j]) in AddRules(bucket, vs, list)
              && AddRules(bucket, vs, list)[RuleKey(vs.name, list[j])] == RuleEntry(vs, list[j])
    ensures forall key | key in AddRules(bucket, vs, list) ::
              || (exists j :: 0 <= j < |list| && key == RuleKey(vs.name, list[j]))
              || (key in bucket && AddRules(bucket, vs, list)[key] == bucket[key])
    ensures bucket.Keys <= AddRules(bucket, vs, list).Keys
  {
    hide RuleKey, RuleEntry, Rules.KeyOf;
    if list != [] {
      var n := |list| - 1;
      var before := list[..n];
      assert forall i | 0 <= i < n :: before[i] == list[i];
      AddedRules(bucket, vs, before);
      var after := AddRules(bucket, vs, list);
      assert after == AddRules(bucket, vs, before)[RuleKey(vs.name, list[n]) := RuleEntry(vs, list[n])];
      forall j | 0 <= j < |list| ensures RuleKey(vs.name, list[j]) in after && after[RuleKey(vs.name, list[j])] == RuleEntry(vs, list[j]) {
        if j < n && RuleKey(vs.name, list[j]) == RuleKey(vs.name, list[n]) {
          RuleKeysDiffer(vs.name, list[j], list[n]);
        }
      }
      forall key | key in after && !(key in bucket && after[key] == bucket[key])
        ensures exists j :: 0 <= j < |list| && key == RuleKey(vs.name, list[j])
      {
        if key != RuleKey(vs.name, list[n]) {
          var j :| 0 <= j < n && key == RuleKey(vs.name, before[j]);
          assert key == RuleKey(vs.name, list[j]);
        }
      }
    }
  }

  lemma {:induction false} AddedAreKeyed(bucket: Bucket, vs: VirtualServer, list: seq<RuleInfo>)
    requires Keyed(bucket) && forall j | 0 <= j < |list| :: list[j].id != NO_ID
    ensures Keyed(AddRules(bucket, vs, list))
  {
    hide RuleKey;
    if list != [] {
      AddedAreKeyed(bucket, vs, list[..|list| - 1]);
    }
  }

  lemma RecordedRules(bucket: Bucket, vs: VirtualServer, list: seq<RuleInfo>)
    requires '/' !in vs.name && DistinctRules(list)
    ensures var after := AddRules(WithoutVSName(bucket, vs.name), vs, list);
            RulesOnRecord(after, vs, list)
            && forall key | VSName(key) != vs.name :: (key in after <==> key in bucket) && (key in bucket ==> after[key] == bucket[key])
  {
    hide RuleKey, VSName, Rules.KeyOf;
    var rest := WithoutVSName(bucket, vs.name);
    AddedRules(rest, vs, list);
    forall j | 0 <= j < |list| ensures VSName(RuleKey(vs.name, list[j])) == vs.name {
      RuleKeyReads(vs.name, list[j]);
    }
  }

  /** What belongs to other listeners is the same. */
  ghost predicate SameElsewhere(bucket: Bucket, after: Bucket, vs: string) {
    forall key | VSName(key) != vs :: (key in after <==> key in bucket) && (key in bucket ==> after[key] == bucket[key])
  }

  lemma {:induction false} AddedElsewhere(bucket: Bucket, vs: VirtualServer, list: seq<RuleInfo>)
    requires '/' !in vs.name
    ensures SameElsewhere(bucket, AddRules(bucket, vs, list), vs.name)
  {
    hide RuleKey, VSName;
    if list != [] {
      AddedElsewhere(bucket, vs, list[..|list| - 1]);
      RuleKeyReads(vs.name, list[|list| - 1]);
    }
  }

  lemma RulesElsewhere(bucket: Bucket, vs: VirtualServer, list: seq<RuleInfo>)
    requires '/' !in vs.name
    ensures SameElsewhere(bucket, AddRules(WithoutVSName(bucket, vs.name), vs, list), vs.name)
  {
    hide RuleKey, VSName, AddRules;
    AddedElsewhere(WithoutVSName(bucket, vs.name), vs, list);
  }

  function DesiredRule(r: RoutingRule, poolIDs: map<string, Id>): RuleSpec
    requires r.poolName in poolIDs
  {
    RuleSpec(r.host, r.path, r.matchType, poolIDs[r.poolName])
  }

  ghost predicate IsDesired(rules: seq<RoutingRule>, poolIDs: map<string, Id>, desired: seq<RuleSpec>) {
    && |desired| == |rules|
    && forall i | 0 <= i < |rules| :: rules[i].poolName in poolIDs && desired[i] == DesiredRule(rules[i], poolIDs)
  }

  method DesiredRules(rules: seq<RoutingRule>, poolIDs: map<string, Id>) returns (r: Option<seq<RuleSpec>>)
    ensures r.Some? ==> IsDesired(rules, poolIDs, r.value)
    ensures r.None? ==> exists i :: 0 <= i < |rules| && rules[i].poolName !in poolIDs
  {
    var desired: seq<RuleSpec> := [];
    for i := 0 to |rules|
      invariant |desired| == i && forall j | 0 <= j < i :: rules[j].poolName in poolIDs && desired[j] == DesiredRule(rules[j], poolIDs)
    {
      if rules[i].poolName !in poolIDs {
        return None;
      }
      desired := desired + [DesiredRule(rules[i], poolIDs)];
    }
    return Some(desired);
  }

  /** The rule ids on record for a listener. */
  function OwnedRules(bucket: Bucket, vs: string): set<Id> {
    set key | key in bucket && VSName(key) == vs && bucket[key].externalID != NO_ID :: bucket[key].externalID
  }

  method OwnedRuleIDs(bucket: Bucket, vs: string) returns (r: set<Id>)
    ensures r == OwnedRules(bucket, vs)
  {
    hide VSName;
    r := {};
    var left := bucket.Keys;
    while left != {}
      invariant left <= bucket.Keys
      invariant r == set key | key in bucket && key !in left && VSName(key) == vs && bucket[key].externalID != NO_ID :: bucket[key].externalID
      decreases left
    {
      var key :| key in left;
      left := left - {key};
      if VSName(key) == vs && bucket[key].externalID != NO_ID {
        r := r + {bucket[key].externalID};
      }
    }
  }

  /** The listener's rules are as desired, and on record: of those that were there before, only foreign ones are left
      besides. `before` and `owned` are the listener's rules and the recorded ids at the start. */
  ghost predicate RulesDone(before: Rules.View, owned: set<Id>, k: Kids, g: Graph, vsID: Id, vs: VirtualServer, desired: seq<RuleSpec>) {
    exists out :: Rules.Converged(before, Rules.ViewOf(k, vsID), owned, false, desired, out) && RulesOnRecord(g.routingRules, vs, out)
  }

  lemma ConvergedRulesDistinct(before: Rules.View, v: Rules.View, owned: set<Id>, desired: seq<RuleSpec>, out: seq<RuleInfo>)
    requires Rules.Converged(before, v, owned, false, desired, out) && Rules.DistinctSpecs(desired)
    ensures DistinctRules(out)
  {
    hide Rules.KeyOf, Rules.HeldByForeign;
    forall i, j | 0 <= i < |out| && 0 <= j < |out| && Rules.KeyOf(out[i].spec) == Rules.KeyOf(out[j].spec) ensures i == j {
      assert Rules.KeyOf(desired[i]) == Rules.KeyOf(desired[j]);
    }
  }

  method EnsureRules(c: ChildClient, g: Graph, lb: Id, vsID: Id, vs: VirtualServer, rules: seq<RoutingRule>, poolIDs: map<string, Id>)
    returns (h: Graph, changed: bool, err: Option<Problem>, ghost desired: seq<RuleSpec>)
    requires c.Valid() && '/' !in vs.name
    modifies c
    ensures c.Valid() && c.faults <= old(c.faults) && Rules.OnlyRules(old(c.kids), c.kids, vsID)
    ensures h == g.(routingRules := h.routingRules) && SameElsewhere(g.routingRules, h.routingRules, vs.name)
    ensures Keyed(g.routingRules) ==> Keyed(h.routingRules)
    ensures Rules.Respects(Rules.ViewOf(old(c.kids), vsID), Rules.ViewOf(c.kids, vsID), OwnedRules(g.routingRules, vs.name), false, desired)
    ensures err.None? ==>
              && IsDesired(rules, poolIDs, desired) && (changed <==> c.calls != old(c.calls)) && old(c.calls) <= c.calls
              && (!changed ==> c.kids == old(c.kids))
              && Rules.Minimal(Rules.ViewOf(old(c.kids), vsID), vsID, OwnedRules(g.routingRules, vs.name), false, desired, c.calls[|old(c.calls)|..])
    ensures err.None? && Rules.DistinctSpecs(desired)
            && Rules.DistinctOwned(Rules.ViewOf(old(c.kids), vsID), OwnedRules(g.routingRules, vs.name), false) ==>
              RulesDone(Rules.ViewOf(old(c.kids), vsID), OwnedRules(g.routingRules, vs.name), c.kids, h, vsID, vs, desired)
    ensures RoutesKept(old(c.kids), g, vsID, vs, rules, poolIDs) ==>
              c.calls == old(c.calls) && c.kids == old(c.kids) && h == g && (err.Some? ==> c.faults < old(c.faults) || lb == NO_ID || vsID == NO_ID)
  {
    hide Rules.KeyOf, Rules.ViewOf, Rules.OnlyRules, Rules.Respects, Rules.Converged, Rules.Minimal, Rules.DistinctSpecs,
      Rules.DistinctOwned, WellFormedKids, OwnedRules, RulesOnRecord, AddRules, WithoutVSName, VSName, IsDesired, Keyed,
      RulesKept, RoutesKept, Rules.Rests;
    h, changed, desired := g, false, [];
    ghost var k0 := c.kids;
    Rules.NothingChanged(c.kids, vsID);
    ghost var before, owned0 := Rules.ViewOf(c.kids, vsID), OwnedRules(g.routingRules, vs.name);
    Rules.NothingRespects(before, owned0, false, []);
    var specs := DesiredRules(rules, poolIDs);
    if specs.None? {
      KeptAreServed(k0, g, vsID, vs, rules, poolIDs);
      err := Some(Refused);
      return;
    }
    desired := specs.value;
    ghost var kept := RoutesKept(k0, g, vsID, vs, rules, poolIDs);
    if kept {
      KeptIsResting(k0, g, vsID, vs, rules, poolIDs, desired);
    }
    var owned := OwnedRuleIDs(g.routingRules, vs.name);
    var out, changed0, failure := Rules.Ensure(c, lb, vsID, specs.value, owned, false);
    changed, err := changed0, failure;
    if err.Some? {
      return;
    }
    var rest := PruneVSName(g.routingRules, vs.name);
    var recorded := AppendRules(rest, vs, out);
    h := g.(routingRules := recorded);
    RulesElsewhere(g.routingRules, vs, out);
    if Keyed(g.routingRules) {
      PruningKeepsKeyed(g.routingRules, vs.name);
      AddedAreKeyed(rest, vs, out);
    }
    if Rules.DistinctSpecs(desired) && Rules.DistinctOwned(before, owned, false) {
      ConvergedRulesDistinct(before, Rules.ViewOf(c.kids, vsID), owned, desired, out);
      RecordedRules(g.routingRules, vs, out);
    }
    if kept {
      KeptAreDistinct(k0, g, vsID, vs, desired);
      SameRulesRecord(k0, g, vsID, vs, desired, out);
    }
  }

  /** The listener's rules on record are the desired ones already. */
  ghost predicate RulesKept(k: Kids, g: Graph, vsID: Id, vs: VirtualServer, desired: seq<RuleSpec>) {
    exists before, owned :: RulesDone(before, owned, k, g, vsID, vs, desired)
  }

  /** The rules asked for are distinct, and on record already. */
  ghost predicate RoutesKept(k: Kids, g: Graph, vsID: Id, vs: VirtualServer, rules: seq<RoutingRule>, poolIDs: map<string, Id>) {
    exists desired :: IsDesired(rules, poolIDs, desired) && Rules.DistinctSpecs(desired) && RulesKept(k, g, vsID, vs, desired)
  }

  lemma KeptAreServed(k: Kids, g: Graph, vsID: Id, vs: VirtualServer, rules: seq<RoutingRule>, poolIDs: map<string, Id>)
    ensures RoutesKept(k, g, vsID, vs, rules, poolIDs) ==> forall i | 0 <= i < |rules| :: rules[i].poolName in poolIDs
  {
    hide RulesKept, Rules.DistinctSpecs;
  }

  lemma KeptIsResting(k: Kids, g: Graph, vsID: Id, vs: VirtualServer, rules: seq<RoutingRule>, poolIDs: map<string, Id>, desired: seq<RuleSpec>)
    requires WellFormedKids(k) && '/' !in vs.name && RoutesKept(k, g, vsID, vs, rules, poolIDs) && IsDesired(rules, poolIDs, desired)
    ensures Rules.DistinctSpecs(desired) && RulesKept(k, g, vsID, vs, desired)
    ensures Rules.Rests(Rules.ViewOf(k, vsID), OwnedRules(g.routingRules, vs.name), desired)
  {
    hide Rules.ViewOf, Rules.Converged, RulesOnRecord, OwnedRules, Rules.DistinctSpecs;
    var desired0 :| IsDesired(rules, poolIDs, desired0) && Rules.DistinctSpecs(desired0) && RulesKept(k, g, vsID, vs, desired0);
    assert desired0 == desired;
    var before, owned :| RulesDone(before, owned, k, g, vsID, vs, desired);
    var out :| Rules.Converged(before, Rules.ViewOf(k, vsID), owned, false, desired, out) && RulesOnRecord(g.routingRules, vs, out);
    OwnedAreReported(k, g.routingRules, vs, vsID, before, owned, desired, out);
    assert Rules.Converged(before, Rules.ViewOf(k, vsID), owned, false, desired, out) && OwnedRules(g.routingRules, vs.name) == IDs(out);
  }

  lemma KeptAreDistinct(k: Kids, g: Graph, vsID: Id, vs: VirtualServer, desired: seq<RuleSpec>)
    requires WellFormedKids(k) && '/' !in vs.name && RulesKept(k, g, vsID, vs, desired) && Rules.DistinctSpecs(desired)
    ensures Rules.DistinctOwned(Rules.ViewOf(k, vsID), OwnedRules(g.routingRules, vs.name), false)
  {
    hide Rules.KeyOf, Rules.ViewOf, Rules.Converged, RulesOnRecord, OwnedRules, Rules.DistinctSpecs, Rules.DistinctOwned;
    var before, owned :| RulesDone(before, owned, k, g, vsID, vs, desired);
    var out :| Rules.Converged(before, Rules.ViewOf(k, vsID), owned, false, desired, out) && RulesOnRecord(g.routingRules, vs, out);
    OwnedAreReported(k, g.routingRules, vs, vsID, before, owned, desired, out);
    Rules.ConvergedIsDistinct(before, Rules.ViewOf(k, vsID), owned, desired, out);
  }

  lemma SameRulesRecord(k: Kids, g: Graph, vsID: Id, vs: VirtualServer, desired: seq<RuleSpec>, out: seq<RuleInfo>)
    requires WellFormedKids(k) && '/' !in vs.name && RulesKept(k, g, vsID, vs, desired) && Rules.DistinctSpecs(desired)
    requires Rules.Converged(Rules.ViewOf(k, vsID), Rules.ViewOf(k, vsID), OwnedRules(g.routingRules, vs.name), false, desired, out)
    ensures AddRules(WithoutVSName(g.routingRules, vs.name), vs, out) == g.routingRules
  {
    hide Rules.KeyOf, Rules.ViewOf, Rules.Converged, OwnedRules, Rules.DistinctSpecs, VSName, RuleKey, RuleEntry, AddRules, WithoutVSName;
    var before, owned :| RulesDone(before, owned, k, g, vsID, vs, desired);
    var recorded :| Rules.Converged(before, Rules.ViewOf(k, vsID), owned, false, desired, recorded) && RulesOnRecord(g.routingRules, vs, recorded);
    OwnedAreReported(k, g.routingRules, vs, vsID, before, owned, desired, recorded);
    Rules.SecondRunTellsTheSame(before, Rules.ViewOf(k, vsID), owned, desired, recorded, out);
    ConvergedRulesDistinct(before, Rules.ViewOf(k, vsID), owned, desired, out);
    RecordedRules(g.routingRules, vs, out);
    var after := AddRules(WithoutVSName(g.routingRules, vs.name), vs, out);
    forall j | 0 <= j < |out| ensures VSName(RuleKey(vs.name, out[j])) == vs.name {
      RuleKeyReads(vs.name, out[j]);
    }
    assert forall key | key in after :: key in g.routingRules && after[key] == g.routingRules[key];
    assert forall key | key in g.routingRules :: key in after;
  }

  lemma PruningKeepsKeyed(bucket: Bucket, vs: string)
    requires Keyed(bucket)
    ensures Keyed(WithoutVSName(bucket, vs))
  {
    hide VSName;
  }

  // ----- All children of one listener -----

  /** Entries of monitors and rules stay under their own logical ids. */
  ghost predicate StillKeyed(g: Graph, h: Graph) {
    (Keyed(g.monitors) ==> Keyed(h.monitors)) && (Keyed(g.routingRules) ==> Keyed(h.routingRules))
  }

  lemma PoolKeyNamesVS(key: string, vs: string, pool: string)
    requires '/' !in vs && PoolKey(key) == PoolKeyOf(vs, pool)
    ensures VSName(key) == vs
  {
    FirstSeparator(VSName(key), VSName(AfterSlash(key)), vs, pool, '/');
  }

  /** Only what belongs to one listener changes in the graph. */
  ghost predicate OnlyListener(g: Graph, h: Graph, vs: string) {
    && h == g.(pools := h.pools, members := h.members, monitors := h.monitors, routingRules := h.routingRules)
    && SameElsewhere(g.pools, h.pools, vs) && SameElsewhere(g.members, h.members, vs)
    && SameElsewhere(g.monitors, h.monitors, vs) && SameElsewhere(g.routingRules, h.routingRules, vs)
  }

  lemma PoolKeysAreListeners(g: Graph, h: Graph, vs: string, pools: seq<Pool>)
    requires OnlyPoolKeys(g, h, KeysOf(vs, pools)) && '/' !in vs && forall i | 0 <= i < |pools| :: '/' !in pools[i].name
    ensures OnlyListener(g, h, vs)
  {
    hide PoolKey, VSName;
    var keys := KeysOf(vs, pools);
    forall key | VSName(key) != vs ensures PoolKey(key) !in keys && key !in keys {
      if PoolKey(key) in keys {
        var i :| 0 <= i < |pools| && PoolKeyOf(vs, pools[i].name) == PoolKey(key);
        PoolKeyNamesVS(key, vs, pools[i].name);
      }
      forall i | 0 <= i < |pools| ensures key != PoolKeyOf(vs, pools[i].name) {
        VSNameReads(vs, pools[i].name);
      }
    }
  }

  lemma OnlyListenerChains(a: Graph, b: Graph, c: Graph, vs: string)
    requires OnlyListener(a, b, vs) && OnlyListener(b, c, vs)
    ensures OnlyListener(a, c, vs)
  {
    hide VSName;
  }

  /** The desired rules, with the ids that the graph records for the selected pools. */
  ghost predicate DesiredFor(rules: seq<RoutingRule>, g: Graph, vs: string, desired: seq<RuleSpec>) {
    && |desired| == |rules|
    && forall i | 0 <= i < |rules| ::
         && PoolKeyOf(vs, rules[i].poolName) in g.pools
         && desired[i] == RuleSpec(rules[i].host, rules[i].path, rules[i].matchType, g.pools[PoolKeyOf(vs, rules[i].poolName)].externalID)
  }

  /** Everything that hangs on the listener is as desired and on record; the rules, if the desired ones and the owned
      ones of before have distinct keys. */
  ghost predicate ListenerDone(before: Rules.View, owned: set<Id>, k: Kids, g: Graph, vsID: Id, vs: VirtualServer, stack: Stack,
                               resolve: Resolver) {
    && PoolsDone(k, g, vsID, vs, PoolsFor(stack, vs), |PoolsFor(stack, vs)|, resolve)
    && RoutesDone(before, owned, k, g, vsID, vs, stack.routingRules)
    && AllServed(stack.routingRules, PoolsFor(stack, vs))
  }

  predicate Among(pools: seq<Pool>, name: string) {
    exists j :: 0 <= j < |pools| && pools[j].name == name
  }

  /** Every rule selects one of the pools. */
  predicate AllServed(rules: seq<RoutingRule>, pools: seq<Pool>) {
    forall i | 0 <= i < |rules| :: Among(pools, rules[i].poolName)
  }

  ghost predicate RoutesDone(before: Rules.View, owned: set<Id>, k: Kids, g: Graph, vsID: Id, vs: VirtualServer, rules: seq<RoutingRule>) {
    exists desired ::
      && DesiredFor(rules, g, vs.name, desired)
      && (Rules.DistinctSpecs(desired) && Rules.DistinctOwned(before, owned, false) ==>
            RulesDone(before, owned, k, g, vsID, vs, desired))
  }

  /** The listener's rules are the desired ones and on record, as after a run with distinct keys. */
  ghost predicate RoutesRest(k: Kids, g: Graph, vsID: Id, vs: VirtualServer, rules: seq<RoutingRule>) {
    exists desired :: DesiredFor(rules, g, vs.name, desired) && Rules.DistinctSpecs(desired) && RulesKept(k, g, vsID, vs, desired)
  }

  /** Everything that hangs on the listener is as desired and on record. */
  ghost predicate ListenerRests(k: Kids, g: Graph, vsID: Id, vs: VirtualServer, stack: Stack, resolve: Resolver) {
    && PoolsDone(k, g, vsID, vs, PoolsFor(stack, vs), |PoolsFor(stack, vs)|, resolve)
    && RoutesRest(k, g, vsID, vs, stack.routingRules) && AllServed(stack.routingRules, PoolsFor(stack, vs))
  }

  lemma OwnedAreReported(k: Kids, bucket: Bucket, vs: VirtualServer, vsID: Id, before: Rules.View, owned: set<Id>, desired: seq<RuleSpec>,
                         out: seq<RuleInfo>)
    requires WellFormedKids(k) && '/' !in vs.name && RulesOnRecord(bucket, vs, out)
    requires Rules.Converged(before, Rules.ViewOf(k, vsID), owned, false, desired, out)
    ensures OwnedRules(bucket, vs.name) == IDs(out)
  {
    hide RuleKey, VSName, Rules.KeyOf, Rules.HeldByForeign;
    forall j | 0 <= j < |out| ensures out[j].id != NO_ID && VSName(RuleKey(vs.name, out[j])) == vs.name {
      RuleKeyReads(vs.name, out[j]);
      assert out[j].id in Rules.ViewOf(k, vsID);
    }
    forall id | id in OwnedRules(bucket, vs.name) ensures id in IDs(out) {
      var key :| key in bucket && VSName(key) == vs.name && bucket[key].externalID == id;
      var j :| 0 <= j < |out| && key == RuleKey(vs.name, out[j]);
    }
    forall id | id in IDs(out) ensures id in OwnedRules(bucket, vs.name) {
      var j :| 0 <= j < |out| && out[j].id == id;
      assert RuleKey(vs.name, out[j]) in bucket;
    }
  }

  lemma RestingRoutesAreKept(k: Kids, g: Graph, vsID: Id, vs: VirtualServer, rules: seq<RoutingRule>, pools: seq<Pool>,
                             poolIDs: map<string, Id>)
    requires RoutesRest(k, g, vsID, vs, rules) && AllServed(rules, pools) && poolIDs.Keys == (set i | 0 <= i < |pools| :: pools[i].name)
    requires forall i | 0 <= i < |pools| :: PoolKeyOf(vs.name, pools[i].name) in g.pools
                                            && poolIDs[pools[i].name] == g.pools[PoolKeyOf(vs.name, pools[i].name)].externalID
    ensures RoutesKept(k, g, vsID, vs, rules, poolIDs)
  {
    hide PoolKeyOf, Rules.DistinctSpecs, RulesKept;
    var desired :| DesiredFor(rules, g, vs.name, desired) && Rules.DistinctSpecs(desired) && RulesKept(k, g, vsID, vs, desired);
    forall i | 0 <= i < |rules| ensures rules[i].poolName in poolIDs && desired[i] == DesiredRule(rules[i], poolIDs) {
      assert Among(pools, rules[i].poolName);
    }
    assert IsDesired(rules, poolIDs, desired);
  }

  lemma PoolIDsAreRecorded(rules: seq<RoutingRule>, poolIDs: map<string, Id>, g: Graph, vs: string, pools: seq<Pool>, desired: seq<RuleSpec>)
    requires IsDesired(rules, poolIDs, desired) && poolIDs.Keys == (set i | 0 <= i < |pools| :: pools[i].name)
    requires forall i | 0 <= i < |pools| :: PoolKeyOf(vs, pools[i].name) in g.pools
                                            && poolIDs[pools[i].name] == g.pools[PoolKeyOf(vs, pools[i].name)].externalID
    ensures DesiredFor(rules, g, vs, desired) && AllServed(rules, pools)
  {
    hide PoolKeyOf;
    forall i | 0 <= i < |rules| ensures Among(pools, rules[i].poolName) {
      assert rules[i].poolName in poolIDs.Keys;
    }
  }

  lemma RulesKeepPools(k: Kids, m: Kids, g: Graph, h: Graph, vsID: Id, vs: VirtualServer, pools: seq<Pool>, resolve: Resolver)
    requires PoolsDone(k, g, vsID, vs, pools, |pools|, resolve) && h == g.(routingRules := h.routingRules)
    requires m.pools == k.pools && m.members == k.members && m.monitors == k.monitors && m.defaults == k.defaults
    ensures PoolsDone(m, h, vsID, vs, pools, |pools|, resolve)
  {
    hide PoolKeyOf, MembersOnRecord, Members.Converged, Monitors.Ends, SpecsOf, PoolEntry;
    forall i | 0 <= i < |pools| ensures PoolDone(m, h, vsID, vs, pools[i], SpecsOf(resolve, pools[i].members).value) {
      var specs := SpecsOf(resolve, pools[i].members).value;
      assert PoolDone(k, g, vsID, vs, pools[i], specs);
      var id := g.pools[PoolKeyOf(vs.name, pools[i].name)].externalID;
      assert Members.View(m, id) == Members.View(k, id) && Monitors.ViewOf(m, id) == Monitors.ViewOf(k, id);
      var out :| Members.Converged(Members.View(k, id), specs, out) && MembersOnRecord(g.members, vs.name, pools[i], out);
      assert MembersDone(m, h, id, vs.name, pools[i], specs);
      var monitor :| Monitors.Ends(Monitors.ViewOf(k, id), pools[i].monitor, monitor) && MonitorOnRecord(g, vs.name, pools[i], monitor);
      assert MonitorOnRecord(h, vs.name, pools[i], monitor);
    }
  }

  lemma RulesFrame(k: Kids, m: Kids, vsID: Id)
    requires Rules.OnlyRules(k, m, vsID)
    ensures m.pools == k.pools && m.members == k.members && m.monitors == k.monitors && m.defaults == k.defaults && k.issued <= m.issued
  {
  }

  lemma PoolsKeepRules(k: Kids, m: Kids, vsID: Id, own: set<Id>, any: Id)
    requires Pools.OnlyOwn(k, m, vsID, own)
    ensures Rules.ViewOf(m, any) == Rules.ViewOf(k, any)
  {
    assert RulesOf(m, any) == RulesOf(k, any);
  }

  /** The body of the listener loop after the listener itself. */
  method EnsureChildren(c: ChildClient, g: Graph, lb: Id, vsID: Id, vs: VirtualServer, stack: Stack, resolve: Resolver)
    returns (h: Graph, changed: bool, err: Option<Problem>, ghost mid: Kids)
    requires c.Valid() && AllDistinct(c.kids, vsID) && '/' !in vs.name
    requires Workable(PoolsFor(stack, vs), resolve) && PoolIDsApart(g, c.kids.issued)
    modifies c
    ensures c.Valid() && c.faults <= old(c.faults) && WellFormedKids(mid)
    ensures Pools.OnlyOwn(old(c.kids), mid, vsID, OwnIDs(g, KeysOf(vs.name, PoolsFor(stack, vs))) * PoolsOf(old(c.kids), vsID))
    ensures Rules.OnlyRules(mid, c.kids, vsID)
    ensures exists desired :: Rules.Respects(Rules.ViewOf(old(c.kids), vsID), Rules.ViewOf(c.kids, vsID),
                                             OwnedRules(g.routingRules, vs.name), false, desired)
    ensures err.None? ==>
              && ListenerDone(Rules.ViewOf(old(c.kids), vsID), OwnedRules(g.routingRules, vs.name), c.kids, h, vsID, vs, stack, resolve)
              && OnlyListener(g, h, vs.name) && PoolIDsApart(h, c.kids.issued) && OldOrNew(g, h, old(c.kids).issued)
              && AllDistinct(mid, vsID) && (changed <==> c.calls != old(c.calls)) && old(c.calls) <= c.calls
              && h.pools.Keys == g.pools.Keys + KeysOf(vs.name, PoolsFor(stack, vs))
              && AddsMonitors(g, h, MonitoredKeys(vs.name, PoolsFor(stack, vs)))
              && OffPools(g, h, KeysOf(vs.name, PoolsFor(stack, vs))) && StillKeyed(g, h)
              && (!NamesDefault(stack, vs) ==> c.kids.defaults == old(c.kids).defaults)
    ensures ListenerRests(old(c.kids), g, vsID, vs, stack, resolve) ==>
              c.calls == old(c.calls) && c.kids == old(c.kids) && h == g && (err.Some? ==> c.faults < old(c.faults) || lb == NO_ID || vsID == NO_ID)
  {
    hide OffPools, Keyed, WellFormedKids, Pools.OnlyOwn, PoolKeyOf, OnlyPoolKeys, PoolIDsApart, OldOrNew, AllDistinct, KeysOf, OwnIDs,
      SpecsOf, Rules.ViewOf, Rules.OnlyRules, Rules.Respects, Rules.DistinctSpecs, Rules.DistinctOwned, OwnedRules, PoolsDone, RulesDone,
      OnlyListener, IsDesired, DesiredFor, AllServed, VSName, Workable, PoolsFor, Rules.Minimal, SameElsewhere, RoutesRest, RulesKept,
      RoutesKept, MonitoredKeys, NamesDefault;
    ghost var k0 := c.kids;
    ghost var before, owned := Rules.ViewOf(k0, vsID), OwnedRules(g.routingRules, vs.name);
    var pools := PoolsForVirtualServer(stack, vs);
    var changed0, poolIDs, failure;
    h, changed0, poolIDs, failure := EnsurePools(c, g, lb, vsID, vs, pools, resolve);
    changed, err, mid := changed0, failure, c.kids;
    ghost var own := OwnIDs(g, KeysOf(vs.name, pools)) * PoolsOf(k0, vsID);
    PoolsKeepRules(k0, mid, vsID, own, vsID);
    Rules.NothingChanged(mid, vsID);
    Rules.NothingRespects(before, owned, false, []);
    if err.Some? {
      return;
    }
    ghost var h1 := h;
    WorkableNames(pools, resolve);
    PoolKeysAreListeners(g, h1, vs.name, pools);
    OnlyKeysFacts(g, h1, KeysOf(vs.name, pools));
    OffPoolsOf(g, h1, KeysOf(vs.name, pools));
    var changed1;
    ghost var desired := [];
    if ListenerRests(k0, g, vsID, vs, stack, resolve) {
      RestingRoutesAreKept(k0, g, vsID, vs, stack.routingRules, pools, poolIDs);
    }
    h, changed1, err, desired := EnsureRules(c, h, lb, vsID, vs, stack.routingRules, poolIDs);
    changed := changed || changed1;
    if err.Some? {
      return;
    }
    RulesFrame(mid, c.kids, vsID);
    PoolIDsAreRecorded(stack.routingRules, poolIDs, h1, vs.name, pools, desired);
    SamePools(stack.routingRules, h1, h, vs.name, desired, mid.issued, c.kids.issued, g, k0.issued);
    RulesKeepPools(mid, c.kids, h1, h, vsID, vs, pools, resolve);
    RulesAreListeners(h1, h, vs.name);
    OffPoolsRules(g, h1, h, KeysOf(vs.name, pools));
    OnlyListenerChains(g, h1, h, vs.name);
    NoneIsDefault(mid, h1, vsID, vs, stack, resolve);
  }

  lemma NoneIsDefault(k: Kids, g: Graph, vsID: Id, vs: VirtualServer, stack: Stack, resolve: Resolver)
    requires PoolsDone(k, g, vsID, vs, PoolsFor(stack, vs), |PoolsFor(stack, vs)|, resolve)
    ensures !NamesDefault(stack, vs) ==> forall i | 0 <= i < |PoolsFor(stack, vs)| :: PoolsFor(stack, vs)[i].name != vs.defaultPoolName
  {
    hide PoolKeyOf, SpecsOf, MembersDone, MonitorDone, PoolEntry, PoolsFor, IsNeeded;
    PoolsForMeans(stack, vs);
    forall i | 0 <= i < |PoolsFor(stack, vs)| && !NamesDefault(stack, vs) ensures PoolsFor(stack, vs)[i].name != vs.defaultPoolName {
      assert PoolDone(k, g, vsID, vs, PoolsFor(stack, vs)[i], SpecsOf(resolve, PoolsFor(stack, vs)[i].members).value);
      assert PoolsFor(stack, vs)[i] in PoolsFor(stack, vs);
    }
  }

  /** What belongs to none of these pools is recorded as before. */
  ghost predicate OffPools(g: Graph, h: Graph, keys: set<string>) {
    && (forall key | key in g.pools && key !in keys :: key in h.pools && h.pools[key] == g.pools[key])
    && (forall key | PoolKey(key) !in keys :: (key in h.members <==> key in g.members) && (key in g.members ==> h.members[key] == g.members[key]))
    && (forall key | key !in keys :: (key in h.monitors <==> key in g.monitors) && (key in g.monitors ==> h.monitors[key] == g.monitors[key]))
  }

  lemma OffPoolsOf(g: Graph, h: Graph, keys: set<string>)
    requires OnlyPoolKeys(g, h, keys)
    ensures OffPools(g, h, keys)
  {
    hide PoolKey;
  }

  lemma OffPoolsRules(g: Graph, h1: Graph, h: Graph, keys: set<string>)
    requires OffPools(g, h1, keys) && h == h1.(routingRules := h.routingRules)
    ensures OffPools(g, h, keys)
  {
    hide PoolKey;
  }

  lemma WorkableNames(pools: seq<Pool>, resolve: Resolver)
    requires Workable(pools, resolve)
    ensures forall i | 0 <= i < |pools| :: '/' !in pools[i].name
  {
  }

  lemma OnlyKeysFacts(g: Graph, h: Graph, keys: set<string>)
    requires OnlyPoolKeys(g, h, keys)
    ensures h.pools.Keys == g.pools.Keys + keys && h.routingRules == g.routingRules
  {
  }

  lemma SamePools(rules: seq<RoutingRule>, g: Graph, h: Graph, vs: string, desired: seq<RuleSpec>, issued: set<Id>, more: set<Id>,
                  g0: Graph, issued0: set<Id>)
    requires h.pools == g.pools && issued <= more
    ensures DesiredFor(rules, g, vs, desired) ==> DesiredFor(rules, h, vs, desired)
    ensures PoolIDsApart(g, issued) ==> PoolIDsApart(h, more)
    ensures OldOrNew(g0, g, issued0) ==> OldOrNew(g0, h, issued0)
  {
  }

  lemma RulesAreListeners(g: Graph, h: Graph, vs: string)
    requires h == g.(routingRules := h.routingRules) && SameElsewhere(g.routingRules, h.routingRules, vs)
    ensures OnlyListener(g, h, vs)
  {
  }
}
