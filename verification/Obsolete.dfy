/** deleteObsoletePools and the child loops of deleteObsoleteVirtualServers (pkg/deploy/lbaas/deployer.go): what the graph
    records and the stack no longer asks for. */
module Obsolete {
  import opened Common
  import opened Model
  import opened GraphKeys
  import opened Children
  import opened ListenerChildren
  import Monitors
  import Pools
  import Rules

  // ----- Only deletions of own resources -----

  /** `own` are pools, `ownRules` rules with the listener they are deleted at. */
  ghost predicate OnlyDeletes(k: Kids, m: Kids, own: set<Id>, ownRules: set<(Id, Id)>) {
    && Shrinks(k, m)
    && (forall id | id in k.pools && id !in own :: id in m.pools)
    && (forall id | id in k.members && k.members[id].pool !in own :: id in m.members)
    && (forall id | id in k.monitors && k.monitors[id].pool !in own :: id in m.monitors)
    && (forall id | id in k.rules && (id, k.rules[id].listener) !in ownRules :: id in m.rules)
  }

  lemma DeletesNothing(k: Kids, own: set<Id>, ownRules: set<(Id, Id)>)
    ensures OnlyDeletes(k, k, own, ownRules)
  {
  }

  lemma OnlyDeletesChains(a: Kids, b: Kids, c: Kids, own1: set<Id>, rules1: set<(Id, Id)>, own2: set<Id>, rules2: set<(Id, Id)>)
    requires OnlyDeletes(a, b, own1, rules1) && OnlyDeletes(b, c, own2, rules2)
    ensures OnlyDeletes(a, c, own1 + own2, rules1 + rules2)
  {
  }

  lemma OnlyDeletesGoesOn(a: Kids, b: Kids, c: Kids, own: set<Id>, ownRules: set<(Id, Id)>)
    requires OnlyDeletes(a, b, own, ownRules) && OnlyDeletes(b, c, own, ownRules)
    ensures OnlyDeletes(a, c, own, ownRules)
  {
    OnlyDeletesChains(a, b, c, own, ownRules, own, ownRules);
    assert own + own == own && ownRules + ownRules == ownRules;
  }

  lemma OnlyDeletesLarger(a: Kids, b: Kids, own1: set<Id>, rules1: set<(Id, Id)>, own2: set<Id>, rules2: set<(Id, Id)>)
    requires OnlyDeletes(a, b, own1, rules1) && own1 <= own2 && rules1 <= rules2
    ensures OnlyDeletes(a, b, own2, rules2)
  {
  }

  lemma DeletesChild(k: Kids, m: Kids, pool: Id, id: Id)
    requires m == k || (id in MembersOf(k, pool) && m == k.(members := k.members - {id}))
             || (id in MonitorsOf(k, pool) && m == k.(monitors := k.monitors - {id})) || (m == WithoutPool(k, pool) && id == pool)
    ensures OnlyDeletes(k, m, {pool}, {})
  {
  }

  lemma DeletesRule(k: Kids, m: Kids, vs: Id, id: Id)
    requires m == k || (id in RulesOf(k, vs) && m == k.(rules := k.rules - {id}))
    ensures OnlyDeletes(k, m, {}, {(id, vs)})
  {
  }

  // ----- One pool with what is recorded under it -----

  predicate InTree(key: string, r: Resource, poolKey: string, skipEmpty: bool) {
    PoolKey(key) == poolKey && !(skipEmpty && r.externalID == NO_ID)
  }

  /** The graph without the members of a pool, its monitor and itself. */
  function WithoutTree(g: Graph, poolKey: string, skipEmpty: bool): Graph {
    g.(pools := g.pools - {poolKey},
       members := map key | key in g.members && !InTree(key, g.members[key], poolKey, skipEmpty) :: g.members[key],
       monitors := if poolKey in g.monitors && !(skipEmpty && g.monitors[poolKey].externalID == NO_ID)
                   then g.monitors - {poolKey} else g.monitors)
  }

  method DeleteRecordedMembers(c: ChildClient, members: Bucket, vsID: Id, poolID: Id, poolKey: string, skipEmpty: bool)
    returns (rest: Bucket, changed: bool, err: Option<Problem>)
    requires c.Valid()
    modifies c
    ensures c.Valid() && c.faults <= old(c.faults) && OnlyDeletes(old(c.kids), c.kids, {poolID}, {}) && old(c.calls) <= c.calls
    ensures err.None? ==> rest == map key | key in members && !InTree(key, members[key], poolKey, skipEmpty) :: members[key]
    ensures err.None? ==> (changed <==> c.calls != old(c.calls))
  {
    hide PoolKey, OnlyDeletes, WellFormedKids;
    ghost var k0 := c.kids;
    DeletesNothing(k0, {poolID}, {});
    rest, changed, err := members, false, None;
    var left := members.Keys;
    while left != {}
      invariant left <= members.Keys && c.Valid() && c.faults <= old(c.faults) && OnlyDeletes(k0, c.kids, {poolID}, {})
      invariant rest == map key | key in members && (key in left || !InTree(key, members[key], poolKey, skipEmpty)) :: members[key]
      invariant old(c.calls) <= c.calls && (changed <==> c.calls != old(c.calls))
      decreases left
    {
      var key :| key in left;
      left := left - {key};
      var member := members[key];
      if PoolKey(key) != poolKey || (skipEmpty && member.externalID == NO_ID) {
        continue;
      }
      ghost var k := c.kids;
      var r := c.DeletePoolMember(vsID, poolID, member.externalID);
      DeletesChild(k, c.kids, poolID, member.externalID);
      OnlyDeletesGoesOn(k0, k, c.kids, {poolID}, {});
      if r.Err? {
        return rest, changed, Some(CallFailed(r.error));
      }
      rest := rest - {key};
      changed := true;
    }
  }

  function WithoutMonitor(monitors: Bucket, poolKey: string, skipEmpty: bool): Bucket {
    if poolKey in monitors && !(skipEmpty && monitors[poolKey].externalID == NO_ID) then monitors - {poolKey} else monitors
  }

  method DeleteRecordedMonitor(c: ChildClient, monitors: Bucket, lb: Id, vsID: Id, poolID: Id, poolKey: string, skipEmpty: bool)
    returns (rest: Bucket, err: Option<Problem>)
    requires c.Valid()
    modifies c
    ensures c.Valid() && c.faults <= old(c.faults) && OnlyDeletes(old(c.kids), c.kids, {poolID}, {}) && old(c.calls) <= c.calls
    ensures err.None? ==> rest == WithoutMonitor(monitors, poolKey, skipEmpty)
  {
    hide OnlyDeletes, WellFormedKids;
    ghost var k0 := c.kids;
    DeletesNothing(k0, {poolID}, {});
    rest, err := monitors, None;
    if poolKey in monitors && !(skipEmpty && monitors[poolKey].externalID == NO_ID) {
      var r := Monitors.Cleanup(c, lb, vsID, poolID, monitors[poolKey].externalID);
      DeletesChild(k0, c.kids, poolID, monitors[poolKey].externalID);
      if r.Err? {
        err := Some(CallFailed(r.error));
        return;
      }
      rest := monitors - {poolKey};
    }
  }

  /** A pool's recorded members and monitor are deleted before the pool. */
  method DeletePoolTree(c: ChildClient, g: Graph, lb: Id, vsID: Id, poolKey: string, skipEmpty: bool)
    returns (h: Graph, changed: bool, err: Option<Problem>)
    requires c.Valid() && poolKey in g.pools && lb != NO_ID && vsID != NO_ID
    modifies c
    ensures c.Valid() && c.faults <= old(c.faults) && OnlyDeletes(old(c.kids), c.kids, {g.pools[poolKey].externalID}, {})
    ensures old(c.calls) <= c.calls
    ensures err.None? ==>
              && h == WithoutTree(g, poolKey, skipEmpty) && changed
              && (g.pools[poolKey].externalID != NO_ID ==> !PoolAt(c.kids, vsID, g.pools[poolKey].externalID) && c.calls != old(c.calls))
  {
    hide PoolKey, OnlyDeletes, WellFormedKids, InTree;
    ghost var k0 := c.kids;
    var poolID := g.pools[poolKey].externalID;
    var members, monitors;
    members, changed, err := DeleteRecordedMembers(c, g.members, vsID, poolID, poolKey, skipEmpty);
    h := g.(members := members);
    if err.Some? {
      return;
    }
    ghost var k1 := c.kids;
    monitors, err := DeleteRecordedMonitor(c, g.monitors, lb, vsID, poolID, poolKey, skipEmpty);
    OnlyDeletesGoesOn(k0, k1, c.kids, {poolID}, {});
    if err.Some? {
      return;
    }
    ghost var k2, calls2 := c.kids, c.calls;
    var r := Pools.Cleanup(c, lb, vsID, poolID);
    DeletesChild(k2, c.kids, poolID, poolID);
    OnlyDeletesGoesOn(k0, k2, c.kids, {poolID}, {});
    if r.Err? {
      err := Some(CallFailed(r.error));
      return;
    }
    h := g.(pools := g.pools - {poolKey}, members := members, monitors := monitors);
    changed := true;
  }

  // ----- deleteObsoletePools -----

  /** The pools that some desired listener needs. */
  function DesiredPoolKeys(stack: Stack): set<string> {
    set i, key | 0 <= i < |stack.virtualServers| && key in KeysOf(stack.virtualServers[i].name, PoolsFor(stack, stack.virtualServers[i])) :: key
  }

  /** The keys of the desired pools that ask for a monitor. */
  function DesiredMonitorKeys(stack: Stack): set<string> {
    set i, key | 0 <= i < |stack.virtualServers| && key in MonitoredKeys(stack.virtualServers[i].name, PoolsFor(stack, stack.virtualServers[i])) :: key
  }

  method CollectDesired(stack: Stack) returns (r: set<string>)
    ensures r == DesiredPoolKeys(stack)
  {
    hide PoolsFor, KeysOf;
    r := {};
    for i := 0 to |stack.virtualServers|
      invariant r == set j, key | 0 <= j < i && key in KeysOf(stack.virtualServers[j].name, PoolsFor(stack, stack.virtualServers[j])) :: key
    {
      var pools := PoolsForVirtualServer(stack, stack.virtualServers[i]);
      var keys := CollectKeys(stack.virtualServers[i].name, pools);
      r := r + keys;
    }
  }

  method CollectKeys(vs: string, pools: seq<Pool>) returns (r: set<string>)
    ensures r == KeysOf(vs, pools)
  {
    hide PoolKeyOf;
    r := {};
    for i := 0 to |pools|
      invariant r == set j | 0 <= j < i :: PoolKeyOf(vs, pools[j].name)
    {
      r := r + {PoolKeyOf(vs, pools[i].name)};
    }
  }

  /** The graph after the pools under `gone` and what is recorded under them are dropped. */
  function WithoutPools(g: Graph, gone: set<string>): Graph {
    g.(pools := g.pools - gone,
       members := map key | key in g.members && !(PoolKey(key) in gone && g.members[key].externalID != NO_ID) :: g.members[key],
       monitors := map key | key in g.monitors && !(key in gone && g.monitors[key].externalID != NO_ID) :: g.monitors[key])
  }

  lemma WithoutOneMore(g: Graph, gone: set<string>, key: string)
    requires key in g.pools && key !in gone
    ensures WithoutTree(WithoutPools(g, gone), key, true) == WithoutPools(g, gone + {key})
  {
    hide PoolKey;
    var h := WithoutPools(g, gone);
    assert h.pools - {key} == g.pools - (gone + {key});
  }

  function ObsoletePools(g: Graph, desired: set<string>): set<string> {
    set key | key in g.pools && key !in desired && g.pools[key].externalID != NO_ID
  }

  function PoolIDs(g: Graph, keys: set<string>): set<Id> {
    set key | key in keys && key in g.pools :: g.pools[key].externalID
  }

  /** No pool of `keys` is left in the provider under the listener that its key names. */
  ghost predicate PoolsGone(k: Kids, g: Graph, keys: set<string>) {
    forall key | key in keys && key in g.pools :: !PoolAt(k, VSIDFor(g, key), g.pools[key].externalID)
  }

  lemma GoneStays(k: Kids, m: Kids, g: Graph, keys: set<string>)
    requires PoolsGone(k, g, keys) && Shrinks(k, m)
    ensures PoolsGone(m, g, keys)
  {
    hide VSIDFor;
  }

  method DeleteObsoletePools(c: ChildClient, g: Graph, lb: Id, stack: Stack)
    returns (h: Graph, changed: bool, err: Option<Problem>)
    requires c.Valid() && lb != NO_ID
    modifies c
    ensures c.Valid() && c.faults <= old(c.faults) && old(c.calls) <= c.calls
    ensures OnlyDeletes(old(c.kids), c.kids, PoolIDs(g, ObsoletePools(g, DesiredPoolKeys(stack))), {})
    ensures err.None? ==>
              && h == WithoutPools(g, ObsoletePools(g, DesiredPoolKeys(stack)))
              && PoolsGone(c.kids, g, ObsoletePools(g, DesiredPoolKeys(stack)))
              && (changed <==> c.calls != old(c.calls))
    ensures ObsoletePools(g, DesiredPoolKeys(stack)) == {} ==> err.None? && c.kids == old(c.kids) && !changed
  {
    hide PoolKey, OnlyDeletes, WellFormedKids, WithoutTree, WithoutPools, VSIDFor, DesiredPoolKeys, PoolsGone, Shrinks, PoolIDs;
    ghost var k0 := c.kids;
    var desired := CollectDesired(stack);
    ghost var own := PoolIDs(g, ObsoletePools(g, desired));
    DeletesNothing(k0, own, {});
    NothingGone(k0, g);
    h, changed, err := g, false, None;
    var left := g.pools.Keys;
    ghost var gone: set<string> := {};
    while left != {}
      invariant left <= g.pools.Keys && c.Valid() && c.faults <= old(c.faults) && OnlyDeletes(k0, c.kids, own, {})
      invariant gone == ObsoletePools(g, desired) - left && h == WithoutPools(g, gone) && PoolsGone(c.kids, g, gone)
      invariant old(c.calls) <= c.calls && (changed <==> c.calls != old(c.calls)) && (gone == {} ==> c.kids == k0 && !changed) && err.None?
      decreases left
    {
      var key :| key in left;
      ghost var left0 := left;
      left := left - {key};
      if key in desired || g.pools[key].externalID == NO_ID {
        assert ObsoletePools(g, desired) - left == ObsoletePools(g, desired) - left0;
        continue;
      }
      assert ObsoletePools(g, desired) - left == (ObsoletePools(g, desired) - left0) + {key};
      assert key in ObsoletePools(g, desired);
      KeptPool(g, gone, key);
      var vsID := VSIDFor(h, key);
      if vsID == NO_ID {
        err := Some(Refused);
        return;
      }
      ghost var k := c.kids;
      WithoutOneMore(g, gone, key);
      OwnPoolID(g, ObsoletePools(g, desired), key);
      var changed0;
      h, changed0, err := DeletePoolTree(c, h, lb, vsID, key, true);
      OnlyDeletesLarger(k, c.kids, {g.pools[key].externalID}, {}, own, {});
      OnlyDeletesGoesOn(k0, k, c.kids, own, {});
      if err.Some? {
        return;
      }
      ShrinksOf(k, c.kids, own, {});
      GoneStays(k, c.kids, g, gone);
      OneMoreGone(c.kids, g, gone, key);
      gone := gone + {key};
      changed := true;
    }
    assert gone == ObsoletePools(g, desired);
  }

  lemma NothingGone(k: Kids, g: Graph)
    ensures PoolsGone(k, g, {}) && WithoutPools(g, {}) == g
  {
    assert g.pools - {} == g.pools;
  }

  lemma KeptPool(g: Graph, gone: set<string>, key: string)
    requires key in g.pools && key !in gone
    ensures var h := WithoutPools(g, gone); key in h.pools && h.pools[key] == g.pools[key] && VSIDFor(h, key) == VSIDFor(g, key)
  {
    hide PoolKey, VSName;
  }

  lemma OwnPoolID(g: Graph, keys: set<string>, key: string)
    requires key in keys && key in g.pools
    ensures {g.pools[key].externalID} <= PoolIDs(g, keys)
  {
  }

  lemma ShrinksOf(k: Kids, m: Kids, own: set<Id>, ownRules: set<(Id, Id)>)
    requires OnlyDeletes(k, m, own, ownRules)
    ensures Shrinks(k, m)
  {
  }

  lemma OneMoreGone(k: Kids, g: Graph, keys: set<string>, key: string)
    requires PoolsGone(k, g, keys) && key in g.pools && !PoolAt(k, VSIDFor(g, key), g.pools[key].externalID)
    ensures PoolsGone(k, g, keys + {key})
  {
    hide VSIDFor;
  }

  // ----- The children of an obsolete listener -----

  function RulesUnder(g: Graph, vs: string, vsID: Id): set<(Id, Id)> {
    set key | key in g.routingRules && VSName(key) == vs :: (g.routingRules[key].externalID, vsID)
  }

  function PoolsUnder(g: Graph, vs: string): set<string> {
    set key | key in g.pools && VSName(key) == vs
  }

  method DeleteRulesUnder(c: ChildClient, g: Graph, lb: Id, vsID: Id, vs: string) returns (h: Graph, changed: bool, err: Option<Problem>)
    requires c.Valid() && lb != NO_ID && vsID != NO_ID
    modifies c
    ensures c.Valid() && c.faults <= old(c.faults) && OnlyDeletes(old(c.kids), c.kids, {}, RulesUnder(g, vs, vsID)) && old(c.calls) <= c.calls
    ensures err.None? ==>
              && h == g.(routingRules := WithoutVSName(g.routingRules, vs))
              && forall key | key in g.routingRules && VSName(key) == vs :: g.routingRules[key].externalID !in RulesOf(c.kids, vsID)
    ensures err.None? && h == g ==> c.kids == old(c.kids) && c.calls == old(c.calls) && !changed
  {
    hide VSName, OnlyDeletes, WellFormedKids, RulesOf;
    ghost var k0, own := c.kids, RulesUnder(g, vs, vsID);
    DeletesNothing(k0, {}, own);
    h, changed, err := g, false, None;
    var left := g.routingRules.Keys;
    while left != {}
      invariant left <= g.routingRules.Keys && c.Valid() && c.faults <= old(c.faults) && OnlyDeletes(k0, c.kids, {}, own)
      invariant h == g.(routingRules := map key | key in g.routingRules && (key in left || VSName(key) != vs) :: g.routingRules[key])
      invariant old(c.calls) <= c.calls
      invariant forall key | key in g.routingRules && key !in left && VSName(key) == vs :: g.routingRules[key].externalID !in RulesOf(c.kids, vsID)
      invariant (changed || c.kids != k0 || c.calls != old(c.calls)) ==> exists key :: key in g.routingRules && key !in left && VSName(key) == vs
      decreases left
    {
      var key :| key in left;
      left := left - {key};
      if VSName(key) != vs {
        continue;
      }
      var rule := g.routingRules[key].externalID;
      ghost var k := c.kids;
      var r := Rules.Cleanup(c, lb, vsID, rule);
      DeletesRule(k, c.kids, vsID, rule);
      assert (rule, vsID) in own;
      OnlyDeletesLarger(k, c.kids, {}, {(rule, vsID)}, {}, own);
      OnlyDeletesGoesOn(k0, k, c.kids, {}, own);
      if r.Err? {
        err := Some(CallFailed(r.error));
        return;
      }
      FewerRules(k, c.kids, {}, own, vsID);
      NoRuleWithoutID(c.kids, vsID);
      h := h.(routingRules := h.routingRules - {key});
      changed := true;
    }
  }

  lemma FewerRules(k: Kids, m: Kids, own: set<Id>, ownRules: set<(Id, Id)>, vs: Id)
    requires OnlyDeletes(k, m, own, ownRules)
    ensures RulesOf(m, vs) <= RulesOf(k, vs)
  {
  }

  lemma NoRuleWithoutID(k: Kids, vs: Id)
    requires WellFormedKids(k)
    ensures NO_ID !in RulesOf(k, vs)
  {
  }

  /** The graph without the pools under `gone` and everything recorded under them. */
  function WithoutTrees(g: Graph, gone: set<string>): Graph {
    g.(pools := g.pools - gone, members := UnderNone(g.members, gone), monitors := g.monitors - gone)
  }

  /** The entries that belong to none of these pools. */
  function UnderNone(bucket: Bucket, gone: set<string>): Bucket {
    map key | key in bucket && PoolKey(key) !in gone :: bucket[key]
  }

  lemma UnderNoneOfBoth(bucket: Bucket, a: set<string>, b: set<string>)
    ensures UnderNone(UnderNone(bucket, a), b) == UnderNone(bucket, a + b)
  {
    hide PoolKey;
  }

  lemma WithoutOneMoreTree(g: Graph, gone: set<string>, key: string)
    requires key in g.pools && key !in gone
    ensures WithoutTree(WithoutTrees(g, gone), key, false) == WithoutTrees(g, gone + {key})
    ensures key in WithoutTrees(g, gone).pools && WithoutTrees(g, gone).pools[key] == g.pools[key]
  {
    hide PoolKey;
    assert WithoutTrees(g, gone).pools - {key} == g.pools - (gone + {key});
  }

  method DeletePoolsUnder(c: ChildClient, g: Graph, lb: Id, vsID: Id, vs: string) returns (h: Graph, changed: bool, err: Option<Problem>)
    requires c.Valid() && lb != NO_ID && vsID != NO_ID
    modifies c
    ensures c.Valid() && c.faults <= old(c.faults) && OnlyDeletes(old(c.kids), c.kids, PoolIDs(g, PoolsUnder(g, vs)), {}) && old(c.calls) <= c.calls
    ensures err.None? ==>
              && h == WithoutTrees(g, PoolsUnder(g, vs))
              && forall key | key in PoolsUnder(g, vs) && g.pools[key].externalID != NO_ID :: !PoolAt(c.kids, vsID, g.pools[key].externalID)
    ensures err.None? && PoolsUnder(g, vs) == {} ==> c.kids == old(c.kids) && c.calls == old(c.calls) && !changed
  {
    hide VSName, PoolKey, OnlyDeletes, WellFormedKids, WithoutTree, WithoutTrees, PoolIDs, Shrinks;
    ghost var k0, own := c.kids, PoolIDs(g, PoolsUnder(g, vs));
    DeletesNothing(k0, own, {});
    NoTrees(g);
    h, changed, err := g, false, None;
    var left := g.pools.Keys;
    ghost var gone: set<string> := {};
    while left != {}
      invariant left <= g.pools.Keys && c.Valid() && c.faults <= old(c.faults) && OnlyDeletes(k0, c.kids, own, {})
      invariant gone == PoolsUnder(g, vs) - left && h == WithoutTrees(g, gone) && old(c.calls) <= c.calls
      invariant forall key | key in gone && g.pools[key].externalID != NO_ID :: !PoolAt(c.kids, vsID, g.pools[key].externalID)
      invariant gone == {} ==> c.kids == k0 && c.calls == old(c.calls) && !changed
      decreases left
    {
      var key :| key in left;
      ghost var left0 := left;
      left := left - {key};
      if VSName(key) != vs {
        assert PoolsUnder(g, vs) - left == PoolsUnder(g, vs) - left0;
        continue;
      }
      assert PoolsUnder(g, vs) - left == (PoolsUnder(g, vs) - left0) + {key};
      ghost var k := c.kids;
      WithoutOneMoreTree(g, gone, key);
      OwnPoolID(g, PoolsUnder(g, vs), key);
      var changed0;
      h, changed0, err := DeletePoolTree(c, h, lb, vsID, key, false);
      OnlyDeletesLarger(k, c.kids, {g.pools[key].externalID}, {}, own, {});
      OnlyDeletesGoesOn(k0, k, c.kids, own, {});
      if err.Some? {
        return;
      }
      ShrinksOf(k, c.kids, own, {});
      forall x | x in gone && g.pools[x].externalID != NO_ID ensures !PoolAt(c.kids, vsID, g.pools[x].externalID) {
        PoolStaysGone(k, c.kids, vsID, g.pools[x].externalID);
      }
      gone := gone + {key};
      changed := true;
    }
    assert gone == PoolsUnder(g, vs);
  }

  lemma PoolStaysGone(k: Kids, m: Kids, vs: Id, id: Id)
    requires Shrinks(k, m) && !PoolAt(k, vs, id)
    ensures !PoolAt(m, vs, id)
  {
  }

  lemma NoTrees(g: Graph)
    ensures WithoutTrees(g, {}) == g
  {
    assert g.pools - {} == g.pools && g.monitors - {} == g.monitors;
  }

  /** The graph without anything that hangs on a listener. */
  function WithoutChildren(g: Graph, vs: string): Graph {
    WithoutTrees(g.(routingRules := WithoutVSName(g.routingRules, vs)), PoolsUnder(g, vs))
  }

  /** What an obsolete listener has on record is deleted before the listener: rules, members, monitors, pools. */
  method DeleteListenerTree(c: ChildClient, g: Graph, lb: Id, vsID: Id, vs: string) returns (h: Graph, changed: bool, err: Option<Problem>)
    requires c.Valid() && lb != NO_ID && vsID != NO_ID
    modifies c
    ensures c.Valid() && c.faults <= old(c.faults) && old(c.calls) <= c.calls
    ensures OnlyDeletes(old(c.kids), c.kids, PoolIDs(g, PoolsUnder(g, vs)), RulesUnder(g, vs, vsID))
    ensures err.None? ==>
              && h == WithoutChildren(g, vs)
              && (forall key | key in g.routingRules && VSName(key) == vs :: g.routingRules[key].externalID !in RulesOf(c.kids, vsID))
              && (forall key | key in PoolsUnder(g, vs) && g.pools[key].externalID != NO_ID :: !PoolAt(c.kids, vsID, g.pools[key].externalID))
  {
    hide VSName, PoolKey, OnlyDeletes, WellFormedKids, WithoutTrees, PoolIDs, Shrinks, RulesOf, WithoutVSName, RulesUnder;
    ghost var k0 := c.kids;
    var changed0, changed1;
    h, changed0, err := DeleteRulesUnder(c, g, lb, vsID, vs);
    changed := changed0;
    ghost var k1 := c.kids;
    OnlyDeletesLarger(k0, k1, {}, RulesUnder(g, vs, vsID), PoolIDs(g, PoolsUnder(g, vs)), RulesUnder(g, vs, vsID));
    if err.Some? {
      return;
    }
    ghost var h1 := h;
    SamePoolsUnder(g, h1, vs);
    h, changed1, err := DeletePoolsUnder(c, h, lb, vsID, vs);
    changed := changed0 || changed1;
    OnlyDeletesLarger(k1, c.kids, PoolIDs(g, PoolsUnder(g, vs)), {}, PoolIDs(g, PoolsUnder(g, vs)), RulesUnder(g, vs, vsID));
    OnlyDeletesGoesOn(k0, k1, c.kids, PoolIDs(g, PoolsUnder(g, vs)), RulesUnder(g, vs, vsID));
    FewerRules(k1, c.kids, PoolIDs(g, PoolsUnder(g, vs)), RulesUnder(g, vs, vsID), vsID);
  }

  lemma SamePoolsUnder(g: Graph, h: Graph, vs: string)
    requires h.pools == g.pools
    ensures PoolsUnder(h, vs) == PoolsUnder(g, vs) && PoolIDs(h, PoolsUnder(g, vs)) == PoolIDs(g, PoolsUnder(g, vs))
  {
    hide VSName;
  }
}
