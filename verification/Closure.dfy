/** The graph's keys stay a tree: what a pass does to the graph, step by step, keeps every entry under its own logical id
    and every child's parents on record. */
module Closure {
  import opened Common
  import opened Model
  import opened GraphKeys
  import Convergence
  import LC = ListenerChildren
  import Kid = Children
  import Members
  import Observed
  import Obsolete
  import Recovery
  import SD = StackDeployer

  // ----- The listener loop -----

  /** The pools that the loop has put on record are exactly the desired ones. */
  lemma {:induction false} LoopKeysAreDesired(stack: Stack, vss: seq<VirtualServer>)
    ensures Convergence.PoolKeysUpTo(stack, vss) ==
              set i, key | 0 <= i < |vss| && key in LC.KeysOf(vss[i].name, LC.PoolsFor(stack, vss[i])) :: key
  {
    hide LC.KeysOf, LC.PoolsFor;
    if vss != [] {
      var n := |vss| - 1;
      LoopKeysAreDesired(stack, vss[..n]);
      assert forall i | 0 <= i < n :: vss[..n][i] == vss[i];
    }
  }

  lemma {:induction false} LoopMonitorsAreDesired(stack: Stack, vss: seq<VirtualServer>)
    ensures Convergence.MonitorKeysUpTo(stack, vss) ==
              set i, key | 0 <= i < |vss| && key in LC.MonitoredKeys(vss[i].name, LC.PoolsFor(stack, vss[i])) :: key
  {
    hide LC.MonitoredKeys, LC.PoolsFor;
    if vss != [] {
      var n := |vss| - 1;
      LoopMonitorsAreDesired(stack, vss[..n]);
      assert forall i | 0 <= i < n :: vss[..n][i] == vss[i];
    }
  }

  lemma DesiredKeyReads(stack: Stack, resolve: LC.Resolver, key: string) returns (j: nat, i: nat)
    requires key in Obsolete.DesiredPoolKeys(stack) && Convergence.StackFits(stack, resolve)
    ensures j < |stack.virtualServers| && i < |LC.PoolsFor(stack, stack.virtualServers[j])|
    ensures key == PoolKeyOf(stack.virtualServers[j].name, LC.PoolsFor(stack, stack.virtualServers[j])[i].name)
    ensures '/' !in stack.virtualServers[j].name && '/' !in LC.PoolsFor(stack, stack.virtualServers[j])[i].name
    ensures VSName(key) == stack.virtualServers[j].name && PoolKey(key) == key
  {
    hide LC.PoolsFor, VSName, PoolKey, LC.Workable;
    j :| 0 <= j < |stack.virtualServers| && key in LC.KeysOf(stack.virtualServers[j].name, LC.PoolsFor(stack, stack.virtualServers[j]));
    var vs := stack.virtualServers[j];
    i :| 0 <= i < |LC.PoolsFor(stack, vs)| && key == PoolKeyOf(vs.name, LC.PoolsFor(stack, vs)[i].name);
    Convergence.FittingIsWorkable(stack, resolve, vs);
    VSNameReads(vs.name, LC.PoolsFor(stack, vs)[i].name);
    PoolKeyReads(vs.name, LC.PoolsFor(stack, vs)[i].name, "");
  }

  lemma DoneMembersAreKeyed(k: Kid.Kids, g: Graph, id: Id, vs: string, pool: Pool, specs: seq<Kid.MemberSpec>)
    requires Kid.WellFormedKids(k) && LC.MembersDone(k, g, id, vs, pool, specs)
    ensures forall key | key in g.members && PoolKey(key) == PoolKeyOf(vs, pool.name) ::
              g.members[key].logicalID == key && g.members[key].externalID != NO_ID
  {
    hide LC.MemberKey, PoolKey, PoolKeyOf;
    var out: seq<Kid.MemberInfo> :| Members.Converged(Members.View(k, id), specs, out) && LC.MembersOnRecord(g.members, vs, pool, out);
    forall j | 0 <= j < |out| ensures out[j].id != NO_ID {
      assert out[j].id in Members.View(k, id);
    }
  }

  lemma LoopKeepsPoolsKeyed(k0: Kid.Kids, g0: Graph, k: Kid.Kids, g: Graph, ids: seq<Id>, stack: Stack, resolve: LC.Resolver)
    requires Closed(g0) && Convergence.ChildrenDone(k0, g0, k, g, ids, stack, resolve) && |ids| == |stack.virtualServers|
    requires Convergence.StackFits(stack, resolve)
    ensures g.pools.Keys == g0.pools.Keys + Obsolete.DesiredPoolKeys(stack) && Keyed(g.pools)
    ensures forall key | key in g.members :: g.members[key].logicalID == key && g.members[key].externalID != NO_ID && PoolKey(key) in g.pools
    ensures forall key | key in g.monitors :: key in g.pools
  {
    hide LC.PoolsFor, VSName, PoolKey, LC.Workable, LC.MembersDone, LC.MonitorDone, LC.RoutesDone, LC.AllServed, PoolKeyOf,
      Convergence.Untouched, Convergence.Elsewhere, Kid.WellFormedKids, LC.SpecsOf, LC.KeysOf, LC.StillKeyed,
      LC.OldOrNew, LC.PoolIDsApart, Convergence.PoolKeysUpTo, Obsolete.DesiredPoolKeys, Convergence.StackFits, Obsolete.DesiredMonitorKeys,
      Convergence.MonitorKeysUpTo;
    assert stack.virtualServers[..|ids|] == stack.virtualServers;
    LoopKeysAre(stack);
    forall key | key in Obsolete.DesiredPoolKeys(stack)
      ensures key in g.pools && g.pools[key].logicalID == key && g.pools[key].externalID != NO_ID
      ensures forall x | x in g.members && PoolKey(x) == key :: g.members[x].logicalID == x && g.members[x].externalID != NO_ID
    {
      var j, i := DesiredKeyReads(stack, resolve, key);
      var vs := stack.virtualServers[j];
      var pool := LC.PoolsFor(stack, vs)[i];
      assert LC.PoolDone(k, g, ids[j], vs, pool, LC.SpecsOf(resolve, pool.members).value);
      DoneMembersAreKeyed(k, g, g.pools[key].externalID, vs.name, pool, LC.SpecsOf(resolve, pool.members).value);
    }
  }

  lemma LoopKeysAre(stack: Stack)
    ensures Convergence.PoolKeysUpTo(stack, stack.virtualServers) == Obsolete.DesiredPoolKeys(stack)
    ensures Convergence.MonitorKeysUpTo(stack, stack.virtualServers) == Obsolete.DesiredMonitorKeys(stack)
  {
    hide LC.KeysOf, LC.MonitoredKeys, LC.PoolsFor;
    LoopKeysAreDesired(stack, stack.virtualServers);
    LoopMonitorsAreDesired(stack, stack.virtualServers);
  }

  /** The listener loop keeps the tree. */
  lemma LoopKeepsClosed(k0: Kid.Kids, g0: Graph, k: Kid.Kids, g: Graph, ids: seq<Id>, stack: Stack, resolve: LC.Resolver)
    requires Closed(g0) && Convergence.ChildrenDone(k0, g0, k, g, ids, stack, resolve) && |ids| == |stack.virtualServers|
    requires Convergence.StackFits(stack, resolve)
    requires SD.RecordsNames(g0.virtualServers, g.virtualServers, Recovery.Names(stack.virtualServers))
    ensures Closed(g) && g.pools.Keys == g0.pools.Keys + Obsolete.DesiredPoolKeys(stack)
    ensures g.monitors.Keys == g0.monitors.Keys + Obsolete.DesiredMonitorKeys(stack)
  {
    hide LC.PoolsFor, VSName, PoolKey, LC.Workable, LC.ListenerDone, Convergence.Untouched,
      Kid.WellFormedKids, LC.OldOrNew, LC.PoolIDsApart, Convergence.PoolKeysUpTo, LC.OffPools, Convergence.StackFits,
      Obsolete.DesiredPoolKeys, Obsolete.DesiredMonitorKeys, Convergence.MonitorKeysUpTo;
    assert stack.virtualServers[..|ids|] == stack.virtualServers;
    LoopKeysAre(stack);
    LoopKeepsPoolsKeyed(k0, g0, k, g, ids, stack, resolve);
    OldPoolsKept(k0, g0, k, g, ids, stack, resolve);
    forall key | key in g.pools ensures VSName(key) in g.virtualServers && PoolKey(key) == key {
      if key !in g0.pools {
        var j, i := DesiredKeyReads(stack, resolve, key);
      }
    }
    forall key | key in g.routingRules ensures VSName(key) in g.virtualServers {
      if VSName(key) !in Recovery.Names(stack.virtualServers) {
        assert key in g0.routingRules;
      }
    }
  }

  lemma OldPoolsKept(k0: Kid.Kids, g0: Graph, k: Kid.Kids, g: Graph, ids: seq<Id>, stack: Stack, resolve: LC.Resolver)
    requires Convergence.ChildrenDone(k0, g0, k, g, ids, stack, resolve)
    ensures g0.pools.Keys <= g.pools.Keys
  {
  }

  // ----- The steps after the loop -----

  lemma SlashlessIsNoAlias(key: string)
    ensures VSName(key) != Observed.LEGACY_VS
  {
    assert Observed.LEGACY_VS[6] == '/';
  }

  /** Dropping migrated aliases keeps the tree: no child is recorded under an alias. */
  lemma DropKeepsClosed(g: Graph)
    requires Closed(g)
    ensures Closed(SD.Dropped(g))
  {
    hide VSName, PoolKey;
    Observed.DropKeepsIds(g.virtualServers, Observed.LEGACY_VS);
    forall key | VSName(key) in g.virtualServers ensures VSName(key) in SD.Dropped(g).virtualServers {
      SlashlessIsNoAlias(key);
    }
  }

  /** So does the deletion of obsolete pools, whichever they are. */
  lemma WithoutPoolsKeepsClosed(g: Graph, gone: set<string>)
    requires Closed(g)
    ensures Closed(Obsolete.WithoutPools(g, gone))
  {
    hide VSName, PoolKey;
  }

  /** And so does the deletion of obsolete listeners. */
  lemma WithoutListenersKeepsClosed(g: Graph, gone: set<string>)
    requires Closed(g)
    ensures Closed(SD.WithoutListeners(g, gone))
  {
    hide VSName, PoolKey;
  }
}
