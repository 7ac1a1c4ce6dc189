/** What the listener loop has achieved for the children of the listeners it has passed. */
module Convergence {
  import opened Common
  import opened Model
  import opened GraphKeys
  import opened Children
  import opened ListenerChildren
  import Members
  import Monitors
  import Pools
  import Recovery
  import Rules
  import Obsolete

  // ----- What a pass leaves untouched -----

  /** Pools, with their members and monitors, and rules that the stack does not own are as they were. */
  ghost predicate Untouched(k: Kids, m: Kids, own: set<Id>, ownRules: set<Id>) {
    && k.issued <= m.issued
    && (forall p | p in k.pools && p !in own ::
          p in m.pools && m.pools[p] == k.pools[p]
          && Members.View(m, p) == Members.View(k, p) && Monitors.ViewOf(m, p) == Monitors.ViewOf(k, p))
    && (forall r | r in k.rules && r !in ownRules :: r in m.rules && m.rules[r] == k.rules[r])
  }

  lemma UntouchedItself(k: Kids, own: set<Id>, ownRules: set<Id>)
    ensures Untouched(k, k, own, ownRules)
  {
  }

  lemma UntouchedChains(a: Kids, b: Kids, c: Kids, own: set<Id>, ownRules: set<Id>)
    requires Untouched(a, b, own, ownRules) && Untouched(b, c, own, ownRules)
    ensures Untouched(a, c, own, ownRules)
  {
    hide Members.View, Monitors.ViewOf;
  }

  lemma OwnPoolsUntouched(k: Kids, m: Kids, vs: Id, own: set<Id>, all: set<Id>, ownRules: set<Id>)
    requires WellFormedKids(k) && Pools.OnlyOwn(k, m, vs, own) && own <= all
    ensures Untouched(k, m, all, ownRules)
  {
    hide Members.View, Monitors.ViewOf, WellFormedKids, Pools.OnlyOwn;
    OnlyOwnFacts(k, m, vs, own);
    forall p | p in k.pools && p !in all
      ensures p in m.pools && m.pools[p] == k.pools[p]
              && Members.View(m, p) == Members.View(k, p) && Monitors.ViewOf(m, p) == Monitors.ViewOf(k, p)
    {
      OwnLeavesOthers(k, m, vs, own, p);
    }
  }

  lemma OwnRulesUntouched(k: Kids, m: Kids, vs: Id, owned: set<Id>, own: set<Id>, ownRules: set<Id>, desired: seq<RuleSpec>)
    requires Rules.OnlyRules(k, m, vs) && owned <= ownRules
    requires Rules.Respects(Rules.ViewOf(k, vs), Rules.ViewOf(m, vs), owned, false, desired)
    ensures Untouched(k, m, own, ownRules)
  {
    hide Rules.KeyOf, Rules.Keys, Rules.HeldByForeign;
    forall p | p in k.pools ensures Members.View(m, p) == Members.View(k, p) && Monitors.ViewOf(m, p) == Monitors.ViewOf(k, p) {
      assert MembersOf(m, p) == MembersOf(k, p) && MonitorsOf(m, p) == MonitorsOf(k, p);
    }
    forall r | r in k.rules && r !in ownRules ensures r in m.rules && m.rules[r] == k.rules[r] {
      if k.rules[r].listener == vs {
        assert r in Rules.ViewOf(k, vs);
        assert r in Rules.ViewOf(m, vs);
      }
    }
  }

  // ----- One listener's step leaves the others done -----

  /** No two members of a pool of one of these listeners have the same key. */
  ghost predicate KidsDistinct(k: Kids, near: iset<Id>) {
    forall p | p in k.pools && k.pools[p].listener in near :: Members.DistinctIn(k, p)
  }

  lemma DistinctEverywhere(k: Kids, near: iset<Id>, vs: Id)
    requires KidsDistinct(k, near) && vs in near
    ensures AllDistinct(k, vs)
  {
    hide Members.DistinctIn;
  }

  /** Member keys stay distinct: the pools of other listeners are untouched. */
  lemma StillDistinctEverywhere(k: Kids, mid: Kids, m: Kids, near: iset<Id>, vs: Id, own: set<Id>)
    requires WellFormedKids(k) && WellFormedKids(mid) && KidsDistinct(k, near) && Pools.OnlyOwn(k, mid, vs, own) && AllDistinct(mid, vs)
    requires own <= PoolsOf(k, vs) && m.members == mid.members && m.pools == mid.pools
    ensures KidsDistinct(m, near)
  {
    hide Members.DistinctIn;
    forall p | p in m.pools && m.pools[p].listener in near ensures Members.DistinctIn(m, p) {
      if p in PoolsOf(mid, vs) {
        SameMembersDistinct(mid, m, p);
      } else {
        assert p in k.pools && p !in own;
        OwnLeavesOthers(k, mid, vs, own, p);
        SameViewDistinct(k, mid, p);
        SameMembersDistinct(mid, m, p);
      }
    }
  }

  lemma SameMembersDistinct(k: Kids, m: Kids, p: Id)
    requires m.members == k.members && Members.DistinctIn(k, p)
    ensures Members.DistinctIn(m, p)
  {
    hide Members.KeyOf;
  }

  lemma SameViewDistinct(k: Kids, m: Kids, p: Id)
    requires Members.View(m, p) == Members.View(k, p) && Members.DistinctIn(k, p)
    ensures Members.DistinctIn(m, p)
  {
    hide Members.KeyOf;
    forall a, b | a in MembersOf(m, p) && b in MembersOf(m, p) && Members.KeyOf(m.members[a].spec) == Members.KeyOf(m.members[b].spec)
      ensures a == b
    {
      assert a in Members.View(m, p) && b in Members.View(m, p);
      assert Members.View(k, p)[a] == k.members[a].spec && Members.View(k, p)[b] == k.members[b].spec;
      assert Members.View(m, p)[a] == m.members[a].spec && Members.View(m, p)[b] == m.members[b].spec;
    }
  }

  /** What a step for one listener may change: the pools on record for it, new pools, its default, and its rules. */
  ghost predicate StepFor(k: Kids, mid: Kids, m: Kids, vsID: Id, own: set<Id>) {
    && WellFormedKids(k) && WellFormedKids(mid) && WellFormedKids(m)
    && own <= PoolsOf(k, vsID) && Pools.OnlyOwn(k, mid, vsID, own) && Rules.OnlyRules(mid, m, vsID)
  }

  lemma StepSparesPool(k: Kids, mid: Kids, m: Kids, vsID: Id, own: set<Id>, other: Id, id: Id)
    requires StepFor(k, mid, m, vsID, own) && other != vsID && id in PoolsOf(k, other)
    ensures Members.View(m, id) == Members.View(k, id) && Monitors.ViewOf(m, id) == Monitors.ViewOf(k, id)
    ensures id in m.pools && m.pools[id] == k.pools[id]
    ensures Pools.IsDefault(k, other, id) ==> Pools.IsDefault(m, other, id)
  {
    hide Members.View, Monitors.ViewOf, WellFormedKids, Pools.OnlyOwn, Rules.OnlyRules;
    OwnLeavesOthers(k, mid, vsID, own, id);
    RulesFrame(mid, m, vsID);
    SameViews(mid, m, id);
    DefaultsElsewhere(k, mid, vsID, own, other);
  }

  lemma SameViews(k: Kids, m: Kids, id: Id)
    requires m.members == k.members && m.monitors == k.monitors
    ensures Members.View(m, id) == Members.View(k, id) && Monitors.ViewOf(m, id) == Monitors.ViewOf(k, id)
  {
  }

  lemma DefaultsElsewhere(k: Kids, m: Kids, vs: Id, own: set<Id>, other: Id)
    requires Pools.OnlyOwn(k, m, vs, own) && other != vs
    ensures forall id | Pools.IsDefault(k, other, id) :: Pools.IsDefault(m, other, id)
  {
  }

  lemma StepSparesRules(k: Kids, mid: Kids, m: Kids, vsID: Id, own: set<Id>, other: Id)
    requires StepFor(k, mid, m, vsID, own) && other != vsID
    ensures Rules.ViewOf(m, other) == Rules.ViewOf(k, other)
  {
    hide Rules.ViewOf, Pools.OnlyOwn;
    PoolsKeepRules(k, mid, vsID, own, other);
    RulesElsewhereStay(mid, m, vsID, other);
  }

  lemma RulesElsewhereStay(k: Kids, m: Kids, vs: Id, other: Id)
    requires WellFormedKids(k) && Rules.OnlyRules(k, m, vs) && other != vs
    ensures Rules.ViewOf(m, other) == Rules.ViewOf(k, other)
  {
    assert RulesOf(m, other) == RulesOf(k, other);
  }

  lemma SamePoolElsewhere(g: Graph, h: Graph, vs: string, other: string, pool: string)
    requires OnlyListener(g, h, vs) && other != vs && '/' !in other && '/' !in pool && PoolKeyOf(other, pool) in g.pools
    ensures SamePoolRecord(g, h, PoolKeyOf(other, pool))
  {
    hide VSName, PoolKey;
    VSNameReads(other, pool);
    forall key | PoolKey(key) == PoolKeyOf(other, pool) ensures VSName(key) != vs {
      PoolKeyNamesVS(key, other, pool);
    }
  }

  lemma PoolsDoneStay(k: Kids, mid: Kids, m: Kids, g: Graph, h: Graph, vsID: Id, own: set<Id>, vs: string,
                      otherID: Id, other: VirtualServer, pools: seq<Pool>, resolve: Resolver)
    requires StepFor(k, mid, m, vsID, own) && otherID != vsID && OnlyListener(g, h, vs) && other.name != vs
    requires '/' !in other.name && forall i | 0 <= i < |pools| :: '/' !in pools[i].name
    requires PoolsDone(k, g, otherID, other, pools, |pools|, resolve)
    ensures PoolsDone(m, h, otherID, other, pools, |pools|, resolve)
  {
    hide StepFor, OnlyListener, PoolKeyOf, MembersDone, MonitorDone, Members.View, Monitors.ViewOf, SamePoolRecord, PoolEntry;
    forall i | 0 <= i < |pools| ensures PoolDone(m, h, otherID, other, pools[i], SpecsOf(resolve, pools[i].members).value) {
      var specs := SpecsOf(resolve, pools[i].members).value;
      var key := PoolKeyOf(other.name, pools[i].name);
      SamePoolElsewhere(g, h, vs, other.name, pools[i].name);
      StepSparesPool(k, mid, m, vsID, own, otherID, g.pools[key].externalID);
      PoolDoneStays(k, m, g, h, otherID, other, pools[i], specs);
    }
  }

  lemma RulesRecordStays(g: Bucket, h: Bucket, vs: string, other: VirtualServer, out: seq<RuleInfo>)
    requires SameElsewhere(g, h, vs) && other.name != vs && '/' !in other.name && RulesOnRecord(g, other, out)
    ensures RulesOnRecord(h, other, out)
  {
    hide RuleKey, RuleEntry, VSName;
    forall j | 0 <= j < |out| ensures RuleKey(other.name, out[j]) in h && h[RuleKey(other.name, out[j])] == RuleEntry(other, out[j]) {
      RuleKeyReads(other.name, out[j]);
    }
  }

  lemma DesiredStays(rules: seq<RoutingRule>, g: Graph, h: Graph, vs: string, other: string, desired: seq<RuleSpec>)
    requires OnlyListener(g, h, vs) && other != vs && '/' !in other && DesiredFor(rules, g, other, desired)
    ensures DesiredFor(rules, h, other, desired)
  {
    hide VSName;
    forall i | 0 <= i < |rules|
      ensures PoolKeyOf(other, rules[i].poolName) in h.pools
              && h.pools[PoolKeyOf(other, rules[i].poolName)] == g.pools[PoolKeyOf(other, rules[i].poolName)]
    {
      VSNameReads(other, rules[i].poolName);
      assert VSName(PoolKeyOf(other, rules[i].poolName)) == other;
    }
  }

  lemma RoutesDoneStay(before: Rules.View, owned: set<Id>, k: Kids, m: Kids, g: Graph, h: Graph, vs: string, otherID: Id,
                       other: VirtualServer, rules: seq<RoutingRule>)
    requires RoutesDone(before, owned, k, g, otherID, other, rules) && Rules.ViewOf(m, otherID) == Rules.ViewOf(k, otherID)
    requires OnlyListener(g, h, vs) && other.name != vs && '/' !in other.name
    ensures RoutesDone(before, owned, m, h, otherID, other, rules)
  {
    hide DesiredFor, Rules.DistinctSpecs, Rules.DistinctOwned, Rules.Converged, Rules.ViewOf, RulesOnRecord, OnlyListener, SameElsewhere;
    var desired :| DesiredFor(rules, g, other.name, desired)
      && (Rules.DistinctSpecs(desired) && Rules.DistinctOwned(before, owned, false) ==> RulesDone(before, owned, k, g, otherID, other, desired));
    DesiredStays(rules, g, h, vs, other.name, desired);
    if Rules.DistinctSpecs(desired) && Rules.DistinctOwned(before, owned, false) {
      var out :| Rules.Converged(before, Rules.ViewOf(k, otherID), owned, false, desired, out) && RulesOnRecord(g.routingRules, other, out);
      OnlyListenerRules(g, h, vs);
      RulesRecordStays(g.routingRules, h.routingRules, vs, other, out);
      assert RulesDone(before, owned, m, h, otherID, other, desired);
    }
  }

  lemma OnlyListenerRules(g: Graph, h: Graph, vs: string)
    requires OnlyListener(g, h, vs)
    ensures SameElsewhere(g.routingRules, h.routingRules, vs) && SameElsewhere(g.pools, h.pools, vs)
    ensures SameElsewhere(g.members, h.members, vs) && SameElsewhere(g.monitors, h.monitors, vs)
    ensures h.virtualServers == g.virtualServers && h.vips == g.vips && h.lbServices == g.lbServices
  {
  }

  lemma ListenerDoneStays(before: Rules.View, owned: set<Id>, k: Kids, mid: Kids, m: Kids, g: Graph, h: Graph, vsID: Id, own: set<Id>,
                          vs: string, otherID: Id, other: VirtualServer, stack: Stack, resolve: Resolver)
    requires StepFor(k, mid, m, vsID, own) && otherID != vsID && OnlyListener(g, h, vs) && other.name != vs && '/' !in other.name
    requires forall i | 0 <= i < |PoolsFor(stack, other)| :: '/' !in PoolsFor(stack, other)[i].name
    requires ListenerDone(before, owned, k, g, otherID, other, stack, resolve)
    ensures ListenerDone(before, owned, m, h, otherID, other, stack, resolve)
  {
    hide StepFor, OnlyListener, PoolsFor, PoolsDone, RoutesDone, Rules.ViewOf, AllServed;
    PoolsDoneStay(k, mid, m, g, h, vsID, own, vs, otherID, other, PoolsFor(stack, other), resolve);
    StepSparesRules(k, mid, m, vsID, own, otherID);
    RoutesDoneStay(before, owned, k, m, g, h, vs, otherID, other, stack.routingRules);
  }

  // ----- The loop -----

  function RecordedPoolIDs(g: Graph): set<Id> {
    set key | key in g.pools :: g.pools[key].externalID
  }

  function RecordedRuleIDs(g: Graph): set<Id> {
    set key | key in g.routingRules :: g.routingRules[key].externalID
  }

  /** What belongs to none of these listeners is as recorded before. */
  ghost predicate Elsewhere(g0: Graph, g: Graph, names: set<string>) {
    forall key | VSName(key) !in names ::
      && (key in g.pools <==> key in g0.pools) && (key in g0.pools ==> g.pools[key] == g0.pools[key])
      && (key in g.members <==> key in g0.members) && (key in g0.members ==> g.members[key] == g0.members[key])
      && (key in g.monitors <==> key in g0.monitors) && (key in g0.monitors ==> g.monitors[key] == g0.monitors[key])
      && (key in g.routingRules <==> key in g0.routingRules) && (key in g0.routingRules ==> g.routingRules[key] == g0.routingRules[key])
  }

  /** The pool keys of the first listeners. */
  function PoolKeysUpTo(stack: Stack, vss: seq<VirtualServer>): set<string> {
    if vss == [] then {} else PoolKeysUpTo(stack, vss[..|vss| - 1]) + KeysOf(vss[|vss| - 1].name, PoolsFor(stack, vss[|vss| - 1]))
  }

  /** Those of them that ask for a monitor. */
  function MonitorKeysUpTo(stack: Stack, vss: seq<VirtualServer>): set<string> {
    if vss == [] then {}
    else MonitorKeysUpTo(stack, vss[..|vss| - 1]) + MonitoredKeys(vss[|vss| - 1].name, PoolsFor(stack, vss[|vss| - 1]))
  }

  /** Listener names are distinct and free of slashes. */
  predicate NamesFit(vss: seq<VirtualServer>) {
    && (forall i | 0 <= i < |vss| :: '/' !in vss[i].name)
    && (forall i, j | 0 <= i < |vss| && 0 <= j < |vss| && vss[i].name == vss[j].name :: i == j)
  }

  ghost predicate StackFits(stack: Stack, resolve: Resolver) {
    NamesFit(stack.virtualServers) && Workable(stack.pools, resolve)
  }

  lemma FittingIsWorkable(stack: Stack, resolve: Resolver, vs: VirtualServer)
    requires StackFits(stack, resolve)
    ensures Workable(PoolsFor(stack, vs), resolve)
    ensures forall i | 0 <= i < |PoolsFor(stack, vs)| :: '/' !in PoolsFor(stack, vs)[i].name
  {
    hide SpecsOf, Members.DistinctSpecs, Needed;
    FilterKeepsDistinct(stack.pools, Needed(stack, vs));
    forall i | 0 <= i < |PoolsFor(stack, vs)|
      ensures '/' !in PoolsFor(stack, vs)[i].name
              && (SpecsOf(resolve, PoolsFor(stack, vs)[i].members).Some? ==> Members.DistinctSpecs(SpecsOf(resolve, PoolsFor(stack, vs)[i].members).value))
    {
      assert PoolsFor(stack, vs)[i] in stack.pools;
    }
  }

  /** After the listeners with the ids `ids`, the first of the stack: each one's children are done, and what is not
      recorded under them is untouched. `k0` and `g0` are the provider and the graph at the start. */
  predicate SameDefault(k: Kids, m: Kids, vs: Id) {
    (vs in m.defaults <==> vs in k.defaults) && (vs in k.defaults ==> m.defaults[vs] == k.defaults[vs])
  }

  /** Default pools change only where the stack names one. */
  ghost predicate DefaultsKept(k0: Kids, k: Kids, ids: seq<Id>, stack: Stack) {
    && (forall j | 0 <= j < |ids| && j < |stack.virtualServers| && !NamesDefault(stack, stack.virtualServers[j]) :: SameDefault(k0, k, ids[j]))
    && (forall v | v !in ids :: SameDefault(k0, k, v))
  }

  lemma DefaultsStep(k0: Kids, k: Kids, mid: Kids, m: Kids, ids: seq<Id>, id: Id, own: set<Id>, stack: Stack)
    requires DefaultsKept(k0, k, ids, stack) && StepFor(k, mid, m, id, own) && |ids| < |stack.virtualServers| && id !in ids
    requires !NamesDefault(stack, stack.virtualServers[|ids|]) ==> m.defaults == k.defaults
    ensures DefaultsKept(k0, m, ids + [id], stack)
  {
    hide WellFormedKids, NamesDefault;
    forall v | v != id ensures SameDefault(k, m, v) {
      OthersDefault(k, mid, id, own, v);
    }
    forall j | 0 <= j < |ids| + 1 && !NamesDefault(stack, stack.virtualServers[j]) ensures SameDefault(k0, m, (ids + [id])[j]) {
      if j < |ids| {
        assert ids[j] in ids;
      }
    }
  }

  lemma OthersDefault(k: Kids, m: Kids, vs: Id, own: set<Id>, v: Id)
    requires Pools.OnlyOwn(k, m, vs, own) && v != vs
    ensures SameDefault(k, m, v)
  {
  }

  lemma DeletesKeepDefaults(k0: Kids, k: Kids, m: Kids, own: set<Id>, ownRules: set<(Id, Id)>, ids: seq<Id>, stack: Stack)
    requires DefaultsKept(k0, k, ids, stack) && Obsolete.OnlyDeletes(k, m, own, ownRules)
    ensures DefaultsKept(k0, m, ids, stack)
  {
    hide NamesDefault;
  }

  ghost predicate ChildrenDone(k0: Kids, g0: Graph, k: Kids, g: Graph, ids: seq<Id>, stack: Stack, resolve: Resolver) {
    && |ids| <= |stack.virtualServers| && WellFormedKids(k0) && WellFormedKids(k) && k0.issued <= k.issued
    && (forall j | 0 <= j < |ids| ::
          ListenerDone(Rules.ViewOf(k0, ids[j]), OwnedRules(g0.routingRules, stack.virtualServers[j].name), k, g, ids[j],
                       stack.virtualServers[j], stack, resolve))
    && (forall v | v !in ids :: Rules.ViewOf(k, v) == Rules.ViewOf(k0, v))
    && PoolIDsApart(g, k.issued) && OldOrNew(g0, g, k0.issued) && Elsewhere(g0, g, Recovery.Names(stack.virtualServers[..|ids|]))
    && g.pools.Keys == g0.pools.Keys + PoolKeysUpTo(stack, stack.virtualServers[..|ids|])
    && AddsMonitors(g0, g, MonitorKeysUpTo(stack, stack.virtualServers[..|ids|]))
    && OffPools(g0, g, PoolKeysUpTo(stack, stack.virtualServers[..|ids|])) && StillKeyed(g0, g) && DefaultsKept(k0, k, ids, stack)
    && Untouched(k0, k, RecordedPoolIDs(g0), RecordedRuleIDs(g0))
  }

  lemma LoopBegins(k0: Kids, g0: Graph, stack: Stack, resolve: Resolver)
    requires WellFormedKids(k0) && PoolIDsApart(g0, k0.issued)
    ensures ChildrenDone(k0, g0, k0, g0, [], stack, resolve)
  {
    UntouchedItself(k0, RecordedPoolIDs(g0), RecordedRuleIDs(g0));
    assert stack.virtualServers[..0] == [];
  }

  lemma ElsewhereSteps(g0: Graph, g: Graph, h: Graph, names: set<string>, vs: string)
    requires Elsewhere(g0, g, names) && OnlyListener(g, h, vs)
    ensures Elsewhere(g0, h, names + {vs})
  {
    hide VSName;
  }

  lemma OwnAreRecorded(g0: Graph, g: Graph, names: set<string>, vs: string, pools: seq<Pool>, k: Kids)
    requires Elsewhere(g0, g, names) && vs !in names && '/' !in vs && WellFormedKids(k)
    ensures OwnIDs(g, KeysOf(vs, pools)) * k.pools.Keys <= RecordedPoolIDs(g0)
    ensures OwnedRules(g.routingRules, vs) == OwnedRules(g0.routingRules, vs) && OwnedRules(g.routingRules, vs) <= RecordedRuleIDs(g0)
  {
    hide VSName;
    forall id | id in OwnIDs(g, KeysOf(vs, pools)) && id in k.pools ensures id in RecordedPoolIDs(g0) {
      var key :| key in KeysOf(vs, pools) && IDAt(g.pools, key) == id;
      var i :| 0 <= i < |pools| && key == PoolKeyOf(vs, pools[i].name);
      VSNameReads(vs, pools[i].name);
      assert key in g0.pools && g0.pools[key].externalID == id;
    }
  }

  lemma NameIsNew(stack: Stack, resolve: Resolver, n: nat)
    requires StackFits(stack, resolve) && n < |stack.virtualServers|
    ensures stack.virtualServers[n].name !in Recovery.Names(stack.virtualServers[..n]) && '/' !in stack.virtualServers[n].name
  {
  }

  lemma OffPoolsGrow(g0: Graph, g: Graph, h: Graph, a: set<string>, b: set<string>)
    requires OffPools(g0, g, a) && OffPools(g, h, b)
    ensures OffPools(g0, h, a + b)
  {
    hide PoolKey;
  }

  /** A round touches only what was on record at the start of the loop, whether it succeeds or not. */
  lemma StepFrame(k0: Kids, g0: Graph, k: Kids, mid: Kids, m: Kids, g: Graph, ids: seq<Id>, id: Id, stack: Stack, resolve: Resolver,
                  desired: seq<RuleSpec>)
    requires StackFits(stack, resolve) && |ids| < |stack.virtualServers| && ChildrenDone(k0, g0, k, g, ids, stack, resolve)
    requires var vs := stack.virtualServers[|ids|];
             && StepFor(k, mid, m, id, OwnIDs(g, KeysOf(vs.name, PoolsFor(stack, vs))) * PoolsOf(k, id))
             && Rules.Respects(Rules.ViewOf(k, id), Rules.ViewOf(m, id), OwnedRules(g.routingRules, vs.name), false, desired)
    ensures Untouched(k0, m, RecordedPoolIDs(g0), RecordedRuleIDs(g0)) && k0.issued <= m.issued && WellFormedKids(m)
  {
    hide StepFor, PoolsFor, ListenerDone, Rules.ViewOf, Untouched, Elsewhere, OwnIDs, KeysOf, OwnedRules,
      Rules.Respects, PoolIDsApart, PoolKeysUpTo, MonitorKeysUpTo, Recovery.Names, RecordedPoolIDs, RecordedRuleIDs, OldOrNew, OffPools, StillKeyed,
      WellFormedKids;
    var n := |ids|;
    var vs := stack.virtualServers[n];
    var own := OwnIDs(g, KeysOf(vs.name, PoolsFor(stack, vs))) * PoolsOf(k, id);
    NameIsNew(stack, resolve, n);
    OwnAreRecorded(g0, g, Recovery.Names(stack.virtualServers[..n]), vs.name, PoolsFor(stack, vs), k);
    StepIsUntouched(k, mid, m, id, own, RecordedPoolIDs(g0), RecordedRuleIDs(g0), OwnedRules(g.routingRules, vs.name), desired);
    UntouchedChains(k0, k, m, RecordedPoolIDs(g0), RecordedRuleIDs(g0));
  }

  /** One round of the loop. */
  lemma LoopSteps(k0: Kids, g0: Graph, k: Kids, mid: Kids, m: Kids, g: Graph, h: Graph, ids: seq<Id>, id: Id, stack: Stack,
                  resolve: Resolver, desired: seq<RuleSpec>)
    requires StackFits(stack, resolve) && |ids| < |stack.virtualServers| && id !in ids
    requires ChildrenDone(k0, g0, k, g, ids, stack, resolve)
    requires var vs := stack.virtualServers[|ids|];
             var own := OwnIDs(g, KeysOf(vs.name, PoolsFor(stack, vs))) * PoolsOf(k, id);
             && StepFor(k, mid, m, id, own) && OnlyListener(g, h, vs.name)
             && Rules.Respects(Rules.ViewOf(k, id), Rules.ViewOf(m, id), OwnedRules(g.routingRules, vs.name), false, desired)
             && ListenerDone(Rules.ViewOf(k, id), OwnedRules(g.routingRules, vs.name), m, h, id, vs, stack, resolve)
             && PoolIDsApart(h, m.issued) && OldOrNew(g, h, k.issued)
             && h.pools.Keys == g.pools.Keys + KeysOf(vs.name, PoolsFor(stack, vs))
             && AddsMonitors(g, h, MonitoredKeys(vs.name, PoolsFor(stack, vs)))
             && OffPools(g, h, KeysOf(vs.name, PoolsFor(stack, vs))) && StillKeyed(g, h)
             && (!NamesDefault(stack, vs) ==> m.defaults == k.defaults)
    ensures ChildrenDone(k0, g0, m, h, ids + [id], stack, resolve)
  {
    hide StepFor, OnlyListener, PoolsFor, ListenerDone, Rules.ViewOf, WellFormedKids, Untouched, Elsewhere, OwnIDs,
      KeysOf, MonitoredKeys, MonitorKeysUpTo, StillKeyed, NamesFit, Workable, DefaultsKept, NamesDefault,
      AddsMonitors, OwnedRules, Rules.Respects, PoolIDsApart, PoolKeysUpTo, Recovery.Names, RecordedPoolIDs, RecordedRuleIDs,
      OldOrNew, OffPools, Keyed;
    var n := |ids|;
    var vss := stack.virtualServers;
    var vs := vss[n];
    var own := OwnIDs(g, KeysOf(vs.name, PoolsFor(stack, vs))) * PoolsOf(k, id);
    NameIsNew(stack, resolve, n);
    OwnAreRecorded(g0, g, Recovery.Names(vss[..n]), vs.name, PoolsFor(stack, vs), k);
    StepFrame(k0, g0, k, mid, m, g, ids, id, stack, resolve, desired);
    Recovery.NamesGrow(vss, n);
    ElsewhereSteps(g0, g, h, Recovery.Names(vss[..n]), vs.name);
    KeysStep(stack, vss, n);
    OffPoolsGrow(g0, g, h, PoolKeysUpTo(stack, vss[..n]), KeysOf(vs.name, PoolsFor(stack, vs)));
    MonitorsChain(g0, g, h, MonitorKeysUpTo(stack, vss[..n]), MonitoredKeys(vs.name, PoolsFor(stack, vs)));
    NoEmptyID(k0);
    OldOrNewSteps(g0, g, h, k0.issued, k.issued);
    EarlierStayDone(k0, g0, k, mid, m, g, h, ids, id, own, stack, resolve);
    StillKeyedChains(g0, g, h);
    DefaultsStep(k0, k, mid, m, ids, id, own, stack);
    forall v | v !in ids + [id] ensures Rules.ViewOf(m, v) == Rules.ViewOf(k0, v) {
      StepSparesRules(k, mid, m, id, own, v);
    }
    assert (ids + [id])[n] == id && forall j | 0 <= j < n :: (ids + [id])[j] == ids[j];
  }

  /** What was done for earlier listeners is still done. */
  lemma EarlierStayDone(k0: Kids, g0: Graph, k: Kids, mid: Kids, m: Kids, g: Graph, h: Graph, ids: seq<Id>, id: Id, own: set<Id>, stack: Stack,
                        resolve: Resolver)
    requires StackFits(stack, resolve) && |ids| < |stack.virtualServers| && id !in ids
    requires StepFor(k, mid, m, id, own) && OnlyListener(g, h, stack.virtualServers[|ids|].name)
    requires forall j | 0 <= j < |ids| ::
               ListenerDone(Rules.ViewOf(k0, ids[j]), OwnedRules(g0.routingRules, stack.virtualServers[j].name), k, g, ids[j],
                            stack.virtualServers[j], stack, resolve)
    ensures forall j | 0 <= j < |ids| ::
              ListenerDone(Rules.ViewOf(k0, ids[j]), OwnedRules(g0.routingRules, stack.virtualServers[j].name), m, h, ids[j],
                           stack.virtualServers[j], stack, resolve)
  {
    hide StepFor, OnlyListener, PoolsFor, ListenerDone, Rules.ViewOf, OwnedRules, Workable;
    var vss := stack.virtualServers;
    forall j | 0 <= j < |ids|
      ensures ListenerDone(Rules.ViewOf(k0, ids[j]), OwnedRules(g0.routingRules, vss[j].name), m, h, ids[j], vss[j], stack, resolve)
    {
      FittingIsWorkable(stack, resolve, vss[j]);
      assert ids[j] in ids;
      ListenerDoneStays(Rules.ViewOf(k0, ids[j]), OwnedRules(g0.routingRules, vss[j].name), k, mid, m, g, h, id, own, vss[|ids|].name, ids[j],
                        vss[j], stack, resolve);
    }
  }

  lemma StillKeyedChains(a: Graph, b: Graph, c: Graph)
    requires StillKeyed(a, b) && StillKeyed(b, c)
    ensures StillKeyed(a, c)
  {
  }

  lemma StepIsUntouched(k: Kids, mid: Kids, m: Kids, vsID: Id, own: set<Id>, all: set<Id>, ownRules: set<Id>, owned: set<Id>,
                        desired: seq<RuleSpec>)
    requires StepFor(k, mid, m, vsID, own) && own <= all && owned <= ownRules
    requires Rules.Respects(Rules.ViewOf(k, vsID), Rules.ViewOf(m, vsID), owned, false, desired)
    ensures Untouched(k, m, all, ownRules) && WellFormedKids(m) && k.issued <= m.issued
  {
    hide WellFormedKids, Pools.OnlyOwn, Rules.OnlyRules, Rules.Respects, Rules.ViewOf, Untouched;
    OwnPoolsUntouched(k, mid, vsID, own, all, ownRules);
    PoolsKeepRules(k, mid, vsID, own, vsID);
    OwnRulesUntouched(mid, m, vsID, owned, all, ownRules, desired);
    UntouchedChains(k, mid, m, all, ownRules);
    OnlyOwnFacts(k, mid, vsID, own);
    RulesFrame(mid, m, vsID);
  }

  lemma StepKeepsDistinct(k: Kids, mid: Kids, m: Kids, near: iset<Id>, vsID: Id, own: set<Id>)
    requires StepFor(k, mid, m, vsID, own) && KidsDistinct(k, near) && AllDistinct(mid, vsID)
    ensures KidsDistinct(m, near)
  {
    hide WellFormedKids, Pools.OnlyOwn, Rules.OnlyRules, KidsDistinct, AllDistinct;
    RulesFrame(mid, m, vsID);
    StillDistinctEverywhere(k, mid, m, near, vsID, own);
  }

  lemma KeysStep(stack: Stack, vss: seq<VirtualServer>, n: nat)
    requires n < |vss|
    ensures PoolKeysUpTo(stack, vss[..n + 1]) == PoolKeysUpTo(stack, vss[..n]) + KeysOf(vss[n].name, PoolsFor(stack, vss[n]))
    ensures MonitorKeysUpTo(stack, vss[..n + 1]) == MonitorKeysUpTo(stack, vss[..n]) + MonitoredKeys(vss[n].name, PoolsFor(stack, vss[n]))
  {
    hide KeysOf, MonitoredKeys, PoolsFor;
    assert vss[..n + 1][..n] == vss[..n];
  }

  lemma OldOrNewSteps(g0: Graph, g: Graph, h: Graph, issued0: set<Id>, issued: set<Id>)
    requires OldOrNew(g0, g, issued0) && OldOrNew(g, h, issued) && issued0 <= issued && NO_ID !in issued0
    ensures OldOrNew(g0, h, issued0)
  {
  }

  lemma NoEmptyID(k: Kids)
    requires WellFormedKids(k)
    ensures NO_ID !in k.issued
  {
  }

  // ----- Deletions of obsolete resources leave the desired ones done -----

  lemma DeletesSparePool(k: Kids, m: Kids, own: set<Id>, ownRules: set<(Id, Id)>, id: Id)
    requires Obsolete.OnlyDeletes(k, m, own, ownRules) && id !in own && id in k.pools
    ensures Members.View(m, id) == Members.View(k, id) && Monitors.ViewOf(m, id) == Monitors.ViewOf(k, id)
    ensures id in m.pools && m.pools[id] == k.pools[id] && m.defaults == k.defaults
  {
    assert MembersOf(m, id) == MembersOf(k, id);
    assert MonitorsOf(m, id) == MonitorsOf(k, id);
  }

  lemma DeletesSpareRules(k: Kids, m: Kids, own: set<Id>, ownRules: set<(Id, Id)>, vs: Id)
    requires Obsolete.OnlyDeletes(k, m, own, ownRules) && forall r | r in ownRules :: r.1 != vs
    ensures Rules.ViewOf(m, vs) == Rules.ViewOf(k, vs)
  {
    assert RulesOf(m, vs) == RulesOf(k, vs);
  }

  /** The record of one listener's pools and rules is the same. */
  ghost predicate SameListenerRecord(g: Graph, h: Graph, vs: string, pools: seq<Pool>) {
    && (forall i | 0 <= i < |pools| && PoolKeyOf(vs, pools[i].name) in g.pools :: SamePoolRecord(g, h, PoolKeyOf(vs, pools[i].name)))
    && (forall key | VSName(key) == vs :: (key in h.routingRules <==> key in g.routingRules)
                                          && (key in g.routingRules ==> h.routingRules[key] == g.routingRules[key]))
  }

  lemma RulesRecordKept(g: Bucket, h: Bucket, vs: VirtualServer, out: seq<RuleInfo>)
    requires '/' !in vs.name && RulesOnRecord(g, vs, out)
    requires forall key | VSName(key) == vs.name :: (key in h <==> key in g) && (key in g ==> h[key] == g[key])
    ensures RulesOnRecord(h, vs, out)
  {
    hide RuleKey, RuleEntry, VSName;
    forall j | 0 <= j < |out| ensures RuleKey(vs.name, out[j]) in h && h[RuleKey(vs.name, out[j])] == RuleEntry(vs, out[j]) {
      RuleKeyReads(vs.name, out[j]);
    }
  }

  lemma DeletesSparePools(k: Kids, m: Kids, own: set<Id>, ownRules: set<(Id, Id)>, g: Graph, h: Graph, id: Id, vs: VirtualServer,
                          pools: seq<Pool>, resolve: Resolver)
    requires Obsolete.OnlyDeletes(k, m, own, ownRules) && '/' !in vs.name && forall i | 0 <= i < |pools| :: '/' !in pools[i].name
    requires SameListenerRecord(g, h, vs.name, pools) && PoolsDone(k, g, id, vs, pools, |pools|, resolve)
    requires forall i | 0 <= i < |pools| && PoolKeyOf(vs.name, pools[i].name) in g.pools :: g.pools[PoolKeyOf(vs.name, pools[i].name)].externalID !in own
    ensures PoolsDone(m, h, id, vs, pools, |pools|, resolve)
  {
    hide Obsolete.OnlyDeletes, PoolKeyOf, MembersDone, MonitorDone, Members.View, Monitors.ViewOf, SamePoolRecord, SpecsOf, PoolEntry;
    forall i | 0 <= i < |pools| ensures PoolDone(m, h, id, vs, pools[i], SpecsOf(resolve, pools[i].members).value) {
      var specs := SpecsOf(resolve, pools[i].members).value;
      assert PoolDone(k, g, id, vs, pools[i], specs);
      DeletesSparePool(k, m, own, ownRules, g.pools[PoolKeyOf(vs.name, pools[i].name)].externalID);
      PoolDoneStays(k, m, g, h, id, vs, pools[i], specs);
    }
  }

  lemma DeletesSpareRoutes(before: Rules.View, owned: set<Id>, k: Kids, m: Kids, g: Graph, h: Graph, id: Id, vs: VirtualServer,
                           rules: seq<RoutingRule>, pools: seq<Pool>)
    requires RoutesDone(before, owned, k, g, id, vs, rules) && Rules.ViewOf(m, id) == Rules.ViewOf(k, id) && '/' !in vs.name
    requires SameListenerRecord(g, h, vs.name, pools)
    requires AllServed(rules, pools)
    ensures RoutesDone(before, owned, m, h, id, vs, rules)
  {
    hide Rules.DistinctSpecs, Rules.DistinctOwned, Rules.Converged, Rules.ViewOf, RulesOnRecord, VSName, AllServed;
    var desired :| DesiredFor(rules, g, vs.name, desired)
      && (Rules.DistinctSpecs(desired) && Rules.DistinctOwned(before, owned, false) ==> RulesDone(before, owned, k, g, id, vs, desired));
    SameDesired(rules, g, h, vs.name, desired, pools);
    if Rules.DistinctSpecs(desired) && Rules.DistinctOwned(before, owned, false) {
      var out :| Rules.Converged(before, Rules.ViewOf(k, id), owned, false, desired, out) && RulesOnRecord(g.routingRules, vs, out);
      RulesRecordKept(g.routingRules, h.routingRules, vs, out);
      assert RulesDone(before, owned, m, h, id, vs, desired);
    }
  }

  /** What hangs on a listener stays done when only obsolete resources of others are deleted and dropped from the record. */
  lemma ListenerDoneSurvives(before: Rules.View, owned: set<Id>, k: Kids, m: Kids, own: set<Id>, ownRules: set<(Id, Id)>, g: Graph, h: Graph,
                             id: Id, vs: VirtualServer, stack: Stack, resolve: Resolver)
    requires Obsolete.OnlyDeletes(k, m, own, ownRules) && '/' !in vs.name
    requires forall i | 0 <= i < |PoolsFor(stack, vs)| :: '/' !in PoolsFor(stack, vs)[i].name
    requires SameListenerRecord(g, h, vs.name, PoolsFor(stack, vs)) && ListenerDone(before, owned, k, g, id, vs, stack, resolve)
    requires forall i | 0 <= i < |PoolsFor(stack, vs)| && PoolKeyOf(vs.name, PoolsFor(stack, vs)[i].name) in g.pools ::
               g.pools[PoolKeyOf(vs.name, PoolsFor(stack, vs)[i].name)].externalID !in own
    requires forall r | r in ownRules :: r.1 != id
    ensures ListenerDone(before, owned, m, h, id, vs, stack, resolve)
  {
    hide Obsolete.OnlyDeletes, SameListenerRecord, PoolsFor, PoolsDone, RoutesDone, AllServed, Rules.ViewOf, PoolKeyOf;
    var pools := PoolsFor(stack, vs);
    DeletesSparePools(k, m, own, ownRules, g, h, id, vs, pools, resolve);
    DeletesSpareRules(k, m, own, ownRules, id);
    DeletesSpareRoutes(before, owned, k, m, g, h, id, vs, stack.routingRules, pools);
  }

  lemma SameDesired(rules: seq<RoutingRule>, g: Graph, h: Graph, vs: string, desired: seq<RuleSpec>, pools: seq<Pool>)
    requires SameListenerRecord(g, h, vs, pools) && DesiredFor(rules, g, vs, desired)
    requires AllServed(rules, pools)
    ensures DesiredFor(rules, h, vs, desired)
  {
    hide VSName, PoolKey, PoolKeyOf;
    forall i | 0 <= i < |rules|
      ensures PoolKeyOf(vs, rules[i].poolName) in h.pools && h.pools[PoolKeyOf(vs, rules[i].poolName)] == g.pools[PoolKeyOf(vs, rules[i].poolName)]
    {
      assert Among(pools, rules[i].poolName);
      var j :| 0 <= j < |pools| && pools[j].name == rules[i].poolName;
      assert SamePoolRecord(g, h, PoolKeyOf(vs, pools[j].name));
    }
  }
}
