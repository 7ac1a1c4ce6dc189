/** What a full pass has achieved, said of the stack and the provider themselves. */
module StackMeaning {
  import opened Common
  import opened Model
  import opened Cluster
  import opened Text
  import opened GraphKeys
  import opened Deployer
  import opened StackDeployer
  import opened StackPass
  import Closure
  import Convergence
  import DesiredHash
  import VirtualServers
  import Kid = Children
  import LC = ListenerChildren
  import Members
  import Monitors
  import Obsolete
  import Pools
  import Rules

  /** The member requests of a pool's backends. */
  predicate Resolved(resolve: LC.Resolver, backends: seq<BackendMember>, specs: seq<Kid.MemberSpec>) {
    |specs| == |backends| && forall i | 0 <= i < |backends| :: resolve(backends[i]) == Some(specs[i])
  }

  /** The pool has the monitor asked for and no other, or none if none is asked for. */
  ghost predicate MonitorStands(k: Kid.Kids, g: Graph, key: string, pool: Id, desired: Option<Monitor>, owner: Ownership) {
    match desired
    case None => forall id | id in k.monitors :: k.monitors[id].pool != pool
    case Some(d) =>
      exists id :: id in k.monitors && k.monitors[id].pool == pool && (forall x | x in k.monitors && k.monitors[x].pool == pool :: x == id)
        && var spec := k.monitors[id].spec;
           && spec.name == (if d.name == "" then "default-monitor" else d.name)
           && EqualFold(spec.protocol, d.kind) && spec.path == d.path && spec.interval == d.interval
           && key in g.monitors && g.monitors[key] == Resource(key, id, spec.name, "", "", owner)
  }

  /** The pool is on record under its own key, and at the provider under the listener, with exactly the members and the monitor
      asked for; and it is the default if it is named so. */
  ghost predicate PoolStands(k: Kid.Kids, g: Graph, vsID: Id, vs: VirtualServer, pool: Pool, resolve: LC.Resolver) {
    var key := PoolKeyOf(vs.name, pool.name);
    && key in g.pools && var id := g.pools[key].externalID;
    && id != NO_ID && id in k.pools && k.pools[id].listener == vsID
    && g.pools[key] == Resource(key, id, k.pools[id].name, "", "", pool.ownership)
    && HasMembers(k, id, pool, resolve) && MembersRecorded(k, g, key, id, pool.ownership)
    && MonitorStands(k, g, key, id, pool.monitor, pool.ownership)
    && (pool.name == vs.defaultPoolName ==> vsID in k.defaults && k.defaults[vsID] == id)
  }

  ghost predicate HasMembers(k: Kid.Kids, id: Id, pool: Pool, resolve: LC.Resolver) {
    exists specs, out :: Resolved(resolve, pool.members, specs) && Members.Holds(k, id, specs, out)
  }

  /** Each member of the pool is on record, with its address. */
  ghost predicate MembersRecorded(k: Kid.Kids, g: Graph, poolKey: string, pool: Id, owner: Ownership) {
    forall id | id in k.members && k.members[id].pool == pool :: MemberRecorded(g, poolKey, id, k.members[id].spec, owner)
  }

  ghost predicate MemberRecorded(g: Graph, poolKey: string, id: Id, spec: Kid.MemberSpec, owner: Ownership) {
    exists key :: key in g.members && poolKey + "/" <= key
                  && g.members[key] == Resource(key, id, spec.resourceIP + ":" + Itoa(spec.port), "", "", owner)
  }

  lemma {:induction false} SpecsMean(resolve: LC.Resolver, backends: seq<BackendMember>)
    ensures LC.SpecsOf(resolve, backends).Some? ==> Resolved(resolve, backends, LC.SpecsOf(resolve, backends).value)
    decreases |backends|
  {
    if backends != [] {
      SpecsMean(resolve, backends[..|backends| - 1]);
    }
  }

  lemma MonitorMeans(k: Kid.Kids, g: Graph, id: Id, vs: string, pool: Pool)
    requires LC.MonitorDone(k, g, id, vs, pool)
    ensures MonitorStands(k, g, PoolKeyOf(vs, pool.name), id, pool.monitor, pool.ownership)
  {
    hide EqualFold, PoolKeyOf;
    var m :| Monitors.Ends(Monitors.ViewOf(k, id), pool.monitor, m) && LC.MonitorOnRecord(g, vs, pool, m);
    assert forall x | x in k.monitors && k.monitors[x].pool == id :: x in Monitors.ViewOf(k, id);
    if pool.monitor.Some? {
      assert m.id in Monitors.ViewOf(k, id);
    }
  }

  lemma MembersMean(k: Kid.Kids, g: Graph, id: Id, vs: string, pool: Pool, resolve: LC.Resolver)
    requires LC.SpecsOf(resolve, pool.members).Some? && LC.MembersDone(k, g, id, vs, pool, LC.SpecsOf(resolve, pool.members).value)
    requires Members.DistinctSpecs(LC.SpecsOf(resolve, pool.members).value)
    ensures HasMembers(k, id, pool, resolve) && MembersRecorded(k, g, PoolKeyOf(vs, pool.name), id, pool.ownership)
  {
    hide PoolKeyOf, Members.Holds, Members.Converged, Members.View, Members.DistinctSpecs, LC.MembersOnRecord;
    var specs := LC.SpecsOf(resolve, pool.members).value;
    var out: seq<Kid.MemberInfo> :| Members.Converged(Members.View(k, id), specs, out) && LC.MembersOnRecord(g.members, vs, pool, out);
    SpecsMean(resolve, pool.members);
    Members.ConvergedHolds(k, id, specs, out);
    ConvergedIsRecorded(k, g, id, vs, pool, specs, out);
  }

  lemma ConvergedIsRecorded(k: Kid.Kids, g: Graph, id: Id, vs: string, pool: Pool, specs: seq<Kid.MemberSpec>, out: seq<Kid.MemberInfo>)
    requires Members.Converged(Members.View(k, id), specs, out) && LC.MembersOnRecord(g.members, vs, pool, out)
    ensures MembersRecorded(k, g, PoolKeyOf(vs, pool.name), id, pool.ownership)
  {
    hide Members.KeyOf, Members.Matches, Itoa;
    forall x | x in k.members && k.members[x].pool == id ensures MemberRecorded(g, PoolKeyOf(vs, pool.name), x, k.members[x].spec, pool.ownership) {
      assert x in Members.View(k, id);
      var j :| 0 <= j < |out| && out[j].id == x;
      var key := LC.MemberKey(vs, pool.name, out[j]);
      assert key in g.members && g.members[key] == LC.MemberEntry(vs, pool, out[j]);
      assert PoolKeyOf(vs, pool.name) + "/" <= key;
    }
  }

  lemma DoneStands(k: Kid.Kids, g: Graph, vsID: Id, vs: VirtualServer, pool: Pool, resolve: LC.Resolver)
    requires LC.SpecsOf(resolve, pool.members).Some? && LC.PoolDone(k, g, vsID, vs, pool, LC.SpecsOf(resolve, pool.members).value)
    requires Members.DistinctSpecs(LC.SpecsOf(resolve, pool.members).value)
    ensures PoolStands(k, g, vsID, vs, pool, resolve)
  {
    hide PoolKeyOf, HasMembers, MembersRecorded, MonitorStands, LC.MembersDone, LC.MonitorDone, Members.DistinctSpecs, LC.SpecsOf;
    var id := g.pools[PoolKeyOf(vs.name, pool.name)].externalID;
    MembersMean(k, g, id, vs.name, pool, resolve);
    MonitorMeans(k, g, id, vs.name, pool);
  }

  /** After a full pass every pool of the stack that a listener needs, as its default or for a rule, stands. */
  lemma NeededPoolsStand(n: Net, k0: Kid.Kids, given: Graph, k: Kid.Kids, g: Graph, lb: Id, vip: Id, req: Request, vsID: Id, ids: seq<Id>,
                         j: nat, pool: Pool)
    requires Achieved(n, k0, given, k, g, lb, vip, req, vsID, ids) && !req.aggregate
    requires j < |req.stack.virtualServers| && pool in req.stack.pools && LC.IsNeeded(req.stack, req.stack.virtualServers[j], pool)
    ensures var vs := req.stack.virtualServers[j];
            && vs.name in g.virtualServers && g.virtualServers[vs.name].externalID == ids[j]
            && PoolStands(k, g, ids[j], vs, pool, req.resolve)
  {
    hide Hashed, Orderly, ListenersSettled, PoolsSettled, PoolKeyOf, LC.PoolsFor, LC.SpecsOf, LC.IsNeeded, LC.PoolDone, LC.RoutesDone,
      LC.AllServed, PoolStands, Closed, ExactKeys, ExactMonitors, Convergence.KidsDistinct, Convergence.DefaultsKept, LC.PoolIDsApart,
      Members.DistinctSpecs, LC.Workable, Near, Stands;
    var vs := req.stack.virtualServers[j];
    var pools := LC.PoolsFor(req.stack, vs);
    LC.PoolsForMeans(req.stack, vs);
    var i :| 0 <= i < |pools| && pools[i] == pool;
    assert LC.ListenerDone(Rules.ViewOf(k0, ids[j]), LC.OwnedRules(given.routingRules, vs.name), k, g, ids[j], vs, req.stack, req.resolve);
    Convergence.FittingIsWorkable(req.stack, req.resolve, vs);
    WorkableSpecs(pools, req.resolve, i);
    DoneStands(k, g, ids[j], vs, pool, req.resolve);
  }

  lemma WorkableSpecs(pools: seq<Pool>, resolve: LC.Resolver, i: nat)
    requires LC.Workable(pools, resolve) && i < |pools|
    ensures LC.SpecsOf(resolve, pools[i].members).Some? ==> Members.DistinctSpecs(LC.SpecsOf(resolve, pools[i].members).value)
    ensures '/' !in pools[i].name
  {
    hide LC.SpecsOf, Members.DistinctSpecs;
  }

  /** And over a tree of keys no other pool is on record. */
  lemma OnlyNeededPoolsStand(n: Net, k0: Kid.Kids, given: Graph, k: Kid.Kids, g: Graph, lb: Id, vip: Id, req: Request, vsID: Id, ids: seq<Id>,
                             key: string)
    returns (j: nat, pool: Pool)
    requires Achieved(n, k0, given, k, g, lb, vip, req, vsID, ids) && Closed(given) && !req.aggregate && key in g.pools
    ensures j < |req.stack.virtualServers| && pool in req.stack.pools && LC.IsNeeded(req.stack, req.stack.virtualServers[j], pool)
    ensures key == PoolKeyOf(req.stack.virtualServers[j].name, pool.name) && VSName(key) == req.stack.virtualServers[j].name
  {
    hide Standing, Hashed, Orderly, ListenersSettled, PoolsSettled, PoolKeyOf, LC.PoolsFor, LC.IsNeeded, AllDone, Closed, ExactMonitors,
      Convergence.KidsDistinct, LC.PoolIDsApart, LC.Workable, Near, VSName, PoolKey, Obsolete.DesiredPoolKeys;
    var i;
    j, i := Closure.DesiredKeyReads(req.stack, req.resolve, key);
    pool := LC.PoolsFor(req.stack, req.stack.virtualServers[j])[i];
    LC.PoolsForMeans(req.stack, req.stack.virtualServers[j]);
  }

  /** Where the stack has the listener's default pool, that one is the provider's default and no other; where it has none, the
      default is what it was before the pass. */
  lemma DefaultsMean(n: Net, k0: Kid.Kids, given: Graph, k: Kid.Kids, g: Graph, lb: Id, vip: Id, req: Request, vsID: Id, ids: seq<Id>, j: nat)
    requires Achieved(n, k0, given, k, g, lb, vip, req, vsID, ids) && !req.aggregate && j < |req.stack.virtualServers|
    ensures var vs := req.stack.virtualServers[j];
            && (forall pool | pool in req.stack.pools && LC.IsNeeded(req.stack, vs, pool) && LC.NamesDefault(req.stack, vs) ::
                  PoolKeyOf(vs.name, pool.name) in g.pools
                  && (Pools.IsDefault(k, ids[j], g.pools[PoolKeyOf(vs.name, pool.name)].externalID) <==> pool.name == vs.defaultPoolName))
            && (!LC.NamesDefault(req.stack, vs) ==> Convergence.SameDefault(k0, k, ids[j]))
  {
    hide Standing, Hashed, Orderly, ListenersSettled, PoolsSettled, PoolKeyOf, LC.PoolsFor, LC.IsNeeded, LC.ListenerDone, Closed, ExactKeys,
      ExactMonitors, Convergence.KidsDistinct, Near, LC.Workable, HasMembers, MembersRecorded, MonitorStands;
    var vs := req.stack.virtualServers[j];
    if LC.NamesDefault(req.stack, vs) {
      var chosen :| chosen in req.stack.pools && chosen.name == vs.defaultPoolName;
      DefaultIsNeeded(req.stack, vs, chosen);
      NeededPoolsStand(n, k0, given, k, g, lb, vip, req, vsID, ids, j, chosen);
      forall pool | pool in req.stack.pools && LC.IsNeeded(req.stack, vs, pool)
        ensures PoolKeyOf(vs.name, pool.name) in g.pools
        ensures Pools.IsDefault(k, ids[j], g.pools[PoolKeyOf(vs.name, pool.name)].externalID) <==> pool.name == vs.defaultPoolName
      {
        NeededPoolsStand(n, k0, given, k, g, lb, vip, req, vsID, ids, j, pool);
        if g.pools[PoolKeyOf(vs.name, pool.name)].externalID == g.pools[PoolKeyOf(vs.name, chosen.name)].externalID {
          OtherPoolOtherID(n, k0, given, k, g, lb, vip, req, vsID, ids, vs, pool, chosen);
        }
      }
    }
  }

  // ----- Listeners -----

  /** Every listener of the stack is on record with its owner and the digest of its configuration and backends, and stands. */
  lemma ListenersStand(n: Net, k0: Kid.Kids, given: Graph, k: Kid.Kids, g: Graph, lb: Id, vip: Id, req: Request, vsID: Id, ids: seq<Id>, j: nat)
    returns (backends: seq<BackendMember>)
    requires Achieved(n, k0, given, k, g, lb, vip, req, vsID, ids) && j < |req.stack.virtualServers|
    ensures |ids| == |req.stack.virtualServers| && ids[j] != NO_ID && AreBackends(req.stack, req.stack.virtualServers[j], backends)
    ensures var vs := req.stack.virtualServers[j];
            && vs.name in g.virtualServers
            && g.virtualServers[vs.name] == Resource(vs.name, ids[j], vs.name, "", DesiredHash.ServerHash(req.sha, vs, backends), vs.ownership)
            && (lb in n.lbs ==> ids[j] in n.listeners && n.listeners[ids[j]].status != DELETING)
            && (ids[j] in n.listeners ==> n.listeners[ids[j]].lb == lb && n.listeners[ids[j]].name == vs.name
                                          && VirtualServers.OnFrontend(n.listeners[ids[j]], vip, vs))
  {
    hide Orderly, ListenersSettled, PoolsSettled, AllDone, Closed, ExactKeys, ExactMonitors, Convergence.KidsDistinct, Near, AreBackends,
      StackBackends, DesiredHash.ServerHash, VirtualServers.OnFrontend, LC.PoolIDsApart, Fit;
    var vs := req.stack.virtualServers[j];
    backends := StackBackends(req.stack, vs);
    BackendsMean(req.stack, vs);
    assert EntryIs(g, req, vs);
  }

  // ----- Routing rules -----

  /** The provider has the rule under the listener, with the pool that is on record under its name, and it is on record itself. */
  ghost predicate RouteStands(k: Kid.Kids, g: Graph, vsID: Id, vs: VirtualServer, rule: RoutingRule) {
    && PoolKeyOf(vs.name, rule.poolName) in g.pools
    && exists id :: id in k.rules && k.rules[id].listener == vsID && RuleRecorded(g, vs, id)
                    && Routes(k.rules[id].spec, rule, g.pools[PoolKeyOf(vs.name, rule.poolName)].externalID)
  }

  ghost predicate RuleRecorded(g: Graph, vs: VirtualServer, id: Id) {
    exists key :: key in g.routingRules && vs.name + "/" <= key && g.routingRules[key] == Resource(key, id, "", "", "", vs.ownership)
  }

  predicate Routes(spec: Kid.RuleSpec, rule: RoutingRule, pool: Id) {
    && EqualFold(spec.host, rule.host) && spec.path == rule.path && spec.poolID == pool
    && EqualFold(if spec.matchType == "" then "prefix" else spec.matchType, if rule.matchType == "" then "prefix" else rule.matchType)
  }

  /** In these fields there are no bars. */
  predicate PlainRoutes(k: Kid.Kids, g: Graph, rules: seq<RoutingRule>) {
    && (forall id | id in k.rules :: Rules.Plain(k.rules[id].spec)) && (forall key | key in g.pools :: '|' !in g.pools[key].externalID)
    && forall rule | rule in rules :: '|' !in rule.host && '|' !in rule.matchType
  }

  /** After a full pass every routing rule of the stack stands under every listener, where the rules can be told apart. */
  lemma RoutesStand(n: Net, k0: Kid.Kids, given: Graph, k: Kid.Kids, g: Graph, lb: Id, vip: Id, req: Request, vsID: Id, ids: seq<Id>,
                    j: nat, rule: RoutingRule)
    requires Achieved(n, k0, given, k, g, lb, vip, req, vsID, ids) && !req.aggregate
    requires j < |req.stack.virtualServers| && rule in req.stack.routingRules && PlainRoutes(k, g, req.stack.routingRules)
    requires DistinctRoutes(k0, given, g, req, ids)
    ensures RouteStands(k, g, ids[j], req.stack.virtualServers[j], rule)
  {
    hide Hashed, Orderly, ListenersSettled, PoolsSettled, PoolKeyOf, LC.PoolsFor, LC.PoolsDone, LC.DesiredFor, LC.AllServed, Closed, ExactKeys,
      ExactMonitors, Convergence.KidsDistinct, Convergence.DefaultsKept, Rules.DistinctSpecs, Rules.DistinctOwned, Rules.ViewOf, LC.OwnedRules,
      LC.RulesDone, PlainRoutes, RouteStands, Near, Stands, LC.Workable;
    var vs := req.stack.virtualServers[j];
    assert LC.ListenerDone(Rules.ViewOf(k0, ids[j]), LC.OwnedRules(given.routingRules, vs.name), k, g, ids[j], vs, req.stack, req.resolve);
    var desired :| LC.DesiredFor(req.stack.routingRules, g, vs.name, desired)
      && LC.RulesDone(Rules.ViewOf(k0, ids[j]), LC.OwnedRules(given.routingRules, vs.name), k, g, ids[j], vs, desired);
    DoneRoutes(Rules.ViewOf(k0, ids[j]), LC.OwnedRules(given.routingRules, vs.name), k, g, ids[j], vs, req.stack.routingRules, desired, rule);
  }

  lemma DoneRoutes(before: Rules.View, owned: set<Id>, k: Kid.Kids, g: Graph, vsID: Id, vs: VirtualServer, rules: seq<RoutingRule>,
                   desired: seq<Kid.RuleSpec>, rule: RoutingRule)
    requires LC.RulesDone(before, owned, k, g, vsID, vs, desired) && LC.DesiredFor(rules, g, vs.name, desired)
    requires rule in rules && PlainRoutes(k, g, rules)
    ensures RouteStands(k, g, vsID, vs, rule)
  {
    hide Rules.KeyOf, EqualFold, PoolKeyOf, Rules.HeldByForeign, Rules.Plain, Rules.SameRoute, RuleRecorded, LC.RulesOnRecord, Routes;
    var i :| 0 <= i < |rules| && rules[i] == rule;
    var out: seq<Kid.RuleInfo> :| Rules.Converged(before, Rules.ViewOf(k, vsID), owned, false, desired, out) && LC.RulesOnRecord(g.routingRules, vs, out);
    assert out[i].id in Rules.ViewOf(k, vsID) && k.rules[out[i].id].spec == out[i].spec;
    RulesTold(g, vs, out, i);
    KeyRoutes(out[i].spec, desired[i], rule);
  }

  lemma RulesTold(g: Graph, vs: VirtualServer, out: seq<Kid.RuleInfo>, i: nat)
    requires LC.RulesOnRecord(g.routingRules, vs, out) && i < |out|
    ensures RuleRecorded(g, vs, out[i].id)
  {
    hide Rules.KeyOf;
    var key := LC.RuleKey(vs.name, out[i]);
    assert key in g.routingRules && vs.name + "/" <= key && g.routingRules[key] == LC.RuleEntry(vs, out[i]);
  }

  lemma KeyRoutes(spec: Kid.RuleSpec, desired: Kid.RuleSpec, rule: RoutingRule)
    requires Rules.KeyOf(spec) == Rules.KeyOf(desired) && Rules.Plain(spec)
    requires desired == Kid.RuleSpec(rule.host, rule.path, rule.matchType, desired.poolID)
    requires '|' !in rule.host && '|' !in rule.matchType && '|' !in desired.poolID
    ensures Routes(spec, rule, desired.poolID)
  {
    hide Rules.KeyOf, EqualFold;
    Rules.KeyReadsBack(spec, desired);
  }

  lemma DefaultIsNeeded(stack: Stack, vs: VirtualServer, pool: Pool)
    requires vs.defaultPoolName != "" && pool.name == vs.defaultPoolName
    ensures LC.IsNeeded(stack, vs, pool)
  {
  }

  lemma OtherPoolOtherID(n: Net, k0: Kid.Kids, given: Graph, k: Kid.Kids, g: Graph, lb: Id, vip: Id, req: Request, vsID: Id, ids: seq<Id>,
                         vs: VirtualServer, a: Pool, b: Pool)
    requires Achieved(n, k0, given, k, g, lb, vip, req, vsID, ids) && !req.aggregate && a in req.stack.pools && b in req.stack.pools
    requires vs in req.stack.virtualServers && PoolKeyOf(vs.name, a.name) in g.pools && PoolKeyOf(vs.name, b.name) in g.pools
    requires g.pools[PoolKeyOf(vs.name, a.name)].externalID == g.pools[PoolKeyOf(vs.name, b.name)].externalID
             != NO_ID
    ensures a.name == b.name
  {
    hide Standing, Hashed, Orderly, ListenersSettled, PoolsSettled, PoolKeyOf, AllDone, Closed, ExactKeys, ExactMonitors,
      Convergence.KidsDistinct, Near, LC.SpecsOf, Members.DistinctSpecs;
    var i :| 0 <= i < |req.stack.pools| && req.stack.pools[i] == a;
    var x :| 0 <= x < |req.stack.pools| && req.stack.pools[x] == b;
    if a.name != b.name {
      if PoolKeyOf(vs.name, a.name) == PoolKeyOf(vs.name, b.name) {
        DifferentPoolsDifferentKeys(vs.name, a.name, vs.name, b.name);
      }
    }
  }

  // ----- A default pool that is no longer named -----

  const DEFAULTED := BARE.(defaults := map["vs" := "p"])

  /** The record of a pool without monitor. */
  function BareRecord(): Graph {
    EMPTY_GRAPH.(pools := map[PoolKeyOf(ONE_LISTENER.name, BARE_POOL.name) := LC.PoolEntry(ONE_LISTENER.name, BARE_POOL, "p", "web-1")])
  }

  lemma BareIsDone(vs: VirtualServer)
    requires vs == ONE_LISTENER.(defaultPoolName := vs.defaultPoolName)
    ensures LC.PoolDone(DEFAULTED, BareRecord(), "vs", vs, BARE_POOL, [])
  {
    hide PoolKeyOf;
    assert Members.Converged(Members.View(DEFAULTED, "p"), [], []) && LC.MembersOnRecord(BareRecord().members, vs.name, BARE_POOL, []);
    assert Monitors.Ends(Monitors.ViewOf(DEFAULTED, "p"), None, Monitors.NO_MONITOR);
    assert LC.MonitorOnRecord(BareRecord(), vs.name, BARE_POOL, Monitors.NO_MONITOR);
  }

  /** Such a pool is as desired both when it is the listener's default pool and when the listener has none, and is the provider's
      default either way: nothing takes it back. */
  lemma ADefaultOutlivesItsName()
    ensures var named := ONE_LISTENER.(defaultPoolName := BARE_POOL.name);
            LC.PoolDone(DEFAULTED, BareRecord(), "vs", named, BARE_POOL, []) && named.defaultPoolName == BARE_POOL.name
    ensures LC.PoolDone(DEFAULTED, BareRecord(), "vs", ONE_LISTENER, BARE_POOL, []) && ONE_LISTENER.defaultPoolName == ""
    ensures Pools.IsDefault(DEFAULTED, "vs", "p")
  {
    hide PoolKeyOf, LC.PoolDone;
    BareIsDone(ONE_LISTENER.(defaultPoolName := BARE_POOL.name));
    BareIsDone(ONE_LISTENER);
  }
}
