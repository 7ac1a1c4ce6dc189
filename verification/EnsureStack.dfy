/** Deployer.EnsureStack (pkg/deploy/lbaas/deployer.go) as a whole: the listener loop, the deletion of what is obsolete,
    and what a successful pass has achieved. */
module StackDeployer {
  import opened Common
  import opened Model
  import opened Cluster
  import opened Text
  import opened Protocol
  import opened Safety
  import opened Progress
  import opened Provider
  import opened Deployer
  import opened GraphKeys
  import Observed
  import VirtualServers
  import Recovery
  import VIPs
  import Kid = Children
  import LC = ListenerChildren
  import Obsolete
  import Convergence
  import Members
  import Monitors
  import Pools
  import Rules

  // ----- Obsolete listeners -----

  function ObsoleteListeners(g: Graph, names: set<string>): set<string> {
    set key | key in g.virtualServers && key !in names && g.virtualServers[key].externalID != NO_ID
  }

  function ListenerIDsAt(g: Graph, keys: set<string>): set<Id> {
    set key | key in keys && key in g.virtualServers :: g.virtualServers[key].externalID
  }

  /** The graph without some listeners and everything recorded under them. */
  function WithoutListeners(g: Graph, gone: set<string>): Graph {
    var pools := set key | key in g.pools && VSName(key) in gone;
    g.(virtualServers := g.virtualServers - gone,
       routingRules := OfOthers(g.routingRules, gone), pools := g.pools - pools, members := Obsolete.UnderNone(g.members, pools),
       monitors := g.monitors - pools)
  }

  lemma WithoutNone(g: Graph)
    ensures WithoutListeners(g, {}) == g
  {
    assert g.virtualServers - {} == g.virtualServers;
    assert (set key | key in g.pools && VSName(key) in {}) == {};
    assert g.pools - {} == g.pools && g.monitors - {} == g.monitors;
  }

  lemma WithoutOneMore(g: Graph, gone: set<string>, key: string)
    requires key !in gone
    ensures var h := Obsolete.WithoutChildren(WithoutListeners(g, gone), key);
            h.(virtualServers := h.virtualServers - {key}) == WithoutListeners(g, gone + {key})
  {
    hide VSName, Obsolete.UnderNone, OfOthers, LC.WithoutVSName;
    var before := WithoutListeners(g, gone);
    var pools := set x | x in g.pools && VSName(x) in gone;
    var more := set x | x in g.pools && VSName(x) in gone + {key};
    assert Obsolete.PoolsUnder(before, key) == more - pools;
    assert pools + (more - pools) == more;
    MinusBoth(g.virtualServers, gone, {key});
    MinusBoth(g.pools, pools, more - pools);
    MinusBoth(g.monitors, pools, more - pools);
    Obsolete.UnderNoneOfBoth(g.members, pools, more - pools);
    NamedNeither(g.routingRules, gone, key);
  }

  lemma MinusBoth(bucket: Bucket, a: set<string>, b: set<string>)
    ensures bucket - a - b == bucket - (a + b)
  {
  }

  /** The entries that belong to none of these listeners. */
  function OfOthers(bucket: Bucket, names: set<string>): Bucket {
    map key | key in bucket && VSName(key) !in names :: bucket[key]
  }

  lemma NamedNeither(bucket: Bucket, names: set<string>, name: string)
    ensures LC.WithoutVSName(OfOthers(bucket, names), name) == OfOthers(bucket, names + {name})
  {
    hide VSName;
  }

  lemma ListenerStillRecorded(g: Graph, gone: set<string>, key: string)
    requires key in g.virtualServers && key !in gone
    ensures key in WithoutListeners(g, gone).virtualServers && WithoutListeners(g, gone).virtualServers[key] == g.virtualServers[key]
  {
    hide VSName, PoolKey;
  }

  function PoolIDsUnder(g: Graph, names: set<string>): set<Id> {
    set key | key in g.pools && VSName(key) in names :: g.pools[key].externalID
  }

  function RuleIDsUnder(g: Graph, names: set<string>): set<(Id, Id)> {
    set key | key in g.routingRules && VSName(key) in names && VSName(key) in g.virtualServers ::
      (g.routingRules[key].externalID, g.virtualServers[VSName(key)].externalID)
  }

  lemma UnderOne(g: Graph, gone: set<string>, key: string, names: set<string>)
    requires key in names && key in g.virtualServers
    ensures var h := WithoutListeners(g, gone);
            && Obsolete.PoolIDs(h, Obsolete.PoolsUnder(h, key)) <= PoolIDsUnder(g, names)
            && Obsolete.RulesUnder(h, key, g.virtualServers[key].externalID) <= RuleIDsUnder(g, names)
  {
    hide VSName, PoolKey;
  }

  /** Requested for deletion, or gone. */
  predicate Leaving(n: Net, lb: Id, id: Id) {
    id in n.listeners && n.listeners[id].lb == lb ==> n.listeners[id].status == DELETING
  }

  ghost predicate AllLeaving(n: Net, lb: Id, ids: set<Id>) {
    forall id | id in ids :: Leaving(n, lb, id)
  }

  lemma LeavingStays(actor: string, n0: Net, l0: seq<Event>, calls: seq<Call>, n: Net, l: seq<Event>, lb: Id, ids: set<Id>)
    requires WellFormed(n0) && Span(actor, n0, l0, calls, n, l) && AllLeaving(n0, lb, ids)
    requires forall id | id in ids :: id in n0.issued
    ensures AllLeaving(n, lb, ids)
  {
  }

  lemma DeletionDooms(lb: Id, id: Id)
    ensures DeletedBy([DeleteListener(lb, id)]) == {id}
  {
    var calls := [DeleteListener(lb, id)];
    assert calls[1..] == [];
    assert DoomedBy(calls) == Doomed(calls[0]).Plus(DoomedBy([]));
  }

  /** One deletion of a recorded listener, as part of a stretch of calls. */
  method DeleteRecorded(c: Client, lb: Id, id: Id, ghost ids: set<Id>, ghost gone: set<Id>, ghost n0: Net, ghost l0: seq<Event>,
                        ghost calls: seq<Call>)
    returns (r: Result<(), Failure>)
    requires c.Valid() && WellFormed(n0) && Anchored(c.naming, c.net, c.actor, lb) && Vouched(c.naming, c.net, c.actor, lb, ids)
    requires Span(c.actor, n0, l0, calls, c.net, c.log) && id in ids && gone <= ids && AllLeaving(c.net, lb, gone)
    modifies c
    ensures c.Valid() && c.faults <= old(c.faults) && Anchored(c.naming, c.net, c.actor, lb)
    ensures c.actor in c.net.services && Vouched(c.naming, c.net, c.actor, lb, ids)
    ensures Span(c.actor, n0, l0, calls + [DeleteListener(lb, id)], c.net, c.log)
    ensures DeletedBy(calls + [DeleteListener(lb, id)]) == DeletedBy(calls) + {id}
    ensures AllLeaving(c.net, lb, gone) && (r.Ok? ==> AllLeaving(c.net, lb, gone + {id}))
  {
    hide Inv, Run, Span, WellFormed, Anchored, Vouched, OwnName, AllLeaving, DeletedBy, KnownListener;
    ghost var n1, l1 := c.net, c.log;
    InvIsWellFormed(c.naming, n1);
    VouchedOwns(c.naming, n1, c.actor, lb, ids, id);
    AnchoredSays(c.naming, n1, c.actor, lb);
    forall x | x in gone ensures x in n1.issued {
      VouchedOwns(c.naming, n1, c.actor, lb, ids, x);
      KnownIsIssued(c.naming, n1, c.actor, lb, x);
    }
    r := c.DeleteVirtualServer(lb, id);
    ghost var step := [DeleteListener(lb, id)];
    SpanConcat(c.actor, n0, l0, calls, n1, l1, step, c.net, c.log);
    DeletedByConcat(calls, step);
    DeletionDooms(lb, id);
    VouchedStays(c.naming, c.actor, n1, l1, step, c.net, c.log, lb, ids);
    AnchoredStays(c.naming, c.actor, n1, l1, step, c.net, c.log, lb);
    LeavingStays(c.actor, n1, l1, step, c.net, c.log, lb, gone);
    if r.Ok? {
      OneMoreLeaving(c.net, lb, gone, id);
    }
  }

  lemma KnownIsIssued(nm: Naming, n: Net, name: string, lb: Id, id: Id)
    requires KnownListener(nm, n, name, lb, id)
    ensures id in n.issued
  {
    hide OwnName;
  }

  lemma GoneAreRecorded(g: Graph, gone: set<string>)
    requires forall key | key in gone :: key in g.virtualServers && g.virtualServers[key].externalID != NO_ID
    ensures ListenerIDsAt(g, gone) <= Observed.Ids(g.virtualServers)
  {
  }

  /** Obsolete listeners are deleted after their children. Ids returned by the listener loop are not among them as long as
      different names hold different ids. */
  method DeleteObsoleteVirtualServers(c: Client, k: Kid.ChildClient, g: Graph, lb: Id, stack: Stack)
    returns (h: Graph, changed: bool, err: Option<Stop>, ghost calls: seq<Call>)
    requires c.Valid() && k.Valid() && Anchored(c.naming, c.net, c.actor, lb)
    requires Vouched(c.naming, c.net, c.actor, lb, Observed.Ids(g.virtualServers))
    modifies c, k
    ensures c.Valid() && k.Valid() && c.faults <= old(c.faults) && k.faults <= old(k.faults)
    ensures Span(c.actor, old(c.net), old(c.log), calls, c.net, c.log) && Anchored(c.naming, c.net, c.actor, lb)
    ensures forall i | 0 <= i < |calls| :: calls[i].DeleteListener?
    ensures DeletedBy(calls) <= ListenerIDsAt(g, ObsoleteListeners(g, Recovery.Names(stack.virtualServers)))
    ensures Obsolete.OnlyDeletes(old(k.kids), k.kids, PoolIDsUnder(g, ObsoleteListeners(g, Recovery.Names(stack.virtualServers))),
                                 RuleIDsUnder(g, ObsoleteListeners(g, Recovery.Names(stack.virtualServers))))
    ensures err.None? ==>
              && h == WithoutListeners(g, ObsoleteListeners(g, Recovery.Names(stack.virtualServers)))
              && AllLeaving(c.net, lb, ListenerIDsAt(g, ObsoleteListeners(g, Recovery.Names(stack.virtualServers))))
              && (changed <==> ObsoleteListeners(g, Recovery.Names(stack.virtualServers)) != {})
              && (!changed ==> calls == [] && c.net == old(c.net) && k.kids == old(k.kids) && k.calls == old(k.calls))
    ensures ObsoleteListeners(g, Recovery.Names(stack.virtualServers)) == {} ==>
              err.None? && calls == [] && c.net == old(c.net) && k.kids == old(k.kids) && k.calls == old(k.calls)
  {
    hide Inv, Run, Span, WellFormed, Anchored, Vouched, OwnName, Observed.Ids, WithoutListeners, Obsolete.OnlyDeletes,
      Obsolete.WithoutChildren, ListenerIDsAt, PoolIDsUnder, RuleIDsUnder, AllLeaving, Kid.WellFormedKids, DeletedBy, KnownListener,
      Obsolete.PoolIDs, Obsolete.RulesUnder, Unique, Recovery.Names, VSName;
    ghost var n0, l0, k0 := c.net, c.log, k.kids;
    InvIsWellFormed(c.naming, n0);
    SpanNothing(c.actor, n0, l0);
    var desired := Recovery.Names(stack.virtualServers);
    ghost var obsolete := ObsoleteListeners(g, desired);
    ghost var own, rules := PoolIDsUnder(g, obsolete), RuleIDsUnder(g, obsolete);
    Obsolete.DeletesNothing(k0, own, rules);
    WithoutNone(g);
    StartsEmpty(n0, lb, g);
    h, changed, err, calls := g, false, None, [];
    AnchoredSays(c.naming, n0, c.actor, lb);
    var left := g.virtualServers.Keys;
    ghost var gone: set<string> := {};
    while left != {}
      invariant left <= g.virtualServers.Keys && gone == obsolete - left
      invariant c.Valid() && k.Valid() && c.faults <= old(c.faults) && k.faults <= old(k.faults)
      invariant Span(c.actor, n0, l0, calls, c.net, c.log) && Anchored(c.naming, c.net, c.actor, lb)
      invariant c.actor in c.net.services && Vouched(c.naming, c.net, c.actor, lb, Observed.Ids(g.virtualServers))
      invariant forall i | 0 <= i < |calls| :: calls[i].DeleteListener?
      invariant DeletedBy(calls) <= ListenerIDsAt(g, gone) && AllLeaving(c.net, lb, ListenerIDsAt(g, gone))
      invariant Obsolete.OnlyDeletes(k0, k.kids, own, rules) && h == WithoutListeners(g, gone)
      invariant (changed <==> gone != {}) && (!changed ==> calls == [] && c.net == n0 && k.kids == k0 && k.calls == old(k.calls))
      decreases left
    {
      var key :| key in left;
      ghost var left0 := left;
      left := left - {key};
      if key in desired || g.virtualServers[key].externalID == NO_ID {
        assert obsolete - left == obsolete - left0;
        continue;
      }
      assert obsolete - left == (obsolete - left0) + {key};
      var id := g.virtualServers[key].externalID;
      ghost var k1 := k.kids;
      UnderOne(g, gone, key, obsolete);
      WithoutOneMore(g, gone, key);
      ListenerStillRecorded(g, gone, key);
      var tree, changed0, failure := Obsolete.DeleteListenerTree(k, h, lb, id, key);
      Obsolete.OnlyDeletesLarger(k1, k.kids, Obsolete.PoolIDs(h, Obsolete.PoolsUnder(h, key)), Obsolete.RulesUnder(h, key, id), own, rules);
      Obsolete.OnlyDeletesGoesOn(k0, k1, k.kids, own, rules);
      OneMoreID(g, gone, key);
      SomeMore(g, gone, key, obsolete);
      if failure.Some? {
        err := Some(ChildFailing(failure.value));
        return;
      }
      InIds(g, key);
      GoneAreRecorded(g, gone);
      var r := DeleteRecorded(c, lb, id, Observed.Ids(g.virtualServers), ListenerIDsAt(g, gone), n0, l0, calls);
      calls := calls + [DeleteListener(lb, id)];
      if r.Err? {
        err := Some(Failing(CallFailed(r.error)));
        return;
      }
      h := tree.(virtualServers := tree.virtualServers - {key});
      gone := gone + {key};
      changed := true;
    }
    assert gone == obsolete;
  }

  lemma StartsEmpty(n: Net, lb: Id, g: Graph)
    ensures DeletedBy([]) == {} && AllLeaving(n, lb, ListenerIDsAt(g, {}))
  {
  }

  lemma OneMoreID(g: Graph, gone: set<string>, key: string)
    requires key in g.virtualServers
    ensures ListenerIDsAt(g, gone + {key}) == ListenerIDsAt(g, gone) + {g.virtualServers[key].externalID}
  {
  }

  lemma SomeMore(g: Graph, gone: set<string>, key: string, all: set<string>)
    requires gone + {key} <= all
    ensures ListenerIDsAt(g, gone + {key}) <= ListenerIDsAt(g, all)
  {
  }

  lemma InIds(g: Graph, key: string)
    requires key in g.virtualServers && g.virtualServers[key].externalID != NO_ID
    ensures g.virtualServers[key].externalID in Observed.Ids(g.virtualServers)
  {
  }

  lemma OneMoreLeaving(n: Net, lb: Id, ids: set<Id>, id: Id)
    requires AllLeaving(n, lb, ids) && Leaving(n, lb, id)
    ensures AllLeaving(n, lb, ids + {id})
  {
  }

  // ----- Listeners that the pass has ensured -----

  /** The listener stays, under its own name and on its frontend, unless its load balancer goes. */
  predicate Stands(n: Net, lb: Id, vip: Id, vs: VirtualServer, id: Id) {
    && id in n.issued
    && (lb in n.lbs ==> id in n.listeners && n.listeners[id].status != DELETING)
    && (id in n.listeners ==> n.listeners[id].lb == lb && n.listeners[id].name == vs.name && VirtualServers.OnFrontend(n.listeners[id], vip, vs))
  }

  lemma ReadyIsNotDeleting(status: string)
    requires VirtualServers.IsUp(status)
    ensures status != DELETING
  {
    assert Lower(DELETING)[0] == 'd';
  }

  lemma ServingStands(n: Net, vreq: VirtualServers.Request, id: Id)
    requires WellFormed(n) && VirtualServers.Serves(n, vreq, id) && VirtualServers.IsNamed(n, id, vreq.desired.name)
    ensures Stands(n, vreq.lb, vreq.vip, vreq.desired, id) && vreq.lb in n.lbs
  {
    hide EqualFold, Lower;
    ReadyIsNotDeleting(n.listeners[id].status);
  }

  lemma StandsStays(actor: string, n0: Net, l0: seq<Event>, calls: seq<Call>, n: Net, l: seq<Event>, lb: Id, vip: Id, vs: VirtualServer, id: Id)
    requires WellFormed(n0) && Span(actor, n0, l0, calls, n, l) && Stands(n0, lb, vip, vs, id) && id !in DeletedBy(calls)
    requires lb in n0.issued
    ensures Stands(n, lb, vip, vs, id)
  {
    hide EqualFold;
    assert lb in n.lbs ==> lb in n0.lbs;
  }

  /** Recorded listeners that exist bear the name they are recorded under; the legacy alias may be any. */
  ghost predicate NamesMatch(n: Net, g: Graph) {
    forall key | key in g.virtualServers && key != Observed.LEGACY_VS && g.virtualServers[key].externalID in n.listeners ::
      n.listeners[g.virtualServers[key].externalID].name == key
  }

  /** No scalar id stands in for a listener that the graph does not record under its name. */
  predicate StaleFree(g: Graph, stack: Stack, vsID: Id) {
    vsID == NO_ID || |stack.virtualServers| != 1
    || (stack.virtualServers[0].name in g.virtualServers && g.virtualServers[stack.virtualServers[0].name].externalID != NO_ID)
  }

  lemma NamesMatchStays(actor: string, n0: Net, l0: seq<Event>, calls: seq<Call>, n: Net, l: seq<Event>, g: Graph)
    requires WellFormed(n0) && WellFormed(n) && Span(actor, n0, l0, calls, n, l) && NamesMatch(n0, g)
    requires forall key | key in g.virtualServers && g.virtualServers[key].externalID != NO_ID :: g.virtualServers[key].externalID in n0.issued
    ensures NamesMatch(n, g)
  {
  }

  ghost predicate IdsIssued(n: Net, g: Graph) {
    forall key | key in g.virtualServers && g.virtualServers[key].externalID != NO_ID :: g.virtualServers[key].externalID in n.issued
  }

  /** The first listeners of the stack are recorded under their names, with different ids, and stand. */
  ghost predicate Standing(n: Net, g: Graph, lb: Id, vip: Id, stack: Stack, ids: seq<Id>) {
    && |ids| <= |stack.virtualServers| && lb in n.issued
    && (forall j | 0 <= j < |ids| ::
          && stack.virtualServers[j].name in g.virtualServers
          && g.virtualServers[stack.virtualServers[j].name].externalID == ids[j] != NO_ID
          && Stands(n, lb, vip, stack.virtualServers[j], ids[j]))
    && (forall i, j | 0 <= i < |ids| && 0 <= j < |ids| && ids[i] == ids[j] :: i == j)
  }

  lemma StandingStays(actor: string, n0: Net, l0: seq<Event>, calls: seq<Call>, n: Net, l: seq<Event>, g: Graph, lb: Id, vip: Id,
                      stack: Stack, ids: seq<Id>)
    requires WellFormed(n0) && Span(actor, n0, l0, calls, n, l) && Standing(n0, g, lb, vip, stack, ids)
    requires forall j | 0 <= j < |ids| :: ids[j] !in DeletedBy(calls)
    ensures Standing(n, g, lb, vip, stack, ids)
  {
    hide Stands, Span, WellFormed, DeletedBy;
    SpanKeepsServices(actor, n0, l0, calls, n, l);
    forall j | 0 <= j < |ids| ensures Stands(n, lb, vip, stack.virtualServers[j], ids[j]) {
      StandsStays(actor, n0, l0, calls, n, l, lb, vip, stack.virtualServers[j], ids[j]);
    }
  }

  /** A newly ensured listener has another id than all before it: its name is another. */
  lemma OneMoreStands(n: Net, g: Graph, h: Graph, lb: Id, vip: Id, stack: Stack, ids: seq<Id>, id: Id, r: Resource)
    requires Standing(n, g, lb, vip, stack, ids) && |ids| < |stack.virtualServers| && lb in n.lbs && id != NO_ID
    requires forall i, j | 0 <= i < |stack.virtualServers| && 0 <= j < |stack.virtualServers|
                           && stack.virtualServers[i].name == stack.virtualServers[j].name :: i == j
    requires Stands(n, lb, vip, stack.virtualServers[|ids|], id) && r.externalID == id
    requires h.virtualServers == g.virtualServers[stack.virtualServers[|ids|].name := r]
    ensures Standing(n, h, lb, vip, stack, ids + [id]) && id !in ids
  {
    hide VirtualServers.OnFrontend;
    forall j | 0 <= j < |ids| ensures ids[j] != id && stack.virtualServers[j].name != stack.virtualServers[|ids|].name {
      assert Stands(n, lb, vip, stack.virtualServers[j], ids[j]);
    }
  }

  /** A scalar id never stands in. */
  lemma CurrentIsRecorded(g: Graph, stack: Stack, vs: VirtualServer, vsID: Id)
    requires StaleFree(g, stack, vsID) && vs in stack.virtualServers && CurrentID(g, stack, vs, vsID) != NO_ID
    ensures vs.name in g.virtualServers && CurrentID(g, stack, vs, vsID) == g.virtualServers[vs.name].externalID
  {
    assert |stack.virtualServers| == 1 ==> vs == stack.virtualServers[0];
  }

  lemma NameKept(actor: string, n0: Net, l0: seq<Event>, n: Net, l: seq<Event>, id: Id)
    requires WellFormed(n0) && Span(actor, n0, l0, [], n, l) && id in n.listeners
    ensures id in n0.listeners && n.listeners[id].name == n0.listeners[id].name
  {
  }

  lemma EnsuredIsNamed(actor: string, n0: Net, l0: seq<Event>, calls: seq<Call>, n: Net, l: seq<Event>, req: Request, g: Graph, lb: Id,
                       vip: Id, vs: VirtualServer, vsID: Id, vreq: VirtualServers.Request, id: Id)
    requires WellFormed(n0) && Span(actor, n0, l0, calls, n, l) && ListenerEnsured(n0, n, vreq, id, calls) && id != NO_ID
    requires vreq.(reachable := false, front := NO_FRONT) == RequestFor(req, g, lb, vip, vs, vsID, false)
    requires NamesMatch(n0, g) && StaleFree(g, req.stack, vsID) && vs in req.stack.virtualServers && '/' !in vs.name
    ensures VirtualServers.IsNamed(n, id, vs.name)
  {
    hide HashOf, VirtualServers.IsUp, VirtualServers.OnFrontend, Span, WellFormed, CurrentID, StaleFree;
    assert Observed.LEGACY_VS[6] == '/';
    if calls == [] && id == vreq.currentID && id in n.listeners {
      CurrentIsRecorded(g, req.stack, vs, vsID);
      NameKept(actor, n0, l0, n, l, id);
    }
  }

  /** Different names hold different ids. */
  predicate ListenerIDsApart(g: Graph) {
    forall a, b | a in g.virtualServers && b in g.virtualServers && a != Observed.LEGACY_VS && b != Observed.LEGACY_VS
                  && g.virtualServers[a].externalID == g.virtualServers[b].externalID != NO_ID :: a == b
  }

  /** What the listener loop knows about the recorded listeners. */
  ghost predicate Orderly(n: Net, g: Graph, stack: Stack, vsID: Id) {
    NamesMatch(n, g) && StaleFree(g, stack, vsID) && IdsIssued(n, g) && ListenerIDsApart(g)
  }

  /** The listeners that a pass may come to work on: those on record, those that bear its names, and new ones. */
  ghost function Near(n: Net, g: Graph, stack: Stack, vsID: Id): iset<Id> {
    iset id | || id !in n.issued || id == vsID || id in Observed.Ids(g.virtualServers)
              || (id in n.listeners && n.listeners[id].name in Recovery.Names(stack.virtualServers))
  }

  /** There will be no more of them later. */
  lemma NearLater(n: Net, m: Net, g: Graph, h: Graph, stack: Stack, vsID: Id)
    requires NamesLater(n, m) && forall key | key in h.virtualServers :: key in g.virtualServers && h.virtualServers[key] == g.virtualServers[key]
    ensures Near(m, h, stack, vsID) <= Near(n, g, stack, vsID)
  {
    hide Recovery.Names;
  }

  lemma FewerNear(n: Net, g: Graph, h: Graph, stack: Stack, vsID: Id)
    requires forall key | key in h.virtualServers :: key in g.virtualServers && h.virtualServers[key] == g.virtualServers[key]
    ensures Near(n, h, stack, vsID) <= Near(n, g, stack, vsID)
  {
    hide Recovery.Names;
  }

  lemma NearSteps(n0: Net, n: Net, g: Graph, h: Graph, stack: Stack, vsID: Id, laterVsID: Id, vs: VirtualServer, r: Resource)
    requires NamesLater(n0, n) && h.virtualServers == g.virtualServers[vs.name := r] && vs in stack.virtualServers
    requires r.externalID in n.listeners && VirtualServers.IsNamed(n, r.externalID, vs.name)
    requires laterVsID == (if |stack.virtualServers| == 1 then r.externalID else vsID)
    ensures Near(n, h, stack, laterVsID) <= Near(n0, g, stack, vsID) && r.externalID in Near(n, h, stack, laterVsID)
  {
    assert vs.name in Recovery.Names(stack.virtualServers);
  }

  lemma FewerDistinct(k: Kid.Kids, near: iset<Id>, fewer: iset<Id>)
    requires fewer <= near && Convergence.KidsDistinct(k, near)
    ensures Convergence.KidsDistinct(k, fewer)
  {
    hide Members.DistinctIn;
  }

  lemma OrderlySteps(actor: string, n0: Net, l0: seq<Event>, calls: seq<Call>, n: Net, l: seq<Event>, g: Graph, h: Graph, stack: Stack,
                     vsID: Id, laterVsID: Id, vs: VirtualServer, r: Resource)
    requires WellFormed(n0) && WellFormed(n) && Span(actor, n0, l0, calls, n, l) && Orderly(n0, g, stack, vsID)
    requires h.virtualServers == g.virtualServers[vs.name := r] && r.externalID != NO_ID && r.externalID in n.issued
    requires r.externalID in n.listeners
    requires VirtualServers.IsNamed(n, r.externalID, vs.name) && vs in stack.virtualServers
    requires laterVsID == (if |stack.virtualServers| == 1 then r.externalID else vsID)
    ensures Orderly(n, h, stack, laterVsID)
  {
    NamesMatchStays(actor, n0, l0, calls, n, l, g);
  }

  lemma NoDooms(vreq: VirtualServers.Request, calls: seq<Call>)
    requires calls == [] || calls == [VirtualServers.Creation(vreq)]
    ensures DeletedBy(calls) == {}
  {
    if calls != [] {
      assert calls[1..] == [] && DoomedBy(calls) == Doomed(calls[0]).Plus(DoomedBy([]));
    }
  }

  /** Names, and in full passes also pools and member keys, are unambiguous. */
  ghost predicate Fit(req: Request) {
    Convergence.NamesFit(req.stack.virtualServers) && (!req.aggregate ==> LC.Workable(req.stack.pools, req.resolve))
  }

  /** The facts that make a pass converge: unambiguous names and ids on record, and unambiguous member keys in the pools of
      listeners that the pass may come to work on. */
  ghost predicate Ordered(n: Net, k: Kid.Kids, g: Graph, req: Request, vsID: Id) {
    && Orderly(n, g, req.stack, vsID) && Fit(req)
    && (!req.aggregate ==> Convergence.KidsDistinct(k, Near(n, g, req.stack, vsID)) && LC.PoolIDsApart(g, k.issued))
  }

  /** The entry of a listener, all of it, with the digest of its desired configuration. */
  predicate EntryIs(g: Graph, req: Request, vs: VirtualServer) {
    vs.name in g.virtualServers && g.virtualServers[vs.name] == ListenerEntry(req, vs, g.virtualServers[vs.name].externalID, vs.name)
  }

  /** The first listeners are on record as they are desired. */
  predicate Hashed(g: Graph, req: Request, n: nat) {
    forall j | 0 <= j < n && j < |req.stack.virtualServers| :: EntryIs(g, req, req.stack.virtualServers[j])
  }

  lemma OneMoreHashed(g: Graph, h: Graph, req: Request, i: nat, id: Id)
    requires Hashed(g, req, i) && i < |req.stack.virtualServers| && Convergence.NamesFit(req.stack.virtualServers)
    requires var vs := req.stack.virtualServers[i]; h.virtualServers == g.virtualServers[vs.name := ListenerEntry(req, vs, id, vs.name)]
    ensures Hashed(h, req, i + 1)
  {
    hide HashOf;
  }

  /** What the listener loop has achieved after |ids| listeners. */
  ghost predicate LoopDone(n: Net, k0: Kid.Kids, g0: Graph, k: Kid.Kids, g: Graph, lb: Id, vip: Id, req: Request, vsID: Id, ids: seq<Id>) {
    && Orderly(n, g, req.stack, vsID) && Standing(n, g, lb, vip, req.stack, ids) && Hashed(g, req, |ids|)
    && (!req.aggregate ==>
          Convergence.ChildrenDone(k0, g0, k, g, ids, req.stack, req.resolve)
          && Convergence.KidsDistinct(k, Near(n, g, req.stack, vsID)))
  }

  lemma NoCallDooms(n0: Net, n: Net, vreq: VirtualServers.Request, id: Id, calls: seq<Call>)
    requires ListenerEnsured(n0, n, vreq, id, calls)
    ensures DeletedBy(calls) == {}
  {
    hide VirtualServers.Serves, VirtualServers.Keeps;
    NoDooms(vreq, calls);
  }

  lemma ListenerJoins(actor: string, n0: Net, l0: seq<Event>, calls: seq<Call>, n: Net, l: seq<Event>, req: Request, g: Graph, h: Graph,
                      lb: Id, vip: Id, vs: VirtualServer, vsID: Id, laterVsID: Id, vreq: VirtualServers.Request, id: Id, ids: seq<Id>)
    requires WellFormed(n0) && WellFormed(n) && Span(actor, n0, l0, calls, n, l) && ListenerEnsured(n0, n, vreq, id, calls)
    requires id != NO_ID && vreq.(reachable := false, front := NO_FRONT) == RequestFor(req, g, lb, vip, vs, vsID, false)
    requires |ids| < |req.stack.virtualServers| && vs == req.stack.virtualServers[|ids|] && Convergence.NamesFit(req.stack.virtualServers)
    requires Orderly(n0, g, req.stack, vsID) && Standing(n0, g, lb, vip, req.stack, ids) && Hashed(g, req, |ids|)
    requires h == g.(virtualServers := g.virtualServers[vs.name := ListenerEntry(req, vs, id, vs.name)])
    requires laterVsID == (if |req.stack.virtualServers| == 1 then id else vsID)
    ensures Orderly(n, h, req.stack, laterVsID) && Standing(n, h, lb, vip, req.stack, ids + [id]) && id !in ids
    ensures Hashed(h, req, |ids| + 1)
    ensures Near(n, h, req.stack, laterVsID) <= Near(n0, g, req.stack, vsID) && id in Near(n, h, req.stack, laterVsID)
  {
    hide WellFormed, Span, DeletedBy, HashOf, Standing, Stands, Hashed, VirtualServers.IsUp, VirtualServers.OnFrontend, Near, NamesLater;
    NoCallDooms(n0, n, vreq, id, calls);
    EnsuredIsNamed(actor, n0, l0, calls, n, l, req, g, lb, vip, vs, vsID, vreq, id);
    ServingStands(n, vreq, id);
    StandsIsIssued(n, lb, vip, vs, id);
    ServesExists(n, vreq, id);
    OrderlySteps(actor, n0, l0, calls, n, l, g, h, req.stack, vsID, laterVsID, vs, ListenerEntry(req, vs, id, vs.name));
    SpanKeepsNames(actor, n0, l0, calls, n, l);
    NearSteps(n0, n, g, h, req.stack, vsID, laterVsID, vs, ListenerEntry(req, vs, id, vs.name));
    StandingStays(actor, n0, l0, calls, n, l, g, lb, vip, req.stack, ids);
    OneMoreHashed(g, h, req, |ids|, id);
    OneMoreStands(n, g, h, lb, vip, req.stack, ids, id, ListenerEntry(req, vs, id, vs.name));
  }

  lemma ServesExists(n: Net, vreq: VirtualServers.Request, id: Id)
    requires VirtualServers.Serves(n, vreq, id)
    ensures id in n.listeners
  {
    hide VirtualServers.IsUp, VirtualServers.OnFrontend;
  }

  lemma StandsIsIssued(n: Net, lb: Id, vip: Id, vs: VirtualServer, id: Id)
    requires Stands(n, lb, vip, vs, id)
    ensures id in n.issued
  {
    hide VirtualServers.OnFrontend;
  }

  lemma ChildrenReady(k0: Kid.Kids, g0: Graph, k: Kid.Kids, g: Graph, h: Graph, near: iset<Id>, ids: seq<Id>, id: Id, vs: VirtualServer,
                      req: Request)
    requires Convergence.KidsDistinct(k, near) && id in near
    requires Convergence.ChildrenDone(k0, g0, k, g, ids, req.stack, req.resolve) && Convergence.StackFits(req.stack, req.resolve)
    requires h == g.(virtualServers := h.virtualServers) && vs in req.stack.virtualServers
    ensures Convergence.ChildrenDone(k0, g0, k, h, ids, req.stack, req.resolve)
    ensures LC.AllDistinct(k, id) && '/' !in vs.name && LC.Workable(LC.PoolsFor(req.stack, vs), req.resolve) && LC.PoolIDsApart(h, k.issued)
  {
    hide Kid.WellFormedKids, Convergence.KidsDistinct, Convergence.Untouched, LC.PoolsFor, LC.AllDistinct, Rules.ViewOf, LC.OwnedRules;
    Convergence.DistinctEverywhere(k, near, id);
    Convergence.FittingIsWorkable(req.stack, req.resolve, vs);
    forall j | 0 <= j < |ids|
      ensures LC.ListenerDone(Rules.ViewOf(k0, ids[j]), LC.OwnedRules(g0.routingRules, req.stack.virtualServers[j].name), k, h, ids[j],
                              req.stack.virtualServers[j], req.stack, req.resolve)
    {
      SameChildRecord(Rules.ViewOf(k0, ids[j]), LC.OwnedRules(g0.routingRules, req.stack.virtualServers[j].name), k, g, h, ids[j],
                      req.stack.virtualServers[j], req.stack, req.resolve);
    }
    SameOtherRecords(g0, g, h, k.issued, k0.issued, Recovery.Names(req.stack.virtualServers[..|ids|]));
  }

  lemma SameChildRecord(before: Rules.View, owned: set<Id>, k: Kid.Kids, g: Graph, h: Graph, id: Id, vs: VirtualServer, stack: Stack,
                        resolve: LC.Resolver)
    requires LC.ListenerDone(before, owned, k, g, id, vs, stack, resolve)
    requires h == g.(lbServices := h.lbServices, vips := h.vips, virtualServers := h.virtualServers)
    ensures LC.ListenerDone(before, owned, k, h, id, vs, stack, resolve)
  {
    hide LC.PoolsFor, LC.SpecsOf, Rules.DistinctSpecs, Rules.DistinctOwned, LC.MembersDone, LC.MonitorDone, LC.RulesOnRecord, Rules.Converged,
      LC.PoolEntry, PoolKeyOf;
    var pools := LC.PoolsFor(stack, vs);
    forall i | 0 <= i < |pools| ensures LC.PoolDone(k, h, id, vs, pools[i], LC.SpecsOf(resolve, pools[i].members).value) {
      var specs := LC.SpecsOf(resolve, pools[i].members).value;
      assert LC.PoolDone(k, g, id, vs, pools[i], specs);
      var pid := g.pools[PoolKeyOf(vs.name, pools[i].name)].externalID;
      SamePoolChildren(k, g, h, pid, vs.name, pools[i], specs);
    }
    var desired :| LC.DesiredFor(stack.routingRules, g, vs.name, desired)
      && (Rules.DistinctSpecs(desired) && Rules.DistinctOwned(before, owned, false) ==>
            LC.RulesDone(before, owned, k, g, id, vs, desired));
    assert LC.DesiredFor(stack.routingRules, h, vs.name, desired);
    if Rules.DistinctSpecs(desired) && Rules.DistinctOwned(before, owned, false) {
      var out :| Rules.Converged(before, Rules.ViewOf(k, id), owned, false, desired, out) && LC.RulesOnRecord(g.routingRules, vs, out);
      assert LC.RulesDone(before, owned, k, h, id, vs, desired);
    }
  }

  lemma SamePoolChildren(k: Kid.Kids, g: Graph, h: Graph, id: Id, vs: string, pool: Pool, specs: seq<Kid.MemberSpec>)
    requires h.members == g.members && h.monitors == g.monitors
    ensures LC.MembersDone(k, g, id, vs, pool, specs) ==> LC.MembersDone(k, h, id, vs, pool, specs)
    ensures LC.MonitorDone(k, g, id, vs, pool) ==> LC.MonitorDone(k, h, id, vs, pool)
  {
    hide LC.MembersOnRecord, Members.Converged, Members.View, Monitors.Ends, Monitors.ViewOf;
    if LC.MembersDone(k, g, id, vs, pool, specs) {
      var out :| Members.Converged(Members.View(k, id), specs, out) && LC.MembersOnRecord(g.members, vs, pool, out);
      assert LC.MembersOnRecord(h.members, vs, pool, out);
    }
    if LC.MonitorDone(k, g, id, vs, pool) {
      var m :| Monitors.Ends(Monitors.ViewOf(k, id), pool.monitor, m) && LC.MonitorOnRecord(g, vs, pool, m);
      assert LC.MonitorOnRecord(h, vs, pool, m);
    }
  }

  lemma SameOtherRecords(g0: Graph, g: Graph, h: Graph, issued: set<Id>, issued0: set<Id>, names: set<string>)
    requires h == g.(virtualServers := h.virtualServers)
    ensures LC.PoolIDsApart(g, issued) ==> LC.PoolIDsApart(h, issued)
    ensures LC.OldOrNew(g0, g, issued0) ==> LC.OldOrNew(g0, h, issued0)
    ensures Convergence.Elsewhere(g0, g, names) ==> Convergence.Elsewhere(g0, h, names)
    ensures forall keys | LC.OffPools(g0, g, keys) :: LC.OffPools(g0, h, keys)
  {
    hide VSName;
  }

  lemma ChildrenJoin(k0: Kid.Kids, g0: Graph, k: Kid.Kids, mid: Kid.Kids, m: Kid.Kids, g: Graph, h: Graph, ids: seq<Id>, id: Id,
                     vs: VirtualServer, req: Request)
    requires Convergence.StackFits(req.stack, req.resolve) && |ids| < |req.stack.virtualServers| && vs == req.stack.virtualServers[|ids|]
    requires id !in ids && Convergence.ChildrenDone(k0, g0, k, g, ids, req.stack, req.resolve)
    requires Kid.WellFormedKids(mid) && Kid.WellFormedKids(m)
    requires Pools.OnlyOwn(k, mid, id, LC.OwnIDs(g, LC.KeysOf(vs.name, LC.PoolsFor(req.stack, vs))) * Kid.PoolsOf(k, id))
    requires Rules.OnlyRules(mid, m, id) && LC.OnlyListener(g, h, vs.name)
    requires exists desired :: Rules.Respects(Rules.ViewOf(k, id), Rules.ViewOf(m, id), LC.OwnedRules(g.routingRules, vs.name), false, desired)
    requires LC.ListenerDone(Rules.ViewOf(k, id), LC.OwnedRules(g.routingRules, vs.name), m, h, id, vs, req.stack, req.resolve)
    requires LC.PoolIDsApart(h, m.issued) && LC.OldOrNew(g, h, k.issued)
    requires h.pools.Keys == g.pools.Keys + LC.KeysOf(vs.name, LC.PoolsFor(req.stack, vs))
    requires LC.AddsMonitors(g, h, LC.MonitoredKeys(vs.name, LC.PoolsFor(req.stack, vs)))
    requires LC.OffPools(g, h, LC.KeysOf(vs.name, LC.PoolsFor(req.stack, vs))) && LC.StillKeyed(g, h)
    requires !LC.NamesDefault(req.stack, vs) ==> m.defaults == k.defaults
    ensures Convergence.ChildrenDone(k0, g0, m, h, ids + [id], req.stack, req.resolve)
  {
    hide LC.OffPools, Keyed, Kid.WellFormedKids, Pools.OnlyOwn, Rules.OnlyRules, LC.OnlyListener, Rules.Respects, LC.ListenerDone,
      LC.PoolIDsApart, LC.OldOrNew, LC.KeysOf, LC.MonitoredKeys, LC.OwnIDs, LC.PoolsFor, Rules.ViewOf, LC.OwnedRules, Kid.PoolsOf,
      Convergence.StackFits, Convergence.Elsewhere, Convergence.Untouched, Convergence.PoolKeysUpTo, Convergence.MonitorKeysUpTo,
      LC.AddsMonitors, LC.NamesDefault, Convergence.DefaultsKept;
    var desired :| Rules.Respects(Rules.ViewOf(k, id), Rules.ViewOf(m, id), LC.OwnedRules(g.routingRules, vs.name), false, desired);
    Convergence.LoopSteps(k0, g0, k, mid, m, g, h, ids, id, req.stack, req.resolve, desired);
  }

  /** Pools and rules that the graph did not record at the start are untouched. */
  ghost predicate SparesOthers(k0: Kid.Kids, g0: Graph, k: Kid.Kids) {
    Convergence.Untouched(k0, k, Convergence.RecordedPoolIDs(g0), Convergence.RecordedRuleIDs(g0))
  }

  lemma StepSparesOthers(k0: Kid.Kids, g0: Graph, k: Kid.Kids, mid: Kid.Kids, m: Kid.Kids, g: Graph, h: Graph, ids: seq<Id>, id: Id,
                         vs: VirtualServer, req: Request)
    requires Convergence.StackFits(req.stack, req.resolve) && |ids| < |req.stack.virtualServers| && vs == req.stack.virtualServers[|ids|]
    requires Convergence.ChildrenDone(k0, g0, k, h, ids, req.stack, req.resolve) && Kid.WellFormedKids(mid) && Kid.WellFormedKids(m)
    requires Pools.OnlyOwn(k, mid, id, LC.OwnIDs(h, LC.KeysOf(vs.name, LC.PoolsFor(req.stack, vs))) * Kid.PoolsOf(k, id))
    requires Rules.OnlyRules(mid, m, id)
    requires exists desired :: Rules.Respects(Rules.ViewOf(k, id), Rules.ViewOf(m, id), LC.OwnedRules(h.routingRules, vs.name), false, desired)
    ensures SparesOthers(k0, g0, m)
  {
    hide Kid.WellFormedKids, Pools.OnlyOwn, Rules.OnlyRules, Rules.Respects, LC.ListenerDone, LC.KeysOf, LC.OwnIDs, LC.PoolsFor, Rules.ViewOf,
      LC.OwnedRules, Convergence.StackFits, Convergence.Untouched, Convergence.Elsewhere, LC.OffPools, Convergence.PoolKeysUpTo;
    var desired :| Rules.Respects(Rules.ViewOf(k, id), Rules.ViewOf(m, id), LC.OwnedRules(h.routingRules, vs.name), false, desired);
    Convergence.StepFrame(k0, g0, k, mid, m, h, ids, id, req.stack, req.resolve, desired);
  }

  /** Nothing is to be done for the stack's listeners, nor for what hangs on them, and all of it is on record as it is. */
  ghost predicate LoopRests(n: Net, k: Kid.Kids, g: Graph, lb: Id, vip: Id, req: Request, vsID: Id) {
    && (|req.stack.virtualServers| == 1 ==> vsID == NO_ID || vsID == IDAt(g.virtualServers, req.stack.virtualServers[0].name))
    && forall j | 0 <= j < |req.stack.virtualServers| :: ListenerAtRest(n, k, g, lb, vip, req, vsID, req.stack.virtualServers[j])
  }

  ghost predicate ListenerAtRest(n: Net, k: Kid.Kids, g: Graph, lb: Id, vip: Id, req: Request, vsID: Id, vs: VirtualServer) {
    && VirtualServers.Rests(n, RequestFor(req, g, lb, vip, vs, vsID, false))
    && vs.name in g.virtualServers && g.virtualServers[vs.name] == ListenerEntry(req, vs, CurrentID(g, req.stack, vs, vsID), vs.name)
    && (!req.aggregate ==> LC.ListenerRests(k, g, CurrentID(g, req.stack, vs, vsID), vs, req.stack, req.resolve))
  }

  /** Every listener's round gets the answers that it needs. */
  ghost predicate Answered(n: Net, g: Graph, lb: Id, vip: Id, req: Request, vsID: Id) {
    forall j | 0 <= j < |req.stack.virtualServers| ::
      && VirtualServers.Unobstructed(n, RequestFor(req, g, lb, vip, req.stack.virtualServers[j], vsID, false))
      && (req.aggregate ==> HasAggregatePool(req.stack, req.stack.virtualServers[j]))
  }

  lemma AnsweredNow(n: Net, g: Graph, lb: Id, vip: Id, req: Request, vsID: Id, i: nat, vreq: VirtualServers.Request)
    requires i < |req.stack.virtualServers| && Answered(n, g, lb, vip, req, vsID)
    requires vreq.(reachable := false, front := NO_FRONT) == RequestFor(req, g, lb, vip, req.stack.virtualServers[i], vsID, false)
    ensures VirtualServers.Unobstructed(n, vreq) && (req.aggregate ==> HasAggregatePool(req.stack, req.stack.virtualServers[i]))
  {
    hide VirtualServers.Unobstructed, RequestFor, HasAggregatePool;
    UnobstructedAnyway(n, vreq);
  }

  lemma RestsNow(n: Net, k: Kid.Kids, g: Graph, lb: Id, vip: Id, req: Request, vsID: Id, i: nat, vreq: VirtualServers.Request)
    requires i < |req.stack.virtualServers|
    requires vreq.(reachable := false, front := NO_FRONT) == RequestFor(req, g, lb, vip, req.stack.virtualServers[i], vsID, false)
    ensures LoopRests(n, k, g, lb, vip, req, vsID) ==> var vs := req.stack.virtualServers[i];
              && VirtualServers.Rests(n, vreq) && vreq.currentID == CurrentID(g, req.stack, vs, vsID)
              && vs.name in g.virtualServers && g.virtualServers[vs.name] == ListenerEntry(req, vs, vreq.currentID, vs.name)
              && (|req.stack.virtualServers| == 1 ==> vsID == NO_ID || vsID == vreq.currentID)
              && (!req.aggregate ==> LC.ListenerRests(k, g, vreq.currentID, vs, req.stack, req.resolve))
  {
    hide VirtualServers.Rests, LC.ListenerRests, HashOf;
    RestsAnyway(n, vreq);
    if LoopRests(n, k, g, lb, vip, req, vsID) {
      assert ListenerAtRest(n, k, g, lb, vip, req, vsID, req.stack.virtualServers[i]);
    }
  }

  lemma SameChildrenRest(k: Kid.Kids, g: Graph, h: Graph, id: Id, vs: VirtualServer, stack: Stack, resolve: LC.Resolver)
    requires LC.ListenerRests(k, g, id, vs, stack, resolve)
    requires h == g.(lbServices := h.lbServices, vips := h.vips, virtualServers := h.virtualServers)
    ensures LC.ListenerRests(k, h, id, vs, stack, resolve)
  {
    hide LC.PoolsFor, LC.SpecsOf, LC.MembersDone, LC.MonitorDone, LC.RulesOnRecord, Rules.Converged, LC.PoolEntry, PoolKeyOf, Rules.DistinctSpecs;
    var pools := LC.PoolsFor(stack, vs);
    forall i | 0 <= i < |pools| ensures LC.PoolDone(k, h, id, vs, pools[i], LC.SpecsOf(resolve, pools[i].members).value) {
      var specs := LC.SpecsOf(resolve, pools[i].members).value;
      assert LC.PoolDone(k, g, id, vs, pools[i], specs);
      var pid := g.pools[PoolKeyOf(vs.name, pools[i].name)].externalID;
      SamePoolChildren(k, g, h, pid, vs.name, pools[i], specs);
    }
    var desired :| LC.DesiredFor(stack.routingRules, g, vs.name, desired) && Rules.DistinctSpecs(desired) && LC.RulesKept(k, g, id, vs, desired);
    assert LC.DesiredFor(stack.routingRules, h, vs.name, desired);
    var before, owned :| LC.RulesDone(before, owned, k, g, id, vs, desired);
    var out :| Rules.Converged(before, Rules.ViewOf(k, id), owned, false, desired, out) && LC.RulesOnRecord(g.routingRules, vs, out);
    assert LC.RulesDone(before, owned, k, h, id, vs, desired);
  }

  lemma SameEntry(g: Graph, h: Graph, name: string, r: Resource)
    requires name in g.virtualServers && g.virtualServers[name] == r && h == g.(virtualServers := g.virtualServers[name := r])
    ensures h == g
  {
    assert g.virtualServers[name := r] == g.virtualServers;
  }

  /** What hangs on the listener that a round has ensured. `graph0` is the graph before the round. */
  method EnsureTheirs(k: Kid.ChildClient, g: Graph, req: Request, lb: Id, vs: VirtualServer, id: Id, ghost k0: Kid.Kids, ghost g0: Graph,
                      ghost graph0: Graph, ghost near: iset<Id>, ghost ids: seq<Id>)
    returns (h: Graph, changed: bool, failure: Option<Kid.Problem>)
    requires k.Valid() && Convergence.StackFits(req.stack, req.resolve) && g == graph0.(virtualServers := g.virtualServers)
    requires |ids| < |req.stack.virtualServers| && vs == req.stack.virtualServers[|ids|] && id !in ids
    requires Convergence.ChildrenDone(k0, g0, k.kids, graph0, ids, req.stack, req.resolve)
    requires Convergence.KidsDistinct(k.kids, near) && id in near
    modifies k
    ensures k.Valid() && k.faults <= old(k.faults) && SparesOthers(k0, g0, k.kids)
    ensures failure.None? ==>
              && Convergence.ChildrenDone(k0, g0, k.kids, h, ids + [id], req.stack, req.resolve) && LC.OnlyListener(g, h, vs.name)
              && Convergence.KidsDistinct(k.kids, near)
    ensures LC.ListenerRests(old(k.kids), g, id, vs, req.stack, req.resolve) ==>
              && k.kids == old(k.kids) && k.calls == old(k.calls) && h == g && (failure.None? ==> !changed)
              && (failure.Some? ==> k.faults < old(k.faults) || lb == NO_ID || id == NO_ID)
  {
    hide Kid.WellFormedKids, SparesOthers, LC.ListenerRests, LC.OnlyListener, LC.ListenerDone, Convergence.ChildrenDone, LC.Workable,
      Convergence.StackFits, LC.AllDistinct, LC.PoolIDsApart, LC.OldOrNew, LC.OffPools, LC.StillKeyed, Rules.Respects, Pools.OnlyOwn,
      Rules.OnlyRules, LC.KeysOf, LC.MonitoredKeys, LC.AddsMonitors, LC.OwnIDs, LC.PoolsFor, Convergence.KidsDistinct, LC.NamesDefault;
    ghost var k1 := k.kids;
    ChildrenReady(k0, g0, k1, graph0, g, near, ids, id, vs, req);
    ghost var mid;
    h, changed, failure, mid := LC.EnsureChildren(k, g, lb, id, vs, req.stack, req.resolve);
    StepSparesOthers(k0, g0, k1, mid, k.kids, graph0, g, ids, id, vs, req);
    if failure.None? {
      ChildrenJoin(k0, g0, k1, mid, k.kids, g, h, ids, id, vs, req);
      Convergence.StepKeepsDistinct(k1, mid, k.kids, near, id, LC.OwnIDs(g, LC.KeysOf(vs.name, LC.PoolsFor(req.stack, vs))) * Kid.PoolsOf(k1, id));
    }
  }

  /** A round's listener is ensured, and its children are next. */
  lemma RoundJoins(actor: string, n0: Net, l0: seq<Event>, calls: seq<Call>, n: Net, l: seq<Event>, k0: Kid.Kids, g0: Graph, k: Kid.Kids,
                   req: Request, g: Graph, h: Graph, lb: Id, vip: Id, vs: VirtualServer, vsID: Id, laterVsID: Id, vreq: VirtualServers.Request,
                   id: Id, ids: seq<Id>)
    requires LoopDone(n0, k0, g0, k, g, lb, vip, req, vsID, ids) && Fit(req)
    requires WellFormed(n0) && WellFormed(n) && Span(actor, n0, l0, calls, n, l) && ListenerEnsured(n0, n, vreq, id, calls)
    requires id != NO_ID && vreq.(reachable := false, front := NO_FRONT) == RequestFor(req, g, lb, vip, vs, vsID, false)
    requires |ids| < |req.stack.virtualServers| && vs == req.stack.virtualServers[|ids|]
    requires h == g.(virtualServers := g.virtualServers[vs.name := ListenerEntry(req, vs, id, vs.name)])
    requires laterVsID == (if |req.stack.virtualServers| == 1 then id else vsID)
    ensures Orderly(n, h, req.stack, laterVsID) && Standing(n, h, lb, vip, req.stack, ids + [id]) && id !in ids
    ensures Hashed(h, req, |ids| + 1)
    ensures !req.aggregate ==>
              && Convergence.ChildrenDone(k0, g0, k, g, ids, req.stack, req.resolve)
              && Convergence.KidsDistinct(k, Near(n, h, req.stack, laterVsID)) && id in Near(n, h, req.stack, laterVsID)
  {
    hide WellFormed, Span, HashOf, Standing, Hashed, Orderly, Near, RequestFor, ListenerEnsured, LC.Workable, Convergence.ChildrenDone,
      Convergence.KidsDistinct;
    ListenerJoins(actor, n0, l0, calls, n, l, req, g, h, lb, vip, vs, vsID, laterVsID, vreq, id, ids);
    if !req.aggregate {
      FewerDistinct(k, Near(n0, g, req.stack, vsID), Near(n, h, req.stack, laterVsID));
    }
  }

  /** One round of the loop. */
  method EnsureOne(c: Client, k: Kid.ChildClient, observed: Observed.State, req: Request, lb: Id, subnet: string, n: nat,
                   ghost k0: Kid.Kids, ghost g0: Graph, ghost ids: seq<Id>, ghost hyp: bool)
    returns (err: Option<Stop>, changed: bool, ghost calls: seq<Call>, ghost id: Id)
    requires c.Valid() && k.Valid() && Anchored(c.naming, c.net, c.actor, lb) && n < |req.stack.virtualServers|
    requires forall i | 0 <= i < |req.stack.virtualServers| ::
               req.stack.virtualServers[i].name != "" && OwnName(c.naming, c.actor, req.stack.virtualServers[i].name)
    requires Vouched(c.naming, c.net, c.actor, lb, KnownIDs(observed.graph, observed.vsID))
    requires !req.aggregate ==> hyp
    requires hyp ==> |ids| == n && Fit(req)
                     && LoopDone(c.net, k0, g0, k.kids, observed.graph, lb, observed.vipID, req, observed.vsID, ids)
    requires SparesOthers(k0, g0, k.kids) && KeepsVIP(c.net, c.actor, lb, observed.vipID, FrontOf(req, subnet))
    modifies c, k, observed`graph, observed`vsID, observed`vsName
    ensures c.Valid() && k.Valid() && c.faults <= old(c.faults) && k.faults <= old(k.faults)
    ensures Span(c.actor, old(c.net), old(c.log), calls, c.net, c.log)
    ensures Anchored(c.naming, c.net, c.actor, lb) && Vouched(c.naming, c.net, c.actor, lb, KnownIDs(observed.graph, observed.vsID))
    ensures SparesOthers(k0, g0, k.kids) && CreatesOn(calls, observed.vipID, FrontOf(req, subnet))
    ensures KeepsVIP(c.net, c.actor, lb, observed.vipID, FrontOf(req, subnet))
    ensures err.None? ==>
              && DeletedBy(calls) == {} && (req.aggregate ==> k.kids == old(k.kids) && k.calls == old(k.calls))
              && req.stack.virtualServers[n].name in observed.graph.virtualServers
              && observed.graph.virtualServers == old(observed.graph.virtualServers)[req.stack.virtualServers[n].name :=
                   observed.graph.virtualServers[req.stack.virtualServers[n].name]]
              && (Keyed(old(observed.graph).virtualServers) ==> Keyed(observed.graph.virtualServers))
              && ScalarFollows(req.stack, old(observed.vsID), observed.graph, observed.vsID)
              && observed.graph.lbServices == old(observed.graph.lbServices) && observed.graph.vips == old(observed.graph.vips)
              && (req.aggregate ==> observed.graph == old(observed.graph).(virtualServers := observed.graph.virtualServers))
    ensures err.None? && hyp ==> LoopDone(c.net, k0, g0, k.kids, observed.graph, lb, observed.vipID, req, observed.vsID, ids + [id])
    ensures c.quiet && hyp && old(LoopRests(c.net, k.kids, observed.graph, lb, observed.vipID, req, observed.vsID)) ==>
              && calls == [] && c.net == old(c.net) && k.kids == old(k.kids) && k.calls == old(k.calls)
              && (err.None? ==> !changed && observed.graph == old(observed.graph))
              && (old(c.faults) == 0 && old(k.faults) == 0 && old(Answered(c.net, observed.graph, lb, observed.vipID, req, observed.vsID)) ==>
                    err.None?)
  {
    hide Inv, Run, Span, WellFormed, Anchored, Vouched, OwnName, Orderly, Standing, Convergence.ChildrenDone, LC.Workable, DeletedBy,
      KnownIDs, Stands, LC.ListenerDone, RequestFor, ListenerEnsured, HashOf, Kid.WellFormedKids, SparesOthers, LoopRests,
      VirtualServers.Rests, CurrentID, LC.ListenerRests, LC.OnlyListener, Hashed, KeepsVIP, CreatesOn, Near, Convergence.KidsDistinct,
      Answered, VirtualServers.Unobstructed, HasAggregatePool, LoopDone, ListenerEntry, Keyed, ScalarFollows, Convergence.NamesFit,
      VirtualServers.IsNamed, IsRequest;
    ghost var n0, l0, graph0, vsID0 := c.net, c.log, observed.graph, observed.vsID;
    InvIsWellFormed(c.naming, n0);
    var vs := req.stack.virtualServers[n];
    var got;
    ghost var vreq;
    id := NO_ID;
    NameAmong(req.stack.virtualServers, n);
    got, calls, vreq := EnsureListener(c, observed, req, lb, subnet, vs);
    ghost var rests := c.quiet && hyp && LoopRests(n0, k.kids, graph0, lb, observed.vipID, req, vsID0);
    RestsNow(n0, k.kids, graph0, lb, observed.vipID, req, vsID0, n, vreq);
    if Answered(n0, graph0, lb, observed.vipID, req, vsID0) {
      AnsweredNow(n0, graph0, lb, observed.vipID, req, vsID0, n, vreq);
    }
    if got.Err? {
      return Some(got.error), false, calls, id;
    }
    changed := got.value;
    var vsID := observed.graph.virtualServers[vs.name].externalID;
    id := vsID;
    ghost var graph1 := observed.graph;
    ghost var n1 := c.net;
    InvIsWellFormed(c.naming, n1);
    NoCallDooms(n0, n1, vreq, id, calls);
    EntryJoins(req, graph0, graph1, vs, vsID0, observed.vsID, id, n);
    ghost var near := Near(n1, graph1, req.stack, observed.vsID);
    if hyp {
      RoundJoins(c.actor, n0, l0, calls, n1, c.log, k0, g0, k.kids, req, graph0, graph1, lb, observed.vipID, vs, vsID0, observed.vsID, vreq, id, ids);
    }
    if rests {
      SameEntry(graph0, graph1, vs.name, ListenerEntry(req, vs, id, vs.name));
    }
    err := None;
    if !req.aggregate {
      AnchoredSays(c.naming, n1, c.actor, lb);
      var h, changed1, failure := EnsureTheirs(k, observed.graph, req, lb, vs, vsID, k0, g0, graph0, near, ids);
      if failure.Some? {
        return Some(ChildFailing(failure.value)), changed, calls, id;
      }
      changed := changed || changed1;
      observed.graph := h;
      SameKnownListeners(graph1, h, vs.name, observed.vsID);
      SameScalarFollows(req.stack, vsID0, graph1, h, observed.vsID);
    }
    if hyp {
      LoopGoesOn(n1, k0, g0, k.kids, graph1, observed.graph, lb, observed.vipID, req, observed.vsID, ids + [id], near);
    }
  }

  lemma EntryJoins(req: Request, g: Graph, h: Graph, vs: VirtualServer, vsID: Id, laterVsID: Id, id: Id, i: nat)
    requires i < |req.stack.virtualServers| && vs == req.stack.virtualServers[i] && id != NO_ID
    requires h == g.(virtualServers := g.virtualServers[vs.name := ListenerEntry(req, vs, id, vs.name)])
    requires laterVsID == (if |req.stack.virtualServers| == 1 then id else vsID)
    ensures (Keyed(g.virtualServers) ==> Keyed(h.virtualServers)) && ScalarFollows(req.stack, vsID, h, laterVsID)
  {
    hide HashOf;
  }

  lemma SameScalarFollows(stack: Stack, vsID0: Id, g: Graph, h: Graph, vsID: Id)
    requires h.virtualServers == g.virtualServers && ScalarFollows(stack, vsID0, g, vsID)
    ensures ScalarFollows(stack, vsID0, h, vsID)
  {
  }

  lemma SameKnownListeners(g: Graph, h: Graph, vs: string, vsID: Id)
    requires LC.OnlyListener(g, h, vs)
    ensures h.virtualServers == g.virtualServers && h.lbServices == g.lbServices && h.vips == g.vips && KnownIDs(h, vsID) == KnownIDs(g, vsID)
  {
    Convergence.OnlyListenerRules(g, h, vs);
  }

  lemma LoopGoesOn(n: Net, k0: Kid.Kids, g0: Graph, k: Kid.Kids, g: Graph, h: Graph, lb: Id, vip: Id, req: Request, vsID: Id, ids: seq<Id>,
                   near: iset<Id>)
    requires h.virtualServers == g.virtualServers && near == Near(n, g, req.stack, vsID)
    requires Orderly(n, g, req.stack, vsID) && Standing(n, g, lb, vip, req.stack, ids) && Hashed(g, req, |ids|)
    requires !req.aggregate ==>
               Convergence.ChildrenDone(k0, g0, k, h, ids, req.stack, req.resolve) && Convergence.KidsDistinct(k, near)
    ensures LoopDone(n, k0, g0, k, h, lb, vip, req, vsID, ids)
  {
    hide Stands, HashOf, Convergence.ChildrenDone, Convergence.KidsDistinct;
    assert Near(n, h, req.stack, vsID) == near;
  }

  // ----- The listener loop -----

  /** The scalar listener id is that of the stack's only listener, or else the one of before. */
  predicate ScalarFollows(stack: Stack, oldVsID: Id, g: Graph, vsID: Id) {
    if |stack.virtualServers| == 1 then vsID == IDAt(g.virtualServers, stack.virtualServers[0].name) else vsID == oldVsID
  }

  /** Entries are added or replaced under these names, and nowhere else. */
  ghost predicate RecordsNames(bucket: Bucket, after: Bucket, names: set<string>) {
    && after.Keys == bucket.Keys + names && (Keyed(bucket) ==> Keyed(after))
    && (forall key | key in bucket && key !in names :: after[key] == bucket[key])
  }

  lemma RecordsOneMore(bucket: Bucket, b: Bucket, after: Bucket, names: set<string>, name: string)
    requires RecordsNames(bucket, b, names) && name in after && after == b[name := after[name]] && (Keyed(b) ==> Keyed(after))
    ensures RecordsNames(bucket, after, names + {name})
  {
  }

  lemma NameAmong(vss: seq<VirtualServer>, i: nat)
    requires i < |vss|
    ensures vss[i].name in Recovery.Names(vss)
  {
  }

  method EnsureListeners(c: Client, k: Kid.ChildClient, observed: Observed.State, req: Request, lb: Id, subnet: string, ghost hyp: bool)
    returns (err: Option<Stop>, changed: bool, ghost calls: seq<Call>, ghost ids: seq<Id>)
    requires c.Valid() && k.Valid() && Anchored(c.naming, c.net, c.actor, lb) && lb in c.net.issued
    requires forall i | 0 <= i < |req.stack.virtualServers| ::
               req.stack.virtualServers[i].name != "" && OwnName(c.naming, c.actor, req.stack.virtualServers[i].name)
    requires Vouched(c.naming, c.net, c.actor, lb, KnownIDs(observed.graph, observed.vsID))
    requires !req.aggregate ==> hyp
    requires hyp ==> Ordered(c.net, k.kids, observed.graph, req, observed.vsID)
    requires KeepsVIP(c.net, c.actor, lb, observed.vipID, FrontOf(req, subnet))
    modifies c, k, observed`graph, observed`vsID, observed`vsName
    ensures c.Valid() && k.Valid() && c.faults <= old(c.faults) && k.faults <= old(k.faults)
    ensures Span(c.actor, old(c.net), old(c.log), calls, c.net, c.log)
    ensures Anchored(c.naming, c.net, c.actor, lb) && Vouched(c.naming, c.net, c.actor, lb, KnownIDs(observed.graph, observed.vsID))
    ensures SparesOthers(old(k.kids), old(observed.graph), k.kids) && CreatesOn(calls, observed.vipID, FrontOf(req, subnet))
    ensures KeepsVIP(c.net, c.actor, lb, observed.vipID, FrontOf(req, subnet))
    ensures err.None? ==>
              && DeletedBy(calls) == {} && (req.aggregate ==> k.kids == old(k.kids) && k.calls == old(k.calls))
              && RecordsNames(old(observed.graph).virtualServers, observed.graph.virtualServers, Recovery.Names(req.stack.virtualServers))
              && (req.stack.virtualServers != [] ==> ScalarFollows(req.stack, old(observed.vsID), observed.graph, observed.vsID))
              && observed.graph.lbServices == old(observed.graph.lbServices) && observed.graph.vips == old(observed.graph.vips)
              && (req.aggregate ==> observed.graph == old(observed.graph).(virtualServers := observed.graph.virtualServers))
    ensures err.None? && hyp ==>
              && |ids| == |req.stack.virtualServers|
              && LoopDone(c.net, old(k.kids), old(observed.graph), k.kids, observed.graph, lb, observed.vipID, req, observed.vsID, ids)
    ensures c.quiet && hyp && old(LoopRests(c.net, k.kids, observed.graph, lb, observed.vipID, req, observed.vsID)) ==>
              && calls == [] && c.net == old(c.net) && k.kids == old(k.kids) && k.calls == old(k.calls)
              && (err.None? ==> !changed && observed.graph == old(observed.graph))
              && (old(c.faults) == 0 && old(k.faults) == 0 && old(Answered(c.net, observed.graph, lb, observed.vipID, req, observed.vsID)) ==>
                    err.None?)
  {
    hide Inv, Run, Span, WellFormed, Anchored, Vouched, OwnName, LoopDone, DeletedBy, KnownIDs, Kid.WellFormedKids, Fit,
      RecordsNames, Keyed, SparesOthers, CreatesOn, LoopRests, CurrentID, ScalarFollows, Recovery.Names,
      RecordedUpTo, KeepsVIP, Answered;
    ghost var n0, l0, k0, g0 := c.net, c.log, k.kids, observed.graph;
    ghost var rests := c.quiet && hyp && LoopRests(n0, k0, g0, lb, observed.vipID, req, observed.vsID);
    InvIsWellFormed(c.naming, n0);
    SpanNothing(c.actor, n0, l0);
    err, changed, calls, ids := None, false, [], [];
    NoneDoomed();
    AnchoredSays(c.naming, n0, c.actor, lb);
    var vss := req.stack.virtualServers;
    if hyp {
      LoopStarts(n0, k0, g0, lb, observed.vipID, req, observed.vsID);
    }
    NothingRecorded(g0, observed.vsID, req);
    NothingTouched(k0, g0);
    for i := 0 to |vss|
      invariant c.Valid() && k.Valid() && c.faults <= old(c.faults) && k.faults <= old(k.faults)
      invariant Span(c.actor, n0, l0, calls, c.net, c.log) && DeletedBy(calls) == {} && err.None?
      invariant CreatesOn(calls, observed.vipID, FrontOf(req, subnet)) && KeepsVIP(c.net, c.actor, lb, observed.vipID, FrontOf(req, subnet))
      invariant Anchored(c.naming, c.net, c.actor, lb) && c.actor in c.net.services
      invariant Vouched(c.naming, c.net, c.actor, lb, KnownIDs(observed.graph, observed.vsID))
      invariant SparesOthers(k0, g0, k.kids) && (req.aggregate ==> k.kids == old(k.kids) && k.calls == old(k.calls))
      invariant RecordedUpTo(g0, old(observed.vsID), observed.graph, observed.vsID, req, i)
      invariant rests ==>
                  && !changed && calls == [] && c.net == n0 && k.kids == k0 && k.calls == old(k.calls)
                  && observed.graph == g0
      invariant hyp ==> |ids| == i && Fit(req)
                        && LoopDone(c.net, k0, g0, k.kids, observed.graph, lb, observed.vipID, req, observed.vsID, ids)
    {
      ghost var n1, l1, g1, vsID1 := c.net, c.log, observed.graph, observed.vsID;
      ScalarMeanwhile(g0, old(observed.vsID), g1, vsID1, req, i);
      InvIsWellFormed(c.naming, n1);
      var changed0;
      ghost var step, id;
      err, changed0, step, id := EnsureOne(c, k, observed, req, lb, subnet, i, k0, g0, ids, hyp);
      SpanConcat(c.actor, n0, l0, calls, n1, l1, step, c.net, c.log);
      DeletedByConcat(calls, step);
      CreatesOnConcat(calls, step, observed.vipID, FrontOf(req, subnet));
      AnchoredSays(c.naming, c.net, c.actor, lb);
      calls := calls + step;
      if err.Some? {
        return;
      }
      RecordedGrows(g0, old(observed.vsID), g1, vsID1, observed.graph, observed.vsID, req, i);
      ids := ids + [id];
      changed := changed || changed0;
    }
    RecordedAll(g0, old(observed.vsID), observed.graph, observed.vsID, req);
  }

  /** What the loop has done to the graph and the scalar after `i` listeners. */
  ghost predicate RecordedUpTo(g0: Graph, vsID0: Id, g: Graph, vsID: Id, req: Request, i: nat)
    requires i <= |req.stack.virtualServers|
  {
    && RecordsNames(g0.virtualServers, g.virtualServers, Recovery.Names(req.stack.virtualServers[..i]))
    && g.lbServices == g0.lbServices && g.vips == g0.vips && (req.aggregate ==> g == g0.(virtualServers := g.virtualServers))
    && (if i == 0 then vsID == vsID0 else ScalarFollows(req.stack, vsID0, g, vsID))
    && (0 < i < |req.stack.virtualServers| ==> vsID == vsID0)
  }

  lemma ScalarMeanwhile(g0: Graph, vsID0: Id, g: Graph, vsID: Id, req: Request, i: nat)
    requires i < |req.stack.virtualServers| && RecordedUpTo(g0, vsID0, g, vsID, req, i)
    ensures vsID == vsID0
  {
  }

  lemma NothingRecorded(g: Graph, vsID: Id, req: Request)
    ensures RecordedUpTo(g, vsID, g, vsID, req, 0)
  {
    assert Recovery.Names(req.stack.virtualServers[..0]) == {};
  }

  lemma RecordedGrows(g0: Graph, vsID0: Id, g: Graph, vsID: Id, h: Graph, laterVsID: Id, req: Request, i: nat)
    requires i < |req.stack.virtualServers| && RecordedUpTo(g0, vsID0, g, vsID, req, i) && ScalarFollows(req.stack, vsID, h, laterVsID)
    requires var name := req.stack.virtualServers[i].name;
             name in h.virtualServers && h.virtualServers == g.virtualServers[name := h.virtualServers[name]]
    requires (Keyed(g.virtualServers) ==> Keyed(h.virtualServers)) && h.lbServices == g.lbServices && h.vips == g.vips
    requires req.aggregate ==> h == g.(virtualServers := h.virtualServers)
    ensures RecordedUpTo(g0, vsID0, h, laterVsID, req, i + 1)
  {
    hide RecordsNames, Keyed, Recovery.Names;
    var vss := req.stack.virtualServers;
    Recovery.NamesGrow(vss, i);
    RecordsOneMore(g0.virtualServers, g.virtualServers, h.virtualServers, Recovery.Names(vss[..i]), vss[i].name);
  }

  lemma RecordedAll(g0: Graph, vsID0: Id, g: Graph, vsID: Id, req: Request)
    requires RecordedUpTo(g0, vsID0, g, vsID, req, |req.stack.virtualServers|)
    ensures RecordsNames(g0.virtualServers, g.virtualServers, Recovery.Names(req.stack.virtualServers))
    ensures req.stack.virtualServers != [] ==> ScalarFollows(req.stack, vsID0, g, vsID)
    ensures g.lbServices == g0.lbServices && g.vips == g0.vips && (req.aggregate ==> g == g0.(virtualServers := g.virtualServers))
  {
    hide RecordsNames, Recovery.Names, ScalarFollows;
    assert req.stack.virtualServers[..|req.stack.virtualServers|] == req.stack.virtualServers;
  }

  lemma NothingTouched(k: Kid.Kids, g: Graph)
    ensures SparesOthers(k, g, k)
  {
    Convergence.UntouchedItself(k, Convergence.RecordedPoolIDs(g), Convergence.RecordedRuleIDs(g));
  }

  lemma CreatesOnConcat(a: seq<Call>, b: seq<Call>, vip: Id, front: Frontend)
    requires CreatesOn(a, vip, front) && CreatesOn(b, vip, front)
    ensures CreatesOn(a + b, vip, front)
  {
  }

  lemma NoneDoomed()
    ensures DeletedBy([]) == {} && forall vip, front :: CreatesOn([], vip, front)
  {
  }

  lemma LoopStarts(n: Net, k: Kid.Kids, g: Graph, lb: Id, vip: Id, req: Request, vsID: Id)
    requires Ordered(n, k, g, req, vsID) && lb in n.issued && Kid.WellFormedKids(k)
    ensures LoopDone(n, k, g, k, g, lb, vip, req, vsID, []) && Fit(req)
  {
    hide Kid.WellFormedKids, Convergence.KidsDistinct, LC.PoolIDsApart, Orderly, Convergence.NamesFit, LC.Workable,
      Convergence.ChildrenDone, Near;
    if !req.aggregate {
      Convergence.LoopBegins(k, g, req.stack, req.resolve);
    }
  }

  // ----- Before and after the loop -----

  lemma OrderlyLater(n: Net, m: Net, g: Graph, h: Graph, stack: Stack, vsID: Id)
    requires Orderly(n, g, stack, vsID) && NamesLater(n, m) && h.virtualServers == g.virtualServers && NO_ID !in m.listeners
    ensures Orderly(m, h, stack, vsID)
  {
  }

  /** What recovery puts on record keeps names and ids in order: the listeners were seen under those names. */
  lemma AdoptionIsOrderly(actor: string, req: Request, g: Graph, h: Graph, found: map<string, VSInfo>, seen: Net, n: Net, l: seq<Event>,
                          lb: Id, vsID: Id)
    requires WellFormed(seen) && WellFormed(n) && Span(actor, seen, l, [], n, l) && Recovery.FindsAll(seen, lb, req.stack.virtualServers, found)
    requires Orderly(seen, g, req.stack, vsID) && Convergence.NamesFit(req.stack.virtualServers)
    requires h == g.(virtualServers := Adopt(req, g.virtualServers, found, req.stack.virtualServers))
    ensures Orderly(n, h, req.stack, vsID)
  {
    hide Adopt, Recovery.FindsAll, Span, Convergence.NamesFit, Orderly, Sighted, WellFormed, NamesLater;
    AdoptedAreSighted(req, g, h, found, seen, lb);
    SpanKeepsNames(actor, seen, l, [], n, l);
    SightedIsOrderly(seen, n, g, h, found, req.stack, vsID);
  }

  /** Adopted listeners bore the names before. */
  lemma AdoptionIsNear(actor: string, req: Request, g: Graph, h: Graph, found: map<string, VSInfo>, seen: Net, n: Net, l: seq<Event>,
                       lb: Id, vsID: Id)
    requires WellFormed(seen) && Span(actor, seen, l, [], n, l) && Recovery.FindsAll(seen, lb, req.stack.virtualServers, found)
    requires h == g.(virtualServers := Adopt(req, g.virtualServers, found, req.stack.virtualServers))
    ensures Near(n, h, req.stack, vsID) <= Near(seen, g, req.stack, vsID)
  {
    hide Adopt, Recovery.FindsAll, Span, WellFormed, Recovery.Names;
    AdoptedAreSighted(req, g, h, found, seen, lb);
    FoundAreWanted(seen, lb, req.stack.virtualServers, found);
    SpanKeepsNames(actor, seen, l, [], n, l);
  }

  lemma FoundAreWanted(seen: Net, lb: Id, vss: seq<VirtualServer>, found: map<string, VSInfo>)
    requires Recovery.FindsAll(seen, lb, vss, found)
    ensures found.Keys <= Recovery.Names(vss)
  {
  }

  lemma AdoptedAreSighted(req: Request, g: Graph, h: Graph, found: map<string, VSInfo>, seen: Net, lb: Id)
    requires WellFormed(seen) && Recovery.FindsAll(seen, lb, req.stack.virtualServers, found)
    requires h == g.(virtualServers := Adopt(req, g.virtualServers, found, req.stack.virtualServers))
    ensures Sighted(seen, g, h, found)
  {
    hide Adopt, Recovery.FindsAll, Summary, WellFormed, Recovery.Names;
    AdoptedAreFound(req, g.virtualServers, found, req.stack.virtualServers);
    forall key | key in found
      ensures found[key].id in seen.listeners && seen.listeners[found[key].id].name == key && found[key].id in seen.issued && found[key].id != NO_ID
    {
      FoundIsNamed(seen, lb, req.stack.virtualServers, found, key);
    }
  }

  /** What the record has in addition was seen under the name it is recorded under. */
  ghost predicate Sighted(seen: Net, g: Graph, h: Graph, found: map<string, VSInfo>) {
    && (forall key | key in found ::
          found[key].id in seen.listeners && seen.listeners[found[key].id].name == key && found[key].id in seen.issued && found[key].id != NO_ID)
    && g.virtualServers.Keys <= h.virtualServers.Keys
    && (forall key | key in h.virtualServers ::
          (key in g.virtualServers && h.virtualServers[key] == g.virtualServers[key])
          || (key in found && h.virtualServers[key].externalID == found[key].id))
  }

  lemma SightedIsOrderly(seen: Net, n: Net, g: Graph, h: Graph, found: map<string, VSInfo>, stack: Stack, vsID: Id)
    requires WellFormed(n) && NamesLater(seen, n) && Sighted(seen, g, h, found) && Orderly(seen, g, stack, vsID)
    ensures Orderly(n, h, stack, vsID)
  {
    hide WellFormed;
    NoEmptyListener(n);
    SightedApart(seen, g, h, found);
  }

  lemma NoEmptyListener(n: Net)
    requires WellFormed(n)
    ensures NO_ID !in n.listeners
  {
  }

  lemma SightedApart(seen: Net, g: Graph, h: Graph, found: map<string, VSInfo>)
    requires Sighted(seen, g, h, found) && NamesMatch(seen, g) && ListenerIDsApart(g)
    ensures ListenerIDsApart(h) && NamesMatch(seen, h)
  {
  }

  lemma FoundIsNamed(seen: Net, lb: Id, vss: seq<VirtualServer>, found: map<string, VSInfo>, key: string)
    requires WellFormed(seen) && Recovery.FindsAll(seen, lb, vss, found) && key in found
    ensures Summary(seen, found[key]) && found[key].name == key && found[key].id in seen.listeners
            && seen.listeners[found[key].id].name == key && found[key].id in seen.issued && found[key].id != NO_ID
  {
    assert Summary(seen, found[key]);
  }

  /** The graph without migrated aliases. */
  function Dropped(g: Graph): Graph {
    g.(lbServices := Observed.Drop(g.lbServices, Observed.LEGACY_LB), vips := Observed.Drop(g.vips, Observed.LEGACY_VIP),
       virtualServers := Observed.Drop(g.virtualServers, Observed.LEGACY_VS))
  }

  /** No id that the loop has ensured is deleted afterwards: not as an alias, and not under an obsolete name. */
  lemma EnsuredAreNotObsolete(n: Net, g: Graph, lb: Id, vip: Id, stack: Stack, vsID: Id, ids: seq<Id>)
    requires Orderly(n, g, stack, vsID) && Standing(n, g, lb, vip, stack, ids) && |ids| == |stack.virtualServers|
    requires forall i | 0 <= i < |stack.virtualServers| :: '/' !in stack.virtualServers[i].name
    ensures Standing(n, Dropped(g), lb, vip, stack, ids)
    ensures forall j | 0 <= j < |ids| ::
              ids[j] !in ListenerIDsAt(Dropped(g), ObsoleteListeners(Dropped(g), Recovery.Names(stack.virtualServers)))
  {
    hide Stands;
    assert Observed.LEGACY_VS[6] == '/';
    Observed.DropKeepsIds(g.virtualServers, Observed.LEGACY_VS);
    var h := Dropped(g);
    var obsolete := ObsoleteListeners(h, Recovery.Names(stack.virtualServers));
    forall j | 0 <= j < |ids| ensures stack.virtualServers[j].name in h.virtualServers && ids[j] !in ListenerIDsAt(h, obsolete) {
      var name := stack.virtualServers[j].name;
      assert name in Recovery.Names(stack.virtualServers) && name != Observed.LEGACY_VS;
      forall key | key in obsolete ensures h.virtualServers[key].externalID != ids[j] {
        assert key != name && h.virtualServers[key] == g.virtualServers[key];
      }
    }
  }
}
