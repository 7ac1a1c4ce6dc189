/** CleanupStack (pkg/deploy/lbaas/cleanup.go): deletes exactly what a graph records, children before parents. */
module Teardown {
  import opened Common
  import opened Model
  import opened Cluster
  import opened Text
  import opened Protocol
  import opened Safety
  import opened Progress
  import opened Provider
  import Sorting
  import DesiredHash
  import GraphKeys
  import Observed
  import Kid = Children
  import Rules
  import Monitors
  import Pools

  // ----- Which load balancer -----

  function ParentIDs(lbID: Id, g: Graph): set<Id> {
    (if lbID != NO_ID then {lbID} else {}) + Observed.Ids(g.lbServices)
  }

  /** cleanupLBServiceID: the only recorded parent; with several there is no answer. */
  method LBServiceID(lbID: Id, g: Graph) returns (r: Option<Id>)
    ensures match r
            case None => exists a, b :: a in ParentIDs(lbID, g) && b in ParentIDs(lbID, g) && a != b
            case Some(id) => if id == NO_ID then ParentIDs(lbID, g) == {} else ParentIDs(lbID, g) == {id}
  {
    var ids := if lbID != NO_ID then {lbID} else {};
    var left := g.lbServices.Keys;
    while left != {}
      invariant left <= g.lbServices.Keys && ids <= ParentIDs(lbID, g) && (lbID != NO_ID ==> lbID in ids)
      invariant forall key | key in g.lbServices && key !in left && g.lbServices[key].externalID != NO_ID :: g.lbServices[key].externalID in ids
      decreases left
    {
      var key :| key in left;
      left := left - {key};
      if g.lbServices[key].externalID != NO_ID {
        ids := ids + {g.lbServices[key].externalID};
      }
    }
    assert ids == ParentIDs(lbID, g);
    if ids == {} {
      return Some(NO_ID);
    }
    var id :| id in ids;
    if ids == {id} {
      return Some(id);
    }
    assert ids - {id} != {};
    ghost var other :| other in ids - {id};
    return None;
  }

  // ----- What is deleted, in which order -----

  /** sortedResources: the entries with an id, by key. */
  ghost predicate Enumerates(bucket: Bucket, keys: seq<string>, list: seq<Resource>) {
    && Sorting.Sorted(Less, keys) && |list| == |keys|
    && (forall i | 0 <= i < |keys| :: keys[i] in bucket && bucket[keys[i]] == list[i] && list[i].externalID != NO_ID)
    && (forall key | key in bucket && bucket[key].externalID != NO_ID :: key in keys)
    && (forall i, j | 0 <= i < |keys| && 0 <= j < |keys| && keys[i] == keys[j] :: i == j)
  }

  method KeysOf(bucket: Bucket) returns (keys: seq<string>)
    ensures forall key :: key in keys <==> key in bucket
    ensures forall i, j | 0 <= i < |keys| && 0 <= j < |keys| && keys[i] == keys[j] :: i == j
  {
    keys := [];
    var left := bucket.Keys;
    while left != {}
      invariant left <= bucket.Keys && forall key :: key in keys <==> key in bucket && key !in left
      invariant forall i, j | 0 <= i < |keys| && 0 <= j < |keys| && keys[i] == keys[j] :: i == j
      decreases left
    {
      var key :| key in left;
      left := left - {key};
      keys := keys + [key];
    }
  }

  lemma PermutationsKeepKeys(a: seq<string>, b: seq<string>)
    requires multiset(a) == multiset(b) && forall i, j | 0 <= i < |a| && 0 <= j < |a| && a[i] == a[j] :: i == j
    ensures forall key :: key in a <==> key in b
    ensures forall i, j | 0 <= i < |b| && 0 <= j < |b| && b[i] == b[j] :: i == j
  {
    assert forall key :: key in a <==> key in multiset(a);
    assert forall key :: key in b <==> key in multiset(b);
    forall i, j | 0 <= i < j < |b| ensures b[i] != b[j] {
      if b[i] == b[j] {
        CountTwo(b, i, j);
        CountOne(a, b[i]);
      }
    }
  }

  lemma CountTwo(s: seq<string>, i: nat, j: nat)
    requires i < j < |s| && s[i] == s[j]
    ensures multiset(s)[s[i]] >= 2
  {
    assert s == s[..i + 1] + s[i + 1..];
    assert s[i] in s[..i + 1] && s[j] == s[i + 1..][j - i - 1];
    assert s[i] in s[i + 1..];
  }

  lemma {:induction false} CountOne(s: seq<string>, x: string)
    requires forall i, j | 0 <= i < |s| && 0 <= j < |s| && s[i] == s[j] :: i == j
    ensures multiset(s)[x] <= 1
  {
    if s != [] {
      var t := s[..|s| - 1];
      assert s == t + [s[|s| - 1]];
      CountOne(t, x);
      if x == s[|s| - 1] {
        assert x !in t;
      }
    }
  }

  method SortedResources(bucket: Bucket) returns (list: seq<Resource>, keys: seq<string>)
    ensures Enumerates(bucket, keys, list)
  {
    hide Less;
    var all := KeysOf(bucket);
    DesiredHash.LessIsWeakOrder();
    var sorted := Sorting.SortSlice(all, Less);
    PermutationsKeepKeys(all, sorted);
    list, keys := [], [];
    for i := 0 to |sorted|
      invariant |list| == |keys| && forall j | 0 <= j < |keys| :: keys[j] in bucket && bucket[keys[j]] == list[j] && list[j].externalID != NO_ID
      invariant forall j | 0 <= j < i && bucket[sorted[j]].externalID != NO_ID :: sorted[j] in keys
      invariant forall j | 0 <= j < |keys| :: keys[j] in sorted[..i]
      invariant Sorting.Sorted(Less, keys)
      invariant forall a, b | 0 <= a < |keys| && 0 <= b < |keys| && keys[a] == keys[b] :: a == b
    {
      var key := sorted[i];
      if bucket[key].externalID != NO_ID {
        list, keys := list + [bucket[key]], keys + [key];
      }
    }
  }

  function IDs(list: seq<Resource>): set<Id> {
    set i | 0 <= i < |list| :: list[i].externalID
  }

  lemma EnumerationHasAllIDs(bucket: Bucket, keys: seq<string>, list: seq<Resource>)
    requires Enumerates(bucket, keys, list)
    ensures IDs(list) == Observed.Ids(bucket)
  {
    hide Less;
    forall id | id in Observed.Ids(bucket) ensures id in IDs(list) {
      var key :| key in bucket && bucket[key].externalID == id;
      var i :| 0 <= i < |keys| && keys[i] == key;
      assert list[i].externalID == id;
    }
  }

  lemma IDsGrow(list: seq<Resource>, n: nat)
    requires n < |list|
    ensures IDs(list[..n + 1]) == IDs(list[..n]) + {list[n].externalID}
  {
    var more := list[..n + 1];
    assert more[n] == list[n];
    forall id | id in IDs(list[..n]) ensures id in IDs(more) {
      var i :| 0 <= i < n && list[..n][i].externalID == id;
      assert more[i].externalID == id;
    }
  }

  // ----- Listeners, VIPs and the load balancer -----

  function ListenerCalls(lb: Id, list: seq<Resource>): seq<Call> {
    seq(|list|, i requires 0 <= i < |list| => DeleteListener(lb, list[i].externalID))
  }

  function VIPCalls(lb: Id, list: seq<Resource>): seq<Call> {
    seq(|list|, i requires 0 <= i < |list| => Call.DeleteVIP(lb, list[i].externalID, Why.Cleanup))
  }

  function LBCalls(lb: Id, deleteLB: bool): seq<Call> {
    if deleteLB then [DeleteLB(lb, Why.Cleanup)] else []
  }

  lemma CallsGrow(lb: Id, list: seq<Resource>, n: nat)
    requires n < |list|
    ensures ListenerCalls(lb, list[..n + 1]) == ListenerCalls(lb, list[..n]) + [DeleteListener(lb, list[n].externalID)]
    ensures VIPCalls(lb, list[..n + 1]) == VIPCalls(lb, list[..n]) + [Call.DeleteVIP(lb, list[n].externalID, Why.Cleanup)]
  {
  }

  /** Recorded listeners are on the load balancer and bear names of their own Service, as far as they exist. */
  ghost predicate Recorded(nm: Naming, n: Net, actor: string, lb: Id, ids: set<Id>) {
    forall id | id in ids && id in n.listeners :: n.listeners[id].lb == lb && OwnName(nm, actor, n.listeners[id].name)
  }

  predicate CreatesNothing(calls: seq<Call>) {
    forall i | 0 <= i < |calls| :: !calls[i].CreateLB? && !calls[i].CreateVIP? && !calls[i].CreateListener?
  }

  lemma RecordedStays(nm: Naming, actor: string, n0: Net, l0: seq<Event>, calls: seq<Call>, n: Net, l: seq<Event>, lb: Id, ids: set<Id>)
    requires WellFormed(n0) && Span(actor, n0, l0, calls, n, l) && CreatesNothing(calls) && Recorded(nm, n0, actor, lb, ids)
    ensures Recorded(nm, n, actor, lb, ids)
  {
    hide OwnName;
  }

  lemma GoneStays(actor: string, n0: Net, l0: seq<Event>, calls: seq<Call>, n: Net, l: seq<Event>, ids: set<Id>)
    requires WellFormed(n0) && Span(actor, n0, l0, calls, n, l) && CreatesNothing(calls) && AllGone(n0, ids)
    ensures AllGone(n, ids)
  {
  }

  lemma RecordedOne(nm: Naming, n: Net, actor: string, lb: Id, ids: set<Id>, id: Id)
    requires Recorded(nm, n, actor, lb, ids) && id in ids
    ensures id in n.listeners ==> n.listeners[id].lb == lb && OwnName(nm, actor, n.listeners[id].name)
  {
  }

  /** A listener whose deletion was accepted and that no longer reads is gone for good. */
  lemma DeletedAndUnreadable(actor: string, n0: Net, l0: seq<Event>, n: Net, l: seq<Event>, lb: Id, id: Id)
    requires WellFormed(n0) && Span(actor, n0, l0, [], n, l)
    requires id in n0.listeners ==> n0.listeners[id].lb == lb && n0.listeners[id].status == DELETING
    requires id in n.listeners && n.listeners[id].lb == lb ==> !n.listeners[id].readable
    ensures Gone(n, id)
  {
  }

  /** The listener loop: each one is deleted and then read back. It stops at the first that can still be read. */
  method DeleteListeners(c: Client, lb: Id, list: seq<Resource>, ghost all: set<Id>)
    returns (err: Option<Problem>, any: bool, ghost n: nat)
    requires c.Valid() && c.actor in c.net.services && IDs(list) <= all && Recorded(c.naming, c.net, c.actor, lb, all)
    modifies c
    ensures c.Valid() && c.faults <= old(c.faults) && n <= |list|
    ensures Span(c.actor, old(c.net), old(c.log), ListenerCalls(lb, list[..n]), c.net, c.log)
    ensures err.None? ==> n == |list| && AllGone(c.net, IDs(list)) && (any <==> list != [])
    ensures err.Some? ==>
              && n > 0 && AllGone(c.net, IDs(list[..n - 1]))
              && (err.value == Pending(VirtualServerKind, list[n - 1].externalID) || (err.value.CallFailed? && c.faults < old(c.faults)))
    ensures err.Some? && err.value.Pending? ==>
              var id := list[n - 1].externalID;
              id in c.net.listeners && c.net.listeners[id].readable && c.net.listeners[id].status == DELETING
  {
    hide Inv, Run, Span, WellFormed, Unique, Recorded, AllGone, Gone, IDs, OwnName, ListenerCalls;
    ghost var n0, l0 := c.net, c.log;
    InvIsWellFormed(c.naming, n0);
    SpanNothing(c.actor, n0, l0);
    NothingYet(n0, lb, list);
    any, err, n := false, None, 0;
    for i := 0 to |list|
      invariant c.Valid() && c.faults <= old(c.faults) && n == i && (any <==> i > 0)
      invariant Span(c.actor, n0, l0, ListenerCalls(lb, list[..i]), c.net, c.log)
      invariant AllGone(c.net, IDs(list[..i])) && Recorded(c.naming, c.net, c.actor, lb, all)
    {
      var id := list[i].externalID;
      ghost var n1, l1 := c.net, c.log;
      InvIsWellFormed(c.naming, n1);
      SpanKeepsServices(c.actor, n0, l0, ListenerCalls(lb, list[..i]), n1, l1);
      IDsGrow(list, i);
      AmongAll(list, i);
      CallsGrow(lb, list, i);
      RecordedOne(c.naming, n1, c.actor, lb, all, id);
      var deleted := c.DeleteVirtualServer(lb, id);
      n := i + 1;
      ghost var step := [DeleteListener(lb, id)];
      SpanConcat(c.actor, n0, l0, ListenerCalls(lb, list[..i]), n1, l1, step, c.net, c.log);
      GoneStays(c.actor, n1, l1, step, c.net, c.log, IDs(list[..i]));
      RecordedStays(c.naming, c.actor, n1, l1, step, c.net, c.log, lb, all);
      assert list[..i + 1][..i] == list[..i];
      if deleted.Err? && deleted.error != NotFound {
        return Some(CallFailed(deleted.error)), any, n;
      }
      ghost var n2, l2 := c.net, c.log;
      InvIsWellFormed(c.naming, n2);
      RecordedOne(c.naming, n2, c.actor, lb, all, id);
      var got := c.GetVirtualServer(lb, id);
      SpanThenReads(c.actor, n0, l0, ListenerCalls(lb, list[..i + 1]), n2, l2, c.net, c.log);
      GoneStays(c.actor, n2, l2, [], c.net, c.log, IDs(list[..i]));
      RecordedStays(c.naming, c.actor, n2, l2, [], c.net, c.log, lb, all);
      if got.Ok? {
        StillDeleting(c.actor, n2, l2, c.net, c.log, id);
        return Some(Pending(VirtualServerKind, id)), any, n;
      }
      if got.error != NotFound {
        return Some(CallFailed(got.error)), any, n;
      }
      DeletedAndUnreadable(c.actor, n2, l2, c.net, c.log, lb, id);
      OneMoreGone(c.net, IDs(list[..i]), id);
      any := true;
    }
    assert list[..|list|] == list;
  }

  lemma NothingYet(n: Net, lb: Id, list: seq<Resource>)
    ensures ListenerCalls(lb, list[..0]) == [] && VIPCalls(lb, list[..0]) == []
    ensures AllGone(n, IDs(list[..0])) && VIPsGone(n, lb, IDs(list[..0]))
  {
  }

  lemma AmongAll(list: seq<Resource>, i: nat)
    requires i < |list|
    ensures list[i].externalID in IDs(list)
  {
  }

  lemma OneMoreGone(n: Net, ids: set<Id>, id: Id)
    requires AllGone(n, ids) && Gone(n, id)
    ensures AllGone(n, ids + {id})
  {
  }

  lemma StillDeleting(actor: string, n0: Net, l0: seq<Event>, n: Net, l: seq<Event>, id: Id)
    requires WellFormed(n0) && Span(actor, n0, l0, [], n, l) && id in n.listeners
    requires id in n0.listeners ==> n0.listeners[id].status == DELETING
    ensures n.listeners[id].status == DELETING
  {
  }

  predicate VIPGone(n: Net, lb: Id, id: Id) {
    id in n.vips && n.vips[id].lb == lb ==> n.vips[id].status == DELETING
  }

  predicate VIPsGone(n: Net, lb: Id, ids: set<Id>) {
    forall id | id in ids :: VIPGone(n, lb, id)
  }

  lemma VIPsGoneStays(actor: string, n0: Net, l0: seq<Event>, calls: seq<Call>, n: Net, l: seq<Event>, lb: Id, ids: set<Id>)
    requires WellFormed(n0) && Span(actor, n0, l0, calls, n, l) && CreatesNothing(calls) && VIPsGone(n0, lb, ids)
    ensures VIPsGone(n, lb, ids)
  {
  }

  ghost predicate MayDeleteVIPs(nm: Naming, n: Net, actor: string, lb: Id, ids: set<Id>) {
    actor in n.services && forall id | id in ids :: MayDeleteVIP(nm, n, actor, lb, id, Why.Cleanup)
  }

  lemma MayDeleteVIPsStays(nm: Naming, actor: string, n0: Net, l0: seq<Event>, calls: seq<Call>, n: Net, l: seq<Event>, lb: Id, ids: set<Id>)
    requires WellFormed(n0) && Span(actor, n0, l0, calls, n, l) && CreatesNothing(calls) && MayDeleteVIPs(nm, n0, actor, lb, ids)
    ensures MayDeleteVIPs(nm, n, actor, lb, ids)
  {
    hide Span, WellFormed, CreatesNothing, AllGone, RecordedListeners, RecordedVIPs, SoleParent, SharedVIP;
    SpanKeepsServices(actor, n0, l0, calls, n, l);
    var s := n0.services[actor];
    SharedVIPEvolves(n0, n, actor, s.lbID, s.vipID);
    forall id | id in ids ensures MayDeleteVIP(nm, n, actor, lb, id, Why.Cleanup) {
      assert MayDeleteVIP(nm, n0, actor, lb, id, Why.Cleanup);
      GoneStays(actor, n0, l0, calls, n, l, RecordedListeners(s));
    }
  }

  lemma OneToDelete(nm: Naming, n: Net, actor: string, lb: Id, list: seq<Resource>, i: nat)
    requires i < |list| && MayDeleteVIPs(nm, n, actor, lb, IDs(list))
    ensures ControllerGuard(nm, n, actor, Call.DeleteVIP(lb, list[i].externalID, Why.Cleanup))
  {
    hide MayDeleteVIP;
    AmongAll(list, i);
  }

  lemma OneVIPCreatesNothing(lb: Id, id: Id)
    ensures CreatesNothing([Call.DeleteVIP(lb, id, Why.Cleanup)])
  {
  }

  method DeleteVIPs(c: Client, lb: Id, list: seq<Resource>)
    returns (err: Option<Problem>, any: bool, ghost n: nat)
    requires c.Valid() && MayDeleteVIPs(c.naming, c.net, c.actor, lb, IDs(list))
    modifies c
    ensures c.Valid() && c.faults <= old(c.faults) && n <= |list|
    ensures Span(c.actor, old(c.net), old(c.log), VIPCalls(lb, list[..n]), c.net, c.log)
    ensures err.None? ==> n == |list| && VIPsGone(c.net, lb, IDs(list)) && (any <==> list != [])
    ensures err.Some? ==> n > 0 && err.value.CallFailed? && c.faults < old(c.faults)
  {
    hide Inv, Run, Span, WellFormed, Unique, IDs, VIPCalls, VIPsGone, MayDeleteVIPs, ControllerGuard, CreatesNothing;
    ghost var n0, l0 := c.net, c.log;
    InvIsWellFormed(c.naming, n0);
    SpanNothing(c.actor, n0, l0);
    NothingYet(n0, lb, list);
    any, err, n := false, None, 0;
    for i := 0 to |list|
      invariant c.Valid() && c.faults <= old(c.faults) && n == i && (any <==> i > 0)
      invariant Span(c.actor, n0, l0, VIPCalls(lb, list[..i]), c.net, c.log) && VIPsGone(c.net, lb, IDs(list[..i]))
      invariant MayDeleteVIPs(c.naming, c.net, c.actor, lb, IDs(list))
    {
      var id := list[i].externalID;
      ghost var n1, l1 := c.net, c.log;
      InvIsWellFormed(c.naming, n1);
      CallsGrow(lb, list, i);
      OneToDelete(c.naming, n1, c.actor, lb, list, i);
      OneVIPCreatesNothing(lb, id);
      var deleted := c.DeleteVIP(lb, id, Why.Cleanup);
      n := i + 1;
      ghost var step := [Call.DeleteVIP(lb, id, Why.Cleanup)];
      SpanConcat(c.actor, n0, l0, VIPCalls(lb, list[..i]), n1, l1, step, c.net, c.log);
      MayDeleteVIPsStays(c.naming, c.actor, n1, l1, step, c.net, c.log, lb, IDs(list));
      VIPsGoneStays(c.actor, n1, l1, step, c.net, c.log, lb, IDs(list[..i]));
      IDsGrow(list, i);
      if deleted.Err? && deleted.error != NotFound {
        return Some(CallFailed(deleted.error)), any, n;
      }
      OneMoreVIPGone(c.net, lb, IDs(list[..i]), id);
      any := true;
    }
    assert list[..|list|] == list;
  }

  lemma OneMoreVIPGone(n: Net, lb: Id, ids: set<Id>, id: Id)
    requires VIPsGone(n, lb, ids) && VIPGone(n, lb, id)
    ensures VIPsGone(n, lb, ids + {id})
  {
  }

  method DeleteLBService(c: Client, lb: Id) returns (err: Option<Problem>)
    requires c.Valid() && MayDelete(c.net, c.actor, lb, Why.Cleanup)
    modifies c
    ensures c.Valid() && c.faults <= old(c.faults)
    ensures Span(c.actor, old(c.net), old(c.log), [DeleteLB(lb, Why.Cleanup)], c.net, c.log)
    ensures err.None? ==> Vacant(c.net, lb)
    ensures err.Some? ==> err.value == Pending(LBServiceKind, lb) || (err.value.CallFailed? && c.faults < old(c.faults))
    ensures err.Some? && err.value.Pending? ==> lb in c.net.lbs && c.net.lbs[lb].status == DELETING
  {
    hide Inv, Run, Span, WellFormed, Unique, AllGone, RecordedListeners, Shared, SoleParent;
    ghost var n0, l0 := c.net, c.log;
    InvIsWellFormed(c.naming, n0);
    var deleted := c.DeleteLBService(lb, Why.Cleanup);
    if deleted.Err? && deleted.error != NotFound {
      return Some(CallFailed(deleted.error));
    }
    ghost var n1, l1 := c.net, c.log;
    InvIsWellFormed(c.naming, n1);
    var got := c.GetLBService(lb);
    SpanThenReads(c.actor, n0, l0, [DeleteLB(lb, Why.Cleanup)], n1, l1, c.net, c.log);
    if got.Ok? {
      LBStillDeleting(c.actor, n1, l1, c.net, c.log, lb);
      return Some(Pending(LBServiceKind, lb));
    }
    if got.error != NotFound {
      return Some(CallFailed(got.error));
    }
    return None;
  }

  lemma LBStillDeleting(actor: string, n0: Net, l0: seq<Event>, n: Net, l: seq<Event>, lb: Id)
    requires WellFormed(n0) && Span(actor, n0, l0, [], n, l) && lb in n.lbs
    requires lb in n0.lbs ==> n0.lbs[lb].status == DELETING
    ensures n.lbs[lb].status == DELETING
  {
  }

  // ----- Rules, members, monitors and pools -----

  /** The child calls for one recorded resource, with the parents that its key is looked up under. */
  function RuleCall(g: Graph, r: Resource): seq<Kid.KidCall> {
    var vs := GraphKeys.VSIDFor(g, r.logicalID);
    if vs == NO_ID || r.externalID == NO_ID then [] else [Kid.DeleteRule(vs, r.externalID)]
  }

  function MemberCall(g: Graph, r: Resource): seq<Kid.KidCall> {
    [Kid.DeleteMember(GraphKeys.ParentIDsFor(g, r.logicalID).1, r.externalID)]
  }

  function MonitorCall(g: Graph, r: Resource): seq<Kid.KidCall> {
    var parents := GraphKeys.ParentIDsFor(g, r.logicalID);
    if parents.0 == NO_ID || parents.1 == NO_ID || r.externalID == NO_ID then [] else [Kid.DeleteMonitor(parents.1, r.externalID)]
  }

  function PoolCall(g: Graph, r: Resource): seq<Kid.KidCall> {
    var vs := GraphKeys.VSIDFor(g, r.logicalID);
    if vs == NO_ID || r.externalID == NO_ID then [] else [Kid.DeletePool(vs, r.externalID)]
  }

  function Concat(f: Resource -> seq<Kid.KidCall>, list: seq<Resource>): seq<Kid.KidCall> {
    if list == [] then [] else Concat(f, list[..|list| - 1]) + f(list[|list| - 1])
  }

  lemma ConcatGrows(f: Resource -> seq<Kid.KidCall>, list: seq<Resource>, n: nat)
    requires n < |list|
    ensures Concat(f, list[..n + 1]) == Concat(f, list[..n]) + f(list[n])
  {
    assert list[..n + 1][..n] == list[..n];
  }

  predicate RuleGone(k: Kid.Kids, g: Graph, r: Resource) {
    var vs := GraphKeys.VSIDFor(g, r.logicalID);
    vs != NO_ID ==> r.externalID !in Kid.RulesOf(k, vs)
  }

  predicate MemberGone(k: Kid.Kids, g: Graph, r: Resource) {
    var parents := GraphKeys.ParentIDsFor(g, r.logicalID);
    Kid.PoolAt(k, parents.0, parents.1) ==> r.externalID !in Kid.MembersOf(k, parents.1)
  }

  predicate MonitorGone(k: Kid.Kids, g: Graph, r: Resource) {
    var parents := GraphKeys.ParentIDsFor(g, r.logicalID);
    parents.0 != NO_ID && parents.1 != NO_ID && Kid.PoolAt(k, parents.0, parents.1) ==> r.externalID !in Kid.MonitorsOf(k, parents.1)
  }

  predicate PoolGone(k: Kid.Kids, g: Graph, r: Resource) {
    var vs := GraphKeys.VSIDFor(g, r.logicalID);
    vs != NO_ID ==> !Kid.PoolAt(k, vs, r.externalID)
  }

  lemma GoneStaysGone(a: Kid.Kids, b: Kid.Kids, g: Graph, r: Resource)
    requires Kid.Shrinks(a, b)
    ensures RuleGone(a, g, r) ==> RuleGone(b, g, r)
    ensures MemberGone(a, g, r) ==> MemberGone(b, g, r)
    ensures MonitorGone(a, g, r) ==> MonitorGone(b, g, r)
    ensures PoolGone(a, g, r) ==> PoolGone(b, g, r)
  {
    hide GraphKeys.VSIDFor, GraphKeys.ParentIDsFor;
  }

  method DeleteRules(c: Kid.ChildClient, lb: Id, g: Graph, list: seq<Resource>) returns (err: Option<Kid.Problem>, ghost n: nat)
    requires c.Valid() && lb != NO_ID && forall i | 0 <= i < |list| :: list[i].externalID != NO_ID
    modifies c
    ensures c.Valid() && c.faults <= old(c.faults) && n <= |list| && Kid.Shrinks(old(c.kids), c.kids)
    ensures c.calls == old(c.calls) + Concat(r => RuleCall(g, r), list[..n])
    ensures err.None? ==> n == |list| && forall r | r in list :: RuleGone(c.kids, g, r)
    ensures err.Some? ==> c.faults < old(c.faults)
  {
    hide GraphKeys.VSIDFor, GraphKeys.ParentIDsFor, Kid.Shrinks, Kid.WellFormedKids, RuleGone;
    ghost var k0, calls0 := c.kids, c.calls;
    ghost var f := r => RuleCall(g, r);
    Kid.ShrinksItself(k0);
    n := 0;
    assert list[..0] == [];
    for i := 0 to |list|
      invariant c.Valid() && c.faults <= old(c.faults) && Kid.Shrinks(k0, c.kids) && n == i
      invariant c.calls == calls0 + Concat(f, list[..i])
      invariant forall r | r in list[..i] :: RuleGone(c.kids, g, r)
    {
      ghost var k := c.kids;
      ConcatGrows(f, list, i);
      var vs := GraphKeys.VSIDFor(g, list[i].logicalID);
      var r := Rules.Cleanup(c, lb, vs, list[i].externalID);
      n := i + 1;
      Kid.Removed(k, c.kids, vs, list[i].externalID);
      Kid.ShrinksChains(k0, k, c.kids);
      if r.Err? && r.error != Kid.NotFound {
        return Some(Kid.CallFailed(r.error)), n;
      }
      RuleIsGone(k, c.kids, g, list[i]);
      forall x | x in list[..i] ensures RuleGone(c.kids, g, x) {
        GoneStaysGone(k, c.kids, g, x);
      }
      assert forall x | x in list[..i + 1] :: x in list[..i] || x == list[i];
    }
    assert list[..|list|] == list;
    err := None;
  }

  method DeleteMembers(c: Kid.ChildClient, lb: Id, g: Graph, list: seq<Resource>) returns (err: Option<Kid.Problem>, ghost n: nat)
    requires c.Valid() && lb != NO_ID && forall i | 0 <= i < |list| :: list[i].externalID != NO_ID
    modifies c
    ensures c.Valid() && c.faults <= old(c.faults) && n <= |list| && Kid.Shrinks(old(c.kids), c.kids)
    ensures c.calls == old(c.calls) + Concat(r => MemberCall(g, r), list[..n])
    ensures err.None? ==> n == |list| && forall r | r in list :: MemberGone(c.kids, g, r)
    ensures err.Some? ==> c.faults < old(c.faults)
  {
    hide GraphKeys.VSIDFor, GraphKeys.ParentIDsFor, Kid.Shrinks, Kid.WellFormedKids, MemberGone;
    ghost var k0, calls0 := c.kids, c.calls;
    ghost var f := r => MemberCall(g, r);
    Kid.ShrinksItself(k0);
    n := 0;
    assert list[..0] == [];
    for i := 0 to |list|
      invariant c.Valid() && c.faults <= old(c.faults) && Kid.Shrinks(k0, c.kids) && n == i
      invariant c.calls == calls0 + Concat(f, list[..i])
      invariant forall r | r in list[..i] :: MemberGone(c.kids, g, r)
    {
      ghost var k := c.kids;
      ConcatGrows(f, list, i);
      var parents := GraphKeys.ParentIDsFor(g, list[i].logicalID);
      var r := c.DeletePoolMember(parents.0, parents.1, list[i].externalID);
      n := i + 1;
      Kid.Removed(k, c.kids, parents.1, list[i].externalID);
      Kid.ShrinksChains(k0, k, c.kids);
      if r.Err? && r.error != Kid.NotFound {
        return Some(Kid.CallFailed(r.error)), n;
      }
      MemberIsGone(k, c.kids, g, list[i]);
      forall x | x in list[..i] ensures MemberGone(c.kids, g, x) {
        GoneStaysGone(k, c.kids, g, x);
      }
      assert forall x | x in list[..i + 1] :: x in list[..i] || x == list[i];
    }
    assert list[..|list|] == list;
    err := None;
  }

  method DeleteMonitors(c: Kid.ChildClient, lb: Id, g: Graph, list: seq<Resource>) returns (err: Option<Kid.Problem>, ghost n: nat)
    requires c.Valid() && lb != NO_ID && forall i | 0 <= i < |list| :: list[i].externalID != NO_ID
    modifies c
    ensures c.Valid() && c.faults <= old(c.faults) && n <= |list| && Kid.Shrinks(old(c.kids), c.kids)
    ensures c.calls == old(c.calls) + Concat(r => MonitorCall(g, r), list[..n])
    ensures err.None? ==> n == |list| && forall r | r in list :: MonitorGone(c.kids, g, r)
    ensures err.Some? ==> c.faults < old(c.faults)
  {
    hide GraphKeys.VSIDFor, GraphKeys.ParentIDsFor, Kid.Shrinks, Kid.WellFormedKids, MonitorGone;
    ghost var k0, calls0 := c.kids, c.calls;
    ghost var f := r => MonitorCall(g, r);
    Kid.ShrinksItself(k0);
    n := 0;
    assert list[..0] == [];
    for i := 0 to |list|
      invariant c.Valid() && c.faults <= old(c.faults) && Kid.Shrinks(k0, c.kids) && n == i
      invariant c.calls == calls0 + Concat(f, list[..i])
      invariant forall r | r in list[..i] :: MonitorGone(c.kids, g, r)
    {
      ghost var k := c.kids;
      ConcatGrows(f, list, i);
      var parents := GraphKeys.ParentIDsFor(g, list[i].logicalID);
      var r := Monitors.Cleanup(c, lb, parents.0, parents.1, list[i].externalID);
      n := i + 1;
      Kid.Removed(k, c.kids, parents.1, list[i].externalID);
      Kid.ShrinksChains(k0, k, c.kids);
      if r.Err? && r.error != Kid.NotFound {
        return Some(Kid.CallFailed(r.error)), n;
      }
      MonitorIsGone(k, c.kids, g, list[i]);
      forall x | x in list[..i] ensures MonitorGone(c.kids, g, x) {
        GoneStaysGone(k, c.kids, g, x);
      }
      assert forall x | x in list[..i + 1] :: x in list[..i] || x == list[i];
    }
    assert list[..|list|] == list;
    err := None;
  }

  method DeletePools(c: Kid.ChildClient, lb: Id, g: Graph, list: seq<Resource>) returns (err: Option<Kid.Problem>, ghost n: nat)
    requires c.Valid() && lb != NO_ID && forall i | 0 <= i < |list| :: list[i].externalID != NO_ID
    modifies c
    ensures c.Valid() && c.faults <= old(c.faults) && n <= |list| && Kid.Shrinks(old(c.kids), c.kids)
    ensures c.calls == old(c.calls) + Concat(r => PoolCall(g, r), list[..n])
    ensures err.None? ==> n == |list| && forall r | r in list :: PoolGone(c.kids, g, r)
    ensures err.Some? ==> c.faults < old(c.faults)
  {
    hide GraphKeys.VSIDFor, GraphKeys.ParentIDsFor, Kid.Shrinks, Kid.WellFormedKids, PoolGone;
    ghost var k0, calls0 := c.kids, c.calls;
    ghost var f := r => PoolCall(g, r);
    Kid.ShrinksItself(k0);
    n := 0;
    assert list[..0] == [];
    for i := 0 to |list|
      invariant c.Valid() && c.faults <= old(c.faults) && Kid.Shrinks(k0, c.kids) && n == i
      invariant c.calls == calls0 + Concat(f, list[..i])
      invariant forall r | r in list[..i] :: PoolGone(c.kids, g, r)
    {
      ghost var k := c.kids;
      ConcatGrows(f, list, i);
      var vs := GraphKeys.VSIDFor(g, list[i].logicalID);
      var r := Pools.Cleanup(c, lb, vs, list[i].externalID);
      n := i + 1;
      Kid.Removed(k, c.kids, vs, list[i].externalID);
      Kid.ShrinksChains(k0, k, c.kids);
      if r.Err? && r.error != Kid.NotFound {
        return Some(Kid.CallFailed(r.error)), n;
      }
      PoolIsGone(k, c.kids, g, list[i]);
      forall x | x in list[..i] ensures PoolGone(c.kids, g, x) {
        GoneStaysGone(k, c.kids, g, x);
      }
      assert forall x | x in list[..i + 1] :: x in list[..i] || x == list[i];
    }
    assert list[..|list|] == list;
    err := None;
  }

  lemma RuleIsGone(a: Kid.Kids, b: Kid.Kids, g: Graph, r: Resource)
    requires GraphKeys.VSIDFor(g, r.logicalID) != NO_ID ==> r.externalID !in Kid.RulesOf(b, GraphKeys.VSIDFor(g, r.logicalID))
    ensures RuleGone(b, g, r)
  {
  }

  lemma MemberIsGone(a: Kid.Kids, b: Kid.Kids, g: Graph, r: Resource)
    requires var parents := GraphKeys.ParentIDsFor(g, r.logicalID);
             Kid.PoolAt(b, parents.0, parents.1) ==> r.externalID !in Kid.MembersOf(b, parents.1)
    ensures MemberGone(b, g, r)
  {
  }

  lemma MonitorIsGone(a: Kid.Kids, b: Kid.Kids, g: Graph, r: Resource)
    requires var parents := GraphKeys.ParentIDsFor(g, r.logicalID);
             parents.0 != NO_ID && parents.1 != NO_ID && Kid.PoolAt(b, parents.0, parents.1) ==>
               r.externalID !in Kid.MonitorsOf(b, parents.1)
    ensures MonitorGone(b, g, r)
  {
  }

  lemma PoolIsGone(a: Kid.Kids, b: Kid.Kids, g: Graph, r: Resource)
    requires GraphKeys.VSIDFor(g, r.logicalID) != NO_ID ==> !Kid.PoolAt(b, GraphKeys.VSIDFor(g, r.logicalID), r.externalID)
    ensures PoolGone(b, g, r)
  {
  }

  // ----- CleanupStack -----

  /** The recorded resources of a graph with an id, bucket by bucket in key order. */
  datatype Lists = Lists(
    rules: seq<Resource>, members: seq<Resource>, monitors: seq<Resource>, pools: seq<Resource>,
    listeners: seq<Resource>, vips: seq<Resource>)

  ghost predicate InKeyOrder(bucket: Bucket, list: seq<Resource>) {
    exists keys :: Enumerates(bucket, keys, list)
  }

  ghost predicate Records(g: Graph, all: Lists) {
    && InKeyOrder(g.routingRules, all.rules) && InKeyOrder(g.members, all.members) && InKeyOrder(g.monitors, all.monitors)
    && InKeyOrder(g.pools, all.pools) && InKeyOrder(g.virtualServers, all.listeners) && InKeyOrder(g.vips, all.vips)
  }

  /** Rules, members, monitors, pools: each kind before the kind it hangs on. */
  function ChildScript(g: Graph, all: Lists): seq<Kid.KidCall> {
    Concat(r => RuleCall(g, r), all.rules) + (Concat(r => MemberCall(g, r), all.members)
    + (Concat(r => MonitorCall(g, r), all.monitors) + Concat(r => PoolCall(g, r), all.pools)))
  }

  /** Listeners, then VIPs, then the load balancer. */
  function ParentScript(lb: Id, all: Lists, deleteVIP: bool, deleteLB: bool): seq<Call> {
    ListenerCalls(lb, all.listeners) + ((if deleteVIP then VIPCalls(lb, all.vips) else []) + LBCalls(lb, deleteLB))
  }

  ghost predicate ChildrenGone(k: Kid.Kids, g: Graph, all: Lists) {
    && (forall r | r in all.rules :: RuleGone(k, g, r)) && (forall r | r in all.members :: MemberGone(k, g, r))
    && (forall r | r in all.monitors :: MonitorGone(k, g, r)) && (forall r | r in all.pools :: PoolGone(k, g, r))
  }

  method Enumerate(g: Graph) returns (all: Lists)
    ensures Records(g, all)
    ensures forall list: seq<Resource> | list in [all.rules, all.members, all.monitors, all.pools, all.listeners, all.vips] ::
              forall i | 0 <= i < |list| :: list[i].externalID != NO_ID
    ensures IDs(all.listeners) == Observed.Ids(g.virtualServers) && IDs(all.vips) == Observed.Ids(g.vips)
  {
    ghost var keys;
    var rules, members, monitors, pools, listeners, vips;
    rules, keys := SortedResources(g.routingRules);
    Ordered(g.routingRules, keys, rules);
    members, keys := SortedResources(g.members);
    Ordered(g.members, keys, members);
    monitors, keys := SortedResources(g.monitors);
    Ordered(g.monitors, keys, monitors);
    pools, keys := SortedResources(g.pools);
    Ordered(g.pools, keys, pools);
    listeners, keys := SortedResources(g.virtualServers);
    Ordered(g.virtualServers, keys, listeners);
    EnumerationHasAllIDs(g.virtualServers, keys, listeners);
    vips, keys := SortedResources(g.vips);
    Ordered(g.vips, keys, vips);
    EnumerationHasAllIDs(g.vips, keys, vips);
    all := Lists(rules, members, monitors, pools, listeners, vips);
  }

  lemma Ordered(bucket: Bucket, keys: seq<string>, list: seq<Resource>)
    requires Enumerates(bucket, keys, list)
    ensures InKeyOrder(bucket, list) && forall i | 0 <= i < |list| :: list[i].externalID != NO_ID
  {
  }

  lemma PrefixConcat<T>(a: seq<T>, b: seq<T>, c: seq<T>)
    requires b <= c
    ensures a + b <= a + c && a <= a + c
  {
  }

  lemma {:induction false} ConcatPrefix(f: Resource -> seq<Kid.KidCall>, list: seq<Resource>, n: nat)
    requires n <= |list|
    ensures Concat(f, list[..n]) <= Concat(f, list)
    decreases |list|
  {
    if n < |list| {
      ConcatPrefix(f, list[..|list| - 1], n);
      assert list[..|list| - 1][..n] == list[..n];
    } else {
      assert list[..n] == list;
    }
  }

  lemma Associative<T>(a: seq<T>, b: seq<T>, c: seq<T>)
    ensures (a + b) + c == a + (b + c)
  {
  }

  /** The four child loops. Their calls are a prefix of the script, and the whole script where no call fails. */
  method DeleteChildren(c: Kid.ChildClient, lb: Id, g: Graph, all: Lists) returns (err: Option<Kid.Problem>, ghost done: seq<Kid.KidCall>)
    requires c.Valid() && lb != NO_ID
    requires forall list: seq<Resource> | list in [all.rules, all.members, all.monitors, all.pools] ::
               forall i | 0 <= i < |list| :: list[i].externalID != NO_ID
    modifies c
    ensures c.Valid() && c.faults <= old(c.faults) && Kid.Shrinks(old(c.kids), c.kids)
    ensures c.calls == old(c.calls) + done && done <= ChildScript(g, all)
    ensures err.None? ==> done == ChildScript(g, all) && ChildrenGone(c.kids, g, all)
    ensures err.Some? ==> c.faults < old(c.faults)
  {
    hide Concat, Kid.Shrinks, Kid.WellFormedKids, RuleGone, MemberGone, MonitorGone, PoolGone;
    ghost var k0, calls0 := c.kids, c.calls;
    ghost var a := Concat(r => RuleCall(g, r), all.rules);
    ghost var b := Concat(r => MemberCall(g, r), all.members);
    ghost var m := Concat(r => MonitorCall(g, r), all.monitors);
    ghost var p := Concat(r => PoolCall(g, r), all.pools);
    ghost var n;
    err, n := DeleteRules(c, lb, g, all.rules);
    ConcatPrefix(r => RuleCall(g, r), all.rules, n);
    done := Concat(r => RuleCall(g, r), all.rules[..n]);
    if err.Some? {
      return;
    }
    assert all.rules[..n] == all.rules;
    ghost var k1 := c.kids;
    err, n := DeleteMembers(c, lb, g, all.members);
    ConcatPrefix(r => MemberCall(g, r), all.members, n);
    ghost var part := Concat(r => MemberCall(g, r), all.members[..n]);
    done := a + part;
    Associative(calls0, a, part);
    PrefixConcat(a, part, b + (m + p));
    Kid.ShrinksChains(k0, k1, c.kids);
    if err.Some? {
      return;
    }
    assert all.members[..n] == all.members;
    ghost var k2 := c.kids;
    err, n := DeleteMonitors(c, lb, g, all.monitors);
    ConcatPrefix(r => MonitorCall(g, r), all.monitors, n);
    part := Concat(r => MonitorCall(g, r), all.monitors[..n]);
    done := a + (b + part);
    Associative(a, b, part);
    Associative(calls0, a + b, part);
    PrefixConcat(b, part, m + p);
    PrefixConcat(a, b + part, b + (m + p));
    Kid.ShrinksChains(k0, k2, c.kids);
    if err.Some? {
      return;
    }
    assert all.monitors[..n] == all.monitors;
    ghost var k3 := c.kids;
    err, n := DeletePools(c, lb, g, all.pools);
    ConcatPrefix(r => PoolCall(g, r), all.pools, n);
    part := Concat(r => PoolCall(g, r), all.pools[..n]);
    done := a + (b + (m + part));
    Associative(a, b, m);
    Associative(b, m, part);
    Associative(a, b + m, part);
    Associative(calls0, a + (b + m), part);
    PrefixConcat(m, part, p);
    PrefixConcat(b, m + part, m + p);
    PrefixConcat(a, b + (m + part), b + (m + p));
    Kid.ShrinksChains(k0, k3, c.kids);
    if err.Some? {
      return;
    }
    assert all.pools[..n] == all.pools;
    Kid.ShrinksChains(k2, k3, c.kids);
    Kid.ShrinksChains(k1, k2, c.kids);
    AllStayGone(k1, k2, k3, c.kids, g, all);
  }

  lemma AllStayGone(k1: Kid.Kids, k2: Kid.Kids, k3: Kid.Kids, k4: Kid.Kids, g: Graph, all: Lists)
    requires Kid.Shrinks(k1, k4) && Kid.Shrinks(k2, k4) && Kid.Shrinks(k3, k4)
    requires forall r | r in all.rules :: RuleGone(k1, g, r)
    requires forall r | r in all.members :: MemberGone(k2, g, r)
    requires forall r | r in all.monitors :: MonitorGone(k3, g, r)
    requires forall r | r in all.pools :: PoolGone(k4, g, r)
    ensures ChildrenGone(k4, g, all)
  {
    hide Kid.Shrinks, RuleGone, MemberGone, MonitorGone, PoolGone;
    forall r | r in all.rules ensures RuleGone(k4, g, r) { GoneStaysGone(k1, k4, g, r); }
    forall r | r in all.members ensures MemberGone(k4, g, r) { GoneStaysGone(k2, k4, g, r); }
    forall r | r in all.monitors ensures MonitorGone(k4, g, r) { GoneStaysGone(k3, k4, g, r); }
  }

  /** What the caller of cleanup vouches for: the graph names every listener that the Service has on record; these are
      listeners of the Service on the one recorded load balancer; the graph names no VIP that its annotations do not; and
      parents are only given up where that is allowed. */
  ghost predicate Entitled(nm: Naming, n: Net, actor: string, parents: set<Id>, listeners: set<Id>, vips: set<Id>, deleteVIP: bool,
                           deleteLB: bool) {
    && actor in n.services && var s := n.services[actor];
    && RecordedListeners(s) <= listeners
    && (forall lb | lb in parents && parents == {lb} ::
          Recorded(nm, n, actor, lb, listeners) && SoleParent(s, lb) && (deleteLB ==> !Shared(n, actor, lb)))
    && (deleteVIP ==> vips <= RecordedVIPs(s) && s.vipMode != PROVIDED && !SharedVIP(n, actor, s.lbID, s.vipID))
    && (deleteLB ==> s.lbMode != PROVIDED) && (deleteVIP || deleteLB ==> s.finalizer && !s.wanted)
  }

  lemma EntitledToVIPs(nm: Naming, n: Net, actor: string, lb: Id, listeners: set<Id>, vips: set<Id>, deleteLB: bool)
    requires Entitled(nm, n, actor, {lb}, listeners, vips, true, deleteLB) && AllGone(n, listeners)
    ensures MayDeleteVIPs(nm, n, actor, lb, vips)
  {
    hide Recorded, Shared, SharedVIP, SoleParent, RecordedVIPs, RecordedListeners;
    AllGoneShrinks(n, listeners, RecordedListeners(n.services[actor]));
    assert lb in {lb};
  }

  datatype Flags = Flags(deletedVirtualServer: bool, deletedVIP: bool, deletedLBService: bool)

  /** The loops over listeners and VIPs, and the load balancer at the end. */
  method DeleteParents(c: Client, lb: Id, all: Lists, deleteVIP: bool, deleteLB: bool)
    returns (err: Option<Problem>, flags: Flags, ghost calls: seq<Call>)
    requires c.Valid() && Entitled(c.naming, c.net, c.actor, {lb}, IDs(all.listeners), IDs(all.vips), deleteVIP, deleteLB)
    modifies c
    ensures c.Valid() && c.faults <= old(c.faults) && Span(c.actor, old(c.net), old(c.log), calls, c.net, c.log)
    ensures calls <= ParentScript(lb, all, deleteVIP, deleteLB)
    ensures err.None? ==>
              && calls == ParentScript(lb, all, deleteVIP, deleteLB) && AllGone(c.net, IDs(all.listeners))
              && (deleteVIP ==> VIPsGone(c.net, lb, IDs(all.vips))) && (deleteLB ==> Vacant(c.net, lb))
              && flags == Flags(all.listeners != [], deleteVIP && all.vips != [], deleteLB)
    ensures err.Some? && !err.value.Pending? ==> err.value.CallFailed? && c.faults < old(c.faults)
    ensures err.Some? && err.value.Pending? ==> Stuck(c.net, lb, all, err.value) && (err.value.kind == LBServiceKind ==> deleteLB)
  {
    hide Inv, Run, Span, WellFormed, Unique, Recorded, AllGone, IDs, ListenerCalls, VIPCalls, LBCalls, RecordedListeners, Shared,
      VIPsGone, Vacant, Later, SoleParent, SharedVIP, RecordedVIPs, MayDeleteVIPs;
    ghost var n0, l0 := c.net, c.log;
    InvIsWellFormed(c.naming, n0);
    flags := Flags(false, false, false);
    ghost var a := ListenerCalls(lb, all.listeners);
    ghost var b := if deleteVIP then VIPCalls(lb, all.vips) else [];
    ghost var d := LBCalls(lb, deleteLB);
    var any;
    ghost var n;
    err, any, n := DeleteListeners(c, lb, all.listeners, IDs(all.listeners));
    calls := ListenerCalls(lb, all.listeners[..n]);
    ListenerPrefix(lb, all.listeners, n);
    PrefixConcat(a, [], b + d);
    PrefixTrans(calls, a, a + (b + d));
    flags := flags.(deletedVirtualServer := any);
    if err.Some? {
      if err.value.Pending? {
        StuckListener(c.net, lb, all, n);
      }
      return;
    }
    assert all.listeners[..n] == all.listeners;
    ghost var n1, l1 := c.net, c.log;
    InvIsWellFormed(c.naming, n1);
    NoCreations(lb, all.listeners);
    SpanKeepsServices(c.actor, n0, l0, calls, n1, l1);
    AllGoneShrinks(n1, IDs(all.listeners), RecordedListeners(n1.services[c.actor]));
    if deleteVIP {
      EntitledStays(c.naming, c.actor, n0, l0, calls, n1, l1, {lb}, IDs(all.listeners), IDs(all.vips), deleteVIP, deleteLB);
      EntitledToVIPs(c.naming, n1, c.actor, lb, IDs(all.listeners), IDs(all.vips), deleteLB);
      err, any, n := DeleteVIPs(c, lb, all.vips);
      ghost var part := VIPCalls(lb, all.vips[..n]);
      SpanConcat(c.actor, n0, l0, a, n1, l1, part, c.net, c.log);
      NoCreations(lb, all.vips[..n]);
      GoneStays(c.actor, n1, l1, part, c.net, c.log, IDs(all.listeners));
      calls := a + part;
      VIPPrefix(lb, all.vips, n);
      PrefixConcat(b, [], d);
      PrefixTrans(part, b, b + d);
      PrefixConcat(a, part, b + d);
      flags := flags.(deletedVIP := any);
      if err.Some? {
        return;
      }
      assert all.vips[..n] == all.vips;
    } else {
      assert a + [] == a;
    }
    ghost var n2, l2 := c.net, c.log;
    InvIsWellFormed(c.naming, n2);
    assert calls == a + b;
    Associative(a, b, d);
    SpanKeepsServices(c.actor, n0, l0, calls, n2, l2);
    AllGoneShrinks(n2, IDs(all.listeners), RecordedListeners(n2.services[c.actor]));
    if !deleteLB {
      assert d == [] && b + d == b by { NoLBCalls(lb, b); }
      return;
    }
    SharedEvolves(n0, n2, c.actor, lb);
    err := DeleteLBService(c, lb);
    LBCallIsLast(lb);
    SpanConcat(c.actor, n0, l0, calls, n2, l2, d, c.net, c.log);
    GoneStays(c.actor, n2, l2, d, c.net, c.log, IDs(all.listeners));
    if deleteVIP {
      VIPsGoneStays(c.actor, n2, l2, d, c.net, c.log, lb, IDs(all.vips));
    }
    calls := calls + d;
    flags := flags.(deletedLBService := err.None?);
    if err.Some? && err.value.Pending? {
      StuckLB(c.net, lb, all, err.value);
    }
  }

  /** Cleanup waits for one deletion that the provider has accepted but not finished; everything before it is done. */
  ghost predicate Stuck(n: Net, lb: Id, all: Lists, p: Problem) {
    match p
    case Pending(VirtualServerKind, id) =>
      exists i :: 0 <= i < |all.listeners| && all.listeners[i].externalID == id && AllGone(n, IDs(all.listeners[..i]))
                  && id in n.listeners && n.listeners[id].status == DELETING && n.listeners[id].readable
    case Pending(LBServiceKind, id) =>
      id == lb && AllGone(n, IDs(all.listeners)) && lb in n.lbs && n.lbs[lb].status == DELETING
    case _ => false
  }

  lemma StuckListener(n: Net, lb: Id, all: Lists, i: nat)
    requires 0 < i <= |all.listeners| && AllGone(n, IDs(all.listeners[..i - 1]))
    requires var id := all.listeners[i - 1].externalID;
             id in n.listeners && n.listeners[id].status == DELETING && n.listeners[id].readable
    ensures Stuck(n, lb, all, Pending(VirtualServerKind, all.listeners[i - 1].externalID))
  {
  }

  lemma StuckLB(n: Net, lb: Id, all: Lists, p: Problem)
    requires p == Pending(LBServiceKind, lb) && AllGone(n, IDs(all.listeners)) && lb in n.lbs && n.lbs[lb].status == DELETING
    ensures Stuck(n, lb, all, p)
  {
  }

  lemma PrefixTrans<T>(a: seq<T>, b: seq<T>, c: seq<T>)
    requires a <= b <= c
    ensures a <= c
  {
  }

  lemma ListenerPrefix(lb: Id, list: seq<Resource>, n: nat)
    requires n <= |list|
    ensures ListenerCalls(lb, list[..n]) <= ListenerCalls(lb, list)
  {
  }

  lemma VIPPrefix(lb: Id, list: seq<Resource>, n: nat)
    requires n <= |list|
    ensures VIPCalls(lb, list[..n]) <= VIPCalls(lb, list)
  {
  }

  lemma NoCreations(lb: Id, list: seq<Resource>)
    ensures CreatesNothing(VIPCalls(lb, list)) && CreatesNothing(ListenerCalls(lb, list))
  {
  }

  lemma NoLBCalls(lb: Id, b: seq<Call>)
    ensures LBCalls(lb, false) == [] && b + [] == b
  {
  }

  lemma LBCallIsLast(lb: Id)
    ensures LBCalls(lb, true) == [DeleteLB(lb, Why.Cleanup)]
  {
  }

  lemma AllGoneShrinks(n: Net, ids: set<Id>, fewer: set<Id>)
    requires AllGone(n, ids) && fewer <= ids
    ensures AllGone(n, fewer)
  {
  }

  lemma ScriptCreatesNothing(parents: set<Id>, all: Lists, deleteVIP: bool, deleteLB: bool, calls: seq<Call>)
    requires (|parents| != 1 ==> calls == []) && forall lb | parents == {lb} :: calls <= ParentScript(lb, all, deleteVIP, deleteLB)
    ensures CreatesNothing(calls)
  {
    if |parents| == 1 {
      var lb :| lb in parents;
      OnlyOne(parents, lb);
      assert calls <= ParentScript(lb, all, deleteVIP, deleteLB);
    }
  }

  lemma OnlyOne(parents: set<Id>, lb: Id)
    requires |parents| == 1 && lb in parents
    ensures parents == {lb}
  {
    assert |parents - {lb}| == 0;
  }

  datatype Stopped = Ambiguous | AtChild(kid: Kid.Problem) | AtParent(problem: Problem)

  /** What one run of cleanup over graph `g` has done and found. */
  ghost predicate Outcome(g: Graph, lbID: Id, all: Lists, deleteVIP: bool, deleteLB: bool, aggregate: bool, flags: Flags,
                          err: Option<Stopped>, kidCalls: seq<Kid.KidCall>, calls: seq<Call>, n: Net, k: Kid.Kids) {
    && Records(g, all)
    && (err == Some(Ambiguous) <==> |ParentIDs(lbID, g)| > 1) && (|ParentIDs(lbID, g)| == 0 ==> err.None?)
    && (|ParentIDs(lbID, g)| != 1 ==> calls == [] && kidCalls == [] && flags == Flags(false, false, false))
    && (err.Some? && err.value.AtChild? ==> calls == [])
    && (forall lb | ParentIDs(lbID, g) == {lb} ::
          && kidCalls <= (if aggregate then [] else ChildScript(g, all))
          && calls <= ParentScript(lb, all, deleteVIP, deleteLB)
          && (calls != [] && !aggregate ==> kidCalls == ChildScript(g, all) && ChildrenGone(k, g, all))
          && (err.None? ==> calls == ParentScript(lb, all, deleteVIP, deleteLB) && TornDown(g, lb, deleteVIP, deleteLB, n)
                            && (!aggregate ==> ChildrenGone(k, g, all)))
          && (err.Some? && err.value.AtParent? && err.value.problem.Pending? ==>
                Stuck(n, lb, all, err.value.problem) && (err.value.problem.kind == LBServiceKind ==> deleteLB)))
  }

  /** Every recorded listener is gone, and so are the parents as far as they were to be deleted. */
  ghost predicate TornDown(g: Graph, lb: Id, deleteVIP: bool, deleteLB: bool, n: Net) {
    && AllGone(n, Observed.Ids(g.virtualServers))
    && (deleteVIP ==> VIPsGone(n, lb, Observed.Ids(g.vips))) && (deleteLB ==> Vacant(n, lb))
  }

  lemma NothingCleaned(g: Graph, lbID: Id, all: Lists, deleteVIP: bool, deleteLB: bool, aggregate: bool, n: Net, k: Kid.Kids)
    requires Records(g, all)
    ensures |ParentIDs(lbID, g)| > 1 ==>
              Outcome(g, lbID, all, deleteVIP, deleteLB, aggregate, Flags(false, false, false), Some(Ambiguous), [], [], n, k)
    ensures ParentIDs(lbID, g) == {} ==> Outcome(g, lbID, all, deleteVIP, deleteLB, aggregate, Flags(false, false, false), None, [], [], n, k)
  {
    hide Records, ChildScript, ParentScript, ChildrenGone, TornDown, Stuck, ParentIDs;
    OneParent(ParentIDs(lbID, g));
  }

  lemma OnlyParentCleaned(g: Graph, lbID: Id, lb: Id, all: Lists, deleteVIP: bool, deleteLB: bool, aggregate: bool, flags: Flags,
                          err: Option<Stopped>, kidCalls: seq<Kid.KidCall>, calls: seq<Call>, n: Net, k: Kid.Kids)
    requires Records(g, all) && ParentIDs(lbID, g) == {lb} && err != Some(Ambiguous)
    requires err.Some? && err.value.AtChild? ==> calls == []
    requires kidCalls <= (if aggregate then [] else ChildScript(g, all)) && calls <= ParentScript(lb, all, deleteVIP, deleteLB)
    requires calls != [] && !aggregate ==> kidCalls == ChildScript(g, all) && ChildrenGone(k, g, all)
    requires err.None? ==> calls == ParentScript(lb, all, deleteVIP, deleteLB) && TornDown(g, lb, deleteVIP, deleteLB, n)
                           && (!aggregate ==> ChildrenGone(k, g, all))
    requires err.Some? && err.value.AtParent? && err.value.problem.Pending? ==>
               Stuck(n, lb, all, err.value.problem) && (err.value.problem.kind == LBServiceKind ==> deleteLB)
    ensures Outcome(g, lbID, all, deleteVIP, deleteLB, aggregate, flags, err, kidCalls, calls, n, k)
  {
    hide Records, ChildScript, ParentScript, ChildrenGone, TornDown, Stuck, ParentIDs;
    OneParent(ParentIDs(lbID, g));
  }

  method CleanupGraph(c: Client, k: Kid.ChildClient, g: Graph, lbID: Id, deleteVIP: bool, deleteLB: bool, aggregate: bool)
    returns (flags: Flags, err: Option<Stopped>, ghost all: Lists, ghost kidCalls: seq<Kid.KidCall>, ghost calls: seq<Call>)
    requires c.Valid() && k.Valid()
    requires Entitled(c.naming, c.net, c.actor, ParentIDs(lbID, g), Observed.Ids(g.virtualServers), Observed.Ids(g.vips), deleteVIP, deleteLB)
    modifies c, k
    ensures c.Valid() && k.Valid() && c.faults <= old(c.faults) && k.faults <= old(k.faults)
    ensures Span(c.actor, old(c.net), old(c.log), calls, c.net, c.log)
    ensures k.calls == old(k.calls) + kidCalls && Kid.Shrinks(old(k.kids), k.kids)
    ensures Outcome(g, lbID, all, deleteVIP, deleteLB, aggregate, flags, err, kidCalls, calls, c.net, k.kids)
    ensures err.Some? ==> Fails(err.value, old(c.faults), c.faults, old(k.faults), k.faults)
  {
    hide Inv, Run, Span, WellFormed, Unique, Recorded, AllGone, RecordedListeners, Shared, VIPsGone, Vacant, Kid.Shrinks, Records,
      ChildScript, ParentScript, ChildrenGone, Kid.WellFormedKids, IDs, Stuck, ParentIDs, SoleParent, Unique, Outcome;
    ghost var n0, l0 := c.net, c.log;
    InvIsWellFormed(c.naming, n0);
    SpanNothing(c.actor, n0, l0);
    Kid.ShrinksItself(k.kids);
    var lists := Enumerate(g);
    all, kidCalls, calls := lists, [], [];
    flags := Flags(false, false, false);
    var lb := LBServiceID(lbID, g);
    OneParent(ParentIDs(lbID, g));
    NothingCleaned(g, lbID, all, deleteVIP, deleteLB, aggregate, c.net, k.kids);
    if lb.None? {
      return flags, Some(Ambiguous), all, kidCalls, calls;
    }
    if lb.value == NO_ID {
      return flags, None, all, kidCalls, calls;
    }
    if !aggregate {
      var stopped;
      stopped, kidCalls := DeleteChildren(k, lb.value, g, lists);
      if stopped.Some? {
        OnlyParentCleaned(g, lbID, lb.value, all, deleteVIP, deleteLB, aggregate, flags, Some(AtChild(stopped.value)), kidCalls, [], c.net, k.kids);
        return flags, Some(AtChild(stopped.value)), all, kidCalls, calls;
      }
    }
    var problem;
    problem, flags, calls := DeleteParents(c, lb.value, lists, deleteVIP, deleteLB);
    err := if problem.Some? then Some(AtParent(problem.value)) else None;
    OnlyParentCleaned(g, lbID, lb.value, all, deleteVIP, deleteLB, aggregate, flags, err, kidCalls, calls, c.net, k.kids);
  }

  /** Deletes only what is recorded, children before parents: all calls are a prefix of the script of the graph, and no
      listener is touched before the whole child script is done. With several recorded parents no call is made. Success
      means that every recorded listener (and the load balancer, if asked for) is gone. */
  method CleanupStack(c: Client, k: Kid.ChildClient, current: Observed.State, deleteVIP: bool, deleteLB: bool, aggregate: bool)
    returns (flags: Flags, err: Option<Stopped>, ghost all: Lists, ghost kidCalls: seq<Kid.KidCall>, ghost calls: seq<Call>)
    requires c.Valid() && k.Valid()
    requires Entitled(c.naming, c.net, c.actor, ParentIDs(current.lbID, current.Mirrored()),
                      Observed.Ids(current.Mirrored().virtualServers), Observed.Ids(current.Mirrored().vips), deleteVIP, deleteLB)
    modifies c, k, current`graph
    ensures c.Valid() && k.Valid() && c.faults <= old(c.faults) && k.faults <= old(k.faults)
    ensures Span(c.actor, old(c.net), old(c.log), calls, c.net, c.log)
    ensures k.calls == old(k.calls) + kidCalls && Kid.Shrinks(old(k.kids), k.kids)
    ensures current.graph == old(current.Mirrored())
    ensures Outcome(current.graph, current.lbID, all, deleteVIP, deleteLB, aggregate, flags, err, kidCalls, calls, c.net, k.kids)
    ensures err.Some? ==> Fails(err.value, old(c.faults), c.faults, old(k.faults), k.faults)
  {
    hide Inv, Run, Span, Kid.Shrinks, Outcome, Entitled, Kid.WellFormedKids, ParentIDs;
    current.EnsureGraph();
    flags, err, all, kidCalls, calls := CleanupGraph(c, k, current.graph, current.lbID, deleteVIP, deleteLB, aggregate);
  }

  /** A finished cleanup has had exactly the recorded listeners deleted, and the load balancer only if it was asked to. */
  lemma FinishedDooms(g: Graph, lbID: Id, all: Lists, deleteVIP: bool, deleteLB: bool, aggregate: bool, flags: Flags,
                      kidCalls: seq<Kid.KidCall>, calls: seq<Call>, n: Net, k: Kid.Kids)
    requires Outcome(g, lbID, all, deleteVIP, deleteLB, aggregate, flags, None, kidCalls, calls, n, k)
    ensures DoomedBy(calls).listeners <= Observed.Ids(g.virtualServers) && (!deleteLB ==> DoomedBy(calls).lbs == {})
  {
    hide Records, ChildScript, ChildrenGone, TornDown, ParentIDs, Observed.Ids, DoomedBy, InKeyOrder;
    RecordedIDs(g, all);
    var parents := ParentIDs(lbID, g);
    DoomTells(calls);
    if |parents| == 1 {
      var lb :| lb in parents;
      OnlyOne(parents, lb);
      forall id | id in DoomedBy(calls).listeners ensures id in IDs(all.listeners) {
        var i :| 0 <= i < |calls| && calls[i].DeleteListener? && calls[i].listener == id;
        AmongAll(all.listeners, i);
      }
    }
  }

  lemma RecordedIDs(g: Graph, all: Lists)
    requires Records(g, all)
    ensures IDs(all.listeners) == Observed.Ids(g.virtualServers)
  {
    hide Enumerates;
    var keys :| Enumerates(g.virtualServers, keys, all.listeners);
    EnumerationHasAllIDs(g.virtualServers, keys, all.listeners);
  }

  lemma OneParent(ids: set<Id>)
    ensures ids == {} ==> |ids| == 0
    ensures forall id | ids == {id} :: |ids| == 1
    ensures (exists a, b :: a in ids && b in ids && a != b) ==> |ids| > 1
  {
    if a, b :| a in ids && b in ids && a != b {
      assert {a, b} <= ids;
      assert |{a, b}| == 2;
      SubsetIsSmaller({a, b}, ids);
    }
  }

  lemma {:induction false} SubsetIsSmaller(a: set<Id>, b: set<Id>)
    requires a <= b
    ensures |a| <= |b|
  {
    if a != {} {
      var x :| x in a;
      SubsetIsSmaller(a - {x}, b - {x});
    }
  }

  // ----- Restarts -----

  /** The listeners among them that still read or may read again. */
  ghost function Left(n: Net, ids: set<Id>): set<Id> {
    set id | id in ids && !Gone(n, id)
  }

  /** What is left to be done, and what can still go wrong. */
  ghost function Measure(n: Net, g: Graph, parents: set<Id>, deleteLB: bool, faults: nat, kidFaults: nat): nat {
    |Left(n, Observed.Ids(g.virtualServers))| + (if deleteLB then |parents * n.lbs.Keys| else 0) + faults + kidFaults
  }

  lemma LeftShrinks(actor: string, n0: Net, l0: seq<Event>, calls: seq<Call>, n: Net, l: seq<Event>, ids: set<Id>)
    requires WellFormed(n0) && Span(actor, n0, l0, calls, n, l) && CreatesNothing(calls)
    ensures Left(n, ids) <= Left(n0, ids) && n.lbs.Keys <= n0.lbs.Keys
  {
    hide Span, WellFormed, Gone, AddsOnlyBy;
    forall id | id in ids && Gone(n0, id) ensures Gone(n, id) {
      GoneStays(actor, n0, l0, calls, n, l, {id});
    }
    NoLBsAdded(actor, n0, l0, calls, n, l);
  }

  lemma NoLBsAdded(actor: string, n0: Net, l0: seq<Event>, calls: seq<Call>, n: Net, l: seq<Event>)
    requires Span(actor, n0, l0, calls, n, l) && CreatesNothing(calls)
    ensures n.lbs.Keys <= n0.lbs.Keys
  {
  }

  lemma MeasureShrinks(n0: Net, n: Net, g: Graph, parents: set<Id>, deleteLB: bool, f0: nat, f: nat, kf0: nat, kf: nat)
    requires Left(n, Observed.Ids(g.virtualServers)) <= Left(n0, Observed.Ids(g.virtualServers)) && n.lbs.Keys <= n0.lbs.Keys
    requires f <= f0 && kf <= kf0
    ensures Measure(n, g, parents, deleteLB, f, kf) <= Measure(n0, g, parents, deleteLB, f0, kf0)
    ensures f < f0 || kf < kf0 || Left(n, Observed.Ids(g.virtualServers)) < Left(n0, Observed.Ids(g.virtualServers))
            || (deleteLB && parents * n.lbs.Keys < parents * n0.lbs.Keys) ==>
              Measure(n, g, parents, deleteLB, f, kf) < Measure(n0, g, parents, deleteLB, f0, kf0)
  {
    hide Left, Observed.Ids;
    SubsetIsSmaller(Left(n, Observed.Ids(g.virtualServers)), Left(n0, Observed.Ids(g.virtualServers)));
    SubsetIsSmaller(parents * n.lbs.Keys, parents * n0.lbs.Keys);
    if Left(n, Observed.Ids(g.virtualServers)) < Left(n0, Observed.Ids(g.virtualServers)) {
      ProperSubsetIsSmaller(Left(n, Observed.Ids(g.virtualServers)), Left(n0, Observed.Ids(g.virtualServers)));
    }
    if parents * n.lbs.Keys < parents * n0.lbs.Keys {
      ProperSubsetIsSmaller(parents * n.lbs.Keys, parents * n0.lbs.Keys);
    }
  }

  lemma ProperSubsetIsSmaller(a: set<Id>, b: set<Id>)
    requires a < b
    ensures |a| < |b|
  {
    var x :| x in b && x !in a;
    SubsetIsSmaller(a, b - {x});
  }

  /** The deletion that a run waits for is under way, of something the graph records. */
  lemma StuckIsUnderWay(n: Net, lb: Id, all: Lists, p: Problem, g: Graph)
    requires Stuck(n, lb, all, p) && Records(g, all) && p.Pending?
    ensures UnderWay(n, p)
    ensures p.kind == VirtualServerKind ==> p.id in Observed.Ids(g.virtualServers) && !Gone(n, p.id)
    ensures p.kind == LBServiceKind ==> p.id == lb && lb in n.lbs
    ensures p.kind != VIPKind
  {
    hide Records, AllGone, Observed.Ids;
    RecordedIDs(g, all);
    if p.kind == VirtualServerKind {
      var i :| 0 <= i < |all.listeners| && all.listeners[i].externalID == p.id && AllGone(n, IDs(all.listeners[..i]))
               && p.id in n.listeners && n.listeners[p.id].status == DELETING && n.listeners[p.id].readable;
      AmongAll(all.listeners, i);
    }
  }

  /** A run that did not succeed, and the completion of what it waited for, bring cleanup strictly closer to its end. */
  lemma RunsGetDone(actor: string, n0: Net, l0: seq<Event>, calls: seq<Call>, n: Net, l: seq<Event>, later: Net, g: Graph, lbID: Id, all: Lists,
                    deleteVIP: bool, deleteLB: bool, aggregate: bool, flags: Flags, err: Stopped, kidCalls: seq<Kid.KidCall>, k: Kid.Kids,
                    f0: nat, f: nat, kf0: nat, kf: nat)
    requires WellFormed(n0) && WellFormed(n) && Span(actor, n0, l0, calls, n, l) && |ParentIDs(lbID, g)| <= 1
    requires Outcome(g, lbID, all, deleteVIP, deleteLB, aggregate, flags, Some(err), kidCalls, calls, n, k)
    requires f <= f0 && kf <= kf0 && Fails(err, f0, f, kf0, kf)
    requires Span(actor, n, l, [], later, l)
    requires err.AtParent? && err.problem.Pending? ==> Over(later, err.problem)
    ensures Measure(later, g, ParentIDs(lbID, g), deleteLB, f, kf) < Measure(n0, g, ParentIDs(lbID, g), deleteLB, f0, kf0)
  {
    hide Span, WellFormed, Records, ChildScript, ParentScript, ChildrenGone, TornDown, ParentIDs, Stuck, Measure, Left, Observed.Ids, Over, Gone;
    var parents, ids := ParentIDs(lbID, g), Observed.Ids(g.virtualServers);
    ScriptCreatesNothing(parents, all, deleteVIP, deleteLB, calls);
    LeftShrinks(actor, n0, l0, calls, n, l, ids);
    LeftShrinks(actor, n, l, [], later, l, ids);
    MeasureShrinks(n0, later, g, parents, deleteLB, f0, f, kf0, kf);
    if err.AtParent? && err.problem.Pending? {
      assert |parents| == 1;
      var lb :| lb in parents;
      OnlyOne(parents, lb);
      StuckIsUnderWay(n, lb, all, err.problem, g);
      WaitedIsLess(n, later, ids, parents, err.problem);
    }
  }

  /** A run in which no call fails succeeds, unless it has to wait for something that is still there. */
  lemma NothingToWaitFor(actor: string, n0: Net, l0: seq<Event>, calls: seq<Call>, n: Net, l: seq<Event>, g: Graph, lbID: Id, all: Lists,
                         deleteVIP: bool, deleteLB: bool, aggregate: bool, flags: Flags, err: Option<Stopped>, kidCalls: seq<Kid.KidCall>,
                         k: Kid.Kids)
    requires WellFormed(n0) && Span(actor, n0, l0, calls, n, l) && |ParentIDs(lbID, g)| <= 1
    requires Outcome(g, lbID, all, deleteVIP, deleteLB, aggregate, flags, err, kidCalls, calls, n, k)
    requires err.Some? ==> Fails(err.value, 0, 0, 0, 0)
    requires AllGone(n0, Observed.Ids(g.virtualServers)) && (deleteLB ==> ParentIDs(lbID, g) !! n0.lbs.Keys)
    ensures err.None?
  {
    hide Span, WellFormed, Records, ChildScript, ParentScript, ChildrenGone, TornDown, ParentIDs, Stuck, Observed.Ids, Gone, UnderWay;
    if err.Some? {
      var parents, p := ParentIDs(lbID, g), err.value.problem;
      ScriptCreatesNothing(parents, all, deleteVIP, deleteLB, calls);
      GoneStays(actor, n0, l0, calls, n, l, Observed.Ids(g.virtualServers));
      NoLBsAdded(actor, n0, l0, calls, n, l);
      var lb :| lb in parents;
      OnlyOne(parents, lb);
      StuckIsUnderWay(n, lb, all, p, g);
    }
  }

  /** Why a run stops: a call failed, or the provider has not completed a deletion yet. */
  predicate Fails(err: Stopped, f0: nat, f: nat, kf0: nat, kf: nat) {
    match err
    case Ambiguous => true
    case AtChild(_) => kf < kf0
    case AtParent(p) => p.Pending? || f < f0
  }

  lemma WaitedIsLess(n: Net, later: Net, ids: set<Id>, parents: set<Id>, p: Problem)
    requires p.Pending? && Over(later, p) && Left(later, ids) <= Left(n, ids) && later.lbs.Keys <= n.lbs.Keys
    ensures p.kind == VirtualServerKind && p.id in ids && !Gone(n, p.id) ==> Left(later, ids) < Left(n, ids)
    ensures p.kind == LBServiceKind && p.id in parents && p.id in n.lbs ==> parents * later.lbs.Keys < parents * n.lbs.Keys
  {
    if p.kind == VirtualServerKind && p.id in ids && !Gone(n, p.id) {
      assert p.id in Left(n, ids) && p.id !in Left(later, ids);
    }
    if p.kind == LBServiceKind && p.id in parents && p.id in n.lbs {
      assert p.id in parents * n.lbs.Keys && p.id !in parents * later.lbs.Keys;
    }
  }

  lemma EntitledStays(nm: Naming, actor: string, n0: Net, l0: seq<Event>, calls: seq<Call>, n: Net, l: seq<Event>, parents: set<Id>,
                      listeners: set<Id>, vips: set<Id>, deleteVIP: bool, deleteLB: bool)
    requires WellFormed(n0) && Span(actor, n0, l0, calls, n, l) && CreatesNothing(calls)
    requires Entitled(nm, n0, actor, parents, listeners, vips, deleteVIP, deleteLB)
    ensures Entitled(nm, n, actor, parents, listeners, vips, deleteVIP, deleteLB)
  {
    hide Span, WellFormed, Recorded, RecordedListeners, RecordedVIPs, SoleParent, Shared, SharedVIP;
    SpanKeepsServices(actor, n0, l0, calls, n, l);
    SharedVIPEvolves(n0, n, actor, n0.services[actor].lbID, n0.services[actor].vipID);
    forall lb | lb in parents && parents == {lb} ensures Recorded(nm, n, actor, lb, listeners) && (deleteLB ==> !Shared(n, actor, lb)) {
      RecordedStays(nm, actor, n0, l0, calls, n, l, lb, listeners);
      SharedEvolves(n0, n, actor, lb);
    }
  }

  lemma UnderWayOrNot(n: Net, k: Kid.Kids, g: Graph, lbID: Id, all: Lists, deleteVIP: bool, deleteLB: bool, aggregate: bool, flags: Flags,
                      p: Problem, kidCalls: seq<Kid.KidCall>, calls: seq<Call>)
    requires Outcome(g, lbID, all, deleteVIP, deleteLB, aggregate, flags, Some(AtParent(p)), kidCalls, calls, n, k)
    requires |ParentIDs(lbID, g)| <= 1 && p.Pending?
    ensures UnderWay(n, p)
  {
    hide Records, ChildScript, ParentScript, ChildrenGone, TornDown, ParentIDs, Stuck, UnderWay;
    var parents := ParentIDs(lbID, g);
    if |parents| == 1 {
      var lb :| lb in parents;
      OnlyOne(parents, lb);
      StuckIsUnderWay(n, lb, all, p, g);
    }
  }

  /** Cleanup run again and again over the same record until it succeeds: after any failed call and any wait. Every run that
      does not succeed lowers the measure, so it succeeds, and no later than after as many runs as the measure says. */
  method CleanupUntilDone(c: Client, k: Kid.ChildClient, current: Observed.State, deleteVIP: bool, deleteLB: bool, aggregate: bool)
    returns (flags: Flags, ghost all: Lists, ghost runs: nat)
    requires c.Valid() && k.Valid() && |ParentIDs(current.lbID, current.Mirrored())| <= 1
    requires Entitled(c.naming, c.net, c.actor, ParentIDs(current.lbID, current.Mirrored()),
                      Observed.Ids(current.Mirrored().virtualServers), Observed.Ids(current.Mirrored().vips), deleteVIP, deleteLB)
    modifies c, k, current`graph
    ensures c.Valid() && k.Valid() && current.graph == old(current.Mirrored())
    ensures Records(current.graph, all)
    ensures forall lb | ParentIDs(current.lbID, current.graph) == {lb} ::
              TornDown(current.graph, lb, deleteVIP, deleteLB, c.net) && (!aggregate ==> ChildrenGone(k.kids, current.graph, all))
    ensures runs <= 1 + old(Measure(c.net, current.Mirrored(), ParentIDs(current.lbID, current.Mirrored()), deleteLB, c.faults, k.faults))
  {
    hide Inv, Run, Span, WellFormed, Kid.Shrinks, Outcome, Entitled, Kid.WellFormedKids, ParentIDs, Measure, UnderWay, Over, Evolves, Records,
      TornDown, ChildrenGone, Observed.Mirror;
    runs := 0;
    ghost var g := current.Mirrored();
    ghost var parents := ParentIDs(current.lbID, g);
    ghost var most := Measure(c.net, g, parents, deleteLB, c.faults, k.faults);
    while true
      invariant c.Valid() && k.Valid() && current.Mirrored() == g
      invariant Entitled(c.naming, c.net, c.actor, parents, Observed.Ids(g.virtualServers), Observed.Ids(g.vips), deleteVIP, deleteLB)
      invariant runs + Measure(c.net, g, parents, deleteLB, c.faults, k.faults) <= most
      decreases Measure(c.net, g, parents, deleteLB, c.faults, k.faults)
    {
      ghost var n0, l0, f0, kf0 := c.net, c.log, c.faults, k.faults;
      InvIsWellFormed(c.naming, n0);
      var err;
      ghost var kidCalls, calls;
      flags, err, all, kidCalls, calls := CleanupStack(c, k, current, deleteVIP, deleteLB, aggregate);
      runs := runs + 1;
      if err.None? {
        Succeeded(g, current.lbID, all, deleteVIP, deleteLB, aggregate, flags, kidCalls, calls, c.net, k.kids);
        return;
      }
      ghost var n1, l1 := c.net, c.log;
      InvIsWellFormed(c.naming, n1);
      var p := if err.value.AtParent? then err.value.problem else Refused;
      if p.Pending? {
        UnderWayOrNot(n1, k.kids, g, current.lbID, all, deleteVIP, deleteLB, aggregate, flags, p, kidCalls, calls);
      }
      c.Await(p);
      RunsGetDone(c.actor, n0, l0, calls, n1, l1, c.net, g, current.lbID, all, deleteVIP, deleteLB, aggregate, flags, err.value, kidCalls,
                  k.kids, f0, c.faults, kf0, k.faults);
      OutcomeCreatesNothing(g, current.lbID, all, deleteVIP, deleteLB, aggregate, flags, err, kidCalls, calls, n1, k.kids);
      EntitledStays(c.naming, c.actor, n0, l0, calls, n1, l1, parents, Observed.Ids(g.virtualServers), Observed.Ids(g.vips), deleteVIP, deleteLB);
      EntitledStays(c.naming, c.actor, n1, l1, [], c.net, c.log, parents, Observed.Ids(g.virtualServers), Observed.Ids(g.vips), deleteVIP, deleteLB);
      MirroredStays(current, g);
    }
  }

  lemma MirroredStays(current: Observed.State, g: Graph)
    requires current.graph == g && exists h: Graph :: g == h.(
      lbServices := Observed.Mirror(h.lbServices, Observed.LEGACY_LB, current.lbID, Resource(Observed.LEGACY_LB, current.lbID, "", "", "", NO_OWNER)),
      vips := Observed.Mirror(h.vips, Observed.LEGACY_VIP, current.vipID, Resource(Observed.LEGACY_VIP, current.vipID, "", current.vipAddress, "", NO_OWNER)),
      virtualServers := Observed.Mirror(h.virtualServers, Observed.LEGACY_VS, current.vsID, Resource(Observed.LEGACY_VS, current.vsID, current.vsName, "", "", NO_OWNER)))
    ensures current.Mirrored() == g
  {
  }

  lemma OutcomeCreatesNothing(g: Graph, lbID: Id, all: Lists, deleteVIP: bool, deleteLB: bool, aggregate: bool, flags: Flags,
                              err: Option<Stopped>, kidCalls: seq<Kid.KidCall>, calls: seq<Call>, n: Net, k: Kid.Kids)
    requires Outcome(g, lbID, all, deleteVIP, deleteLB, aggregate, flags, err, kidCalls, calls, n, k)
    ensures CreatesNothing(calls) && CreatesNothing([])
  {
    hide Records, ChildScript, ParentScript, ChildrenGone, TornDown, ParentIDs, Stuck, CreatesNothing;
    ScriptCreatesNothing(ParentIDs(lbID, g), all, deleteVIP, deleteLB, calls);
    ScriptCreatesNothing({}, all, deleteVIP, deleteLB, []);
  }

  lemma Succeeded(g: Graph, lbID: Id, all: Lists, deleteVIP: bool, deleteLB: bool, aggregate: bool, flags: Flags,
                  kidCalls: seq<Kid.KidCall>, calls: seq<Call>, n: Net, k: Kid.Kids)
    requires Outcome(g, lbID, all, deleteVIP, deleteLB, aggregate, flags, None, kidCalls, calls, n, k)
    ensures Records(g, all)
    ensures forall lb | ParentIDs(lbID, g) == {lb} :: TornDown(g, lb, deleteVIP, deleteLB, n) && (!aggregate ==> ChildrenGone(k, g, all))
  {
    hide Records, ChildScript, ParentScript, ChildrenGone, TornDown, ParentIDs;
  }
}
