/** Theorems about whole runs: any number of passes of any number of Services, with lost answers, crashes at any call,
    foreign changes and asynchronous progress in between. */
module Runs {
  import opened Common
  import opened Model
  import opened Cluster
  import opened Protocol
  import opened Safety
  import opened Text
  import Observed

  lemma {:induction false} RunKeepsInv(nm: Naming, start: Net, log: seq<Event>, now: Net)
    requires Inv(nm, start) && Run(nm, start, log, now)
    ensures Inv(nm, now)
    ensures forall i | 0 <= i < |log| :: Legal(nm, log[i]) && Inv(nm, log[i].pre) && Inv(nm, log[i].post)
  {
    hide Inv, Legal, Evolves;
    if log == [] {
      InvEvolves(nm, start, now);
    } else {
      var e := log[|log| - 1];
      RunKeepsInv(nm, start, log[..|log| - 1], e.pre);
      LegalKeepsInv(nm, e);
      InvEvolves(nm, e.post, now);
      assert forall i | 0 <= i < |log| - 1 :: log[i] == log[..|log| - 1][i];
    }
  }

  /** Serial passes make up one run: where one pass has ended, the next begins. So everything said here about a run holds of
      any number of passes of any Services, each of which may have stopped anywhere. */
  lemma {:induction false} RunsCompose(nm: Naming, a: Net, x: seq<Event>, b: Net, y: seq<Event>, c: Net)
    requires Run(nm, a, x, b) && Run(nm, b, y, c)
    ensures Run(nm, a, x + y, c)
  {
    hide Legal, Evolves;
    if y == [] {
      RunDrifts(nm, a, x, b, c);
      assert x + y == x;
    } else {
      var e := y[|y| - 1];
      RunsCompose(nm, a, x, b, y[..|y| - 1], e.pre);
      RunGrows(nm, a, x + y[..|y| - 1], e, c);
      assert x + y == x + y[..|y| - 1] + [e];
    }
  }

  // ----- Shared parents -----

  /** `t` still has its finalizer, and `id` is a listener that one of its passes made on `lb`. */
  predicate OwnsListenerOn(n: Net, t: string, id: Id, lb: Id) {
    && t in n.services && n.services[t].finalizer
    && id in n.listeners && n.listeners[id].lb == lb && n.listeners[id].maker == n.services[t].uid
  }

  lemma OwnersShare(nm: Naming, n: Net, self: string, t: string, id: Id, lb: Id)
    requires Inv(nm, n) && OwnsListenerOn(n, t, id, lb) && t != self
    ensures Shared(n, self, lb)
  {
    hide Unique, ServiceInv, OwnName, NamesParent;
    assert MadeOnRecord(nm, n, t, id);
    assert HoldsLB(n, t, lb);
  }

  /** Whenever cleanup issues the deletion of a load balancer, no other Service that still has its finalizer owns a
      listener on it, recorded or not. */
  lemma {:induction false} SharedParentSafety(
      nm: Naming, start: Net, log: seq<Event>, now: Net, i: nat, self: string, lb: Id, t: string, id: Id)
    requires Inv(nm, start) && Run(nm, start, log, now)
    requires i < |log| && log[i].actor == Controller(self) && log[i].call == DeleteLB(lb, Cleanup)
    ensures t != self ==> !OwnsListenerOn(log[i].pre, t, id, lb)
  {
    hide Inv, OwnsListenerOn, Shared, RecordedListeners, AllGone;
    RunKeepsInv(nm, start, log, now);
    if t != self && OwnsListenerOn(log[i].pre, t, id, lb) {
      OwnersShare(nm, log[i].pre, self, t, id, lb);
    }
  }

  // ----- No duplicates -----

  /** At most one load balancer per name and at most one listener per name on it ever exists, and no two listeners on a
      load balancer share (VIP, protocol, port). */
  lemma NeverTwice(nm: Naming, start: Net, log: seq<Event>, now: Net)
    requires Inv(nm, start) && Run(nm, start, log, now)
    ensures Unique(now) && forall i | 0 <= i < |log| :: Unique(log[i].pre) && Unique(log[i].post)
  {
    RunKeepsInv(nm, start, log, now);
  }

  /** A Service's own listeners never spread over two load balancers, so one deterministic name has one listener. */
  lemma OneListenerPerName(nm: Naming, start: Net, log: seq<Event>, now: Net, name: string, a: Id, b: Id)
    requires Inv(nm, start) && Run(nm, start, log, now)
    requires name in now.services && a in now.listeners && b in now.listeners
    requires now.listeners[a].maker == now.services[name].uid && now.listeners[b].maker == now.services[name].uid
    ensures now.listeners[a].lb == now.listeners[b].lb == now.services[name].lbID
    ensures now.listeners[a].name == now.listeners[b].name ==> a == b
  {
    RunKeepsInv(nm, start, log, now);
    MadeOnCurrent(nm, now, name, a);
    MadeOnCurrent(nm, now, name, b);
  }

  lemma MadeOnCurrent(nm: Naming, n: Net, name: string, id: Id)
    requires Inv(nm, n) && name in n.services && id in n.listeners && n.listeners[id].maker == n.services[name].uid
    ensures n.listeners[id].lb == n.services[name].lbID && OwnName(nm, name, n.listeners[id].name)
  {
    hide ServiceInv, Unique, RecordsParent, OwnName;
    assert MadeOnRecord(nm, n, name, id);
    ParentOnRecordIsCurrent(nm, n, name, n.listeners[id].lb);
  }

  // ----- Ownership of deleted listeners -----

  /** A pass of one Service never deletes a listener that another Service made. */
  lemma OthersListenersAreSpared(
      nm: Naming, start: Net, log: seq<Event>, now: Net, i: nat, self: string, lb: Id, id: Id, t: string)
    requires Injective(nm) && Inv(nm, start) && Run(nm, start, log, now)
    requires i < |log| && log[i].actor == Controller(self) && log[i].call == DeleteListener(lb, id)
    requires log[i].post != log[i].pre
    ensures id in log[i].pre.listeners
    ensures t in log[i].pre.services && log[i].pre.listeners[id].maker == log[i].pre.services[t].uid ==> t == self
  {
    hide Inv;
    RunKeepsInv(nm, start, log, now);
    var n := log[i].pre;
    if t in n.services && n.listeners[id].maker == n.services[t].uid {
      MadeOnCurrent(nm, n, t, id);
    }
  }

  // ----- Finalizers -----

  /** Only a Service without finalizer can be removed. */
  lemma RemovalNeedsNoFinalizer(nm: Naming, e: Event, name: string)
    requires Legal(nm, e) && name in e.pre.services && name !in e.post.services
    ensures !e.pre.services[name].finalizer
  {
    hide WellFormed, Unique, PatchGuard, AllGone, RecordedListeners, OwnName, ListenerNameFree, FrontendFree, LBNameFree,
      Shared, RecordsParent, CreatesLB, CreatesVIP, CreatesListener;
    CreatesKeepServices(e.pre, e.post);
  }

  /** No Service object disappears while a listener it has on record can still be read. */
  lemma NoRecordedListenerOutlivesItsService(
      nm: Naming, start: Net, log: seq<Event>, now: Net, i: nat, name: string)
    requires Inv(nm, start) && Run(nm, start, log, now)
    requires i < |log| && name in log[i].pre.services && name !in log[i].post.services
    ensures AllGone(log[i].pre, RecordedListeners(log[i].pre.services[name]))
  {
    hide Legal, Unique, AllGone, RecordedListeners, KnownListener, MadeOnRecord, WellFormed, OwnParentIs, KeysFollowOwner;
    RunKeepsInv(nm, start, log, now);
    RemovalNeedsNoFinalizer(nm, log[i], name);
    assert ServiceInv(nm, log[i].pre, name);
  }

  lemma CreatesKeepServices(n: Net, m: Net)
    ensures forall name, id :: CreatesLB(n, m, name, id) ==> m.services == n.services
    ensures forall lb, id :: CreatesVIP(n, m, lb, id) ==> m.services == n.services
    ensures forall uid, call: Call, id | call.CreateListener? :: CreatesListener(n, m, uid, call, id) ==> m.services == n.services
  {
  }

  // ----- Provided parents -----

  predicate Incarnation(n: Net, name: string, uid: Uid) {
    name in n.services && n.services[name].uid == uid
  }

  predicate HoldsProvided(n: Net, name: string, lb: Id) {
    name in n.services && n.services[name].lbMode == PROVIDED && n.services[name].lbID == lb != NO_ID
  }

  predicate HoldsProvidedVIP(n: Net, name: string, vip: Id) {
    name in n.services && n.services[name].vipMode == PROVIDED && n.services[name].vipID == vip != NO_ID
  }

  lemma StepKeepsProvided(nm: Naming, e: Event, name: string, uid: Uid, lb: Id, vip: Id)
    requires Legal(nm, e) && Incarnation(e.pre, name, uid) && Incarnation(e.post, name, uid)
    ensures HoldsProvided(e.pre, name, lb) ==> HoldsProvided(e.post, name, lb)
    ensures HoldsProvidedVIP(e.pre, name, vip) ==> HoldsProvidedVIP(e.post, name, vip)
  {
    hide WellFormed, Unique, NamesParent, OwnParentIs, KeysFollowOwner, AllGone, RecordedListeners, Vacant, OwnName,
      ListenerNameFree, FrontendFree, LBNameFree, Shared, RecordsParent, CreatesLB, CreatesVIP, CreatesListener;
    match e.actor
    case Outsider =>
    case Controller(actor) =>
      match e.call
      case CreateLB(lbName) => CreatesKeepServices(e.pre, e.post);
      case CreateVIP(l) => CreatesKeepServices(e.pre, e.post);
      case CreateListener(_, _, _, _, _, _) => CreatesKeepServices(e.pre, e.post);
      case _ =>
  }

  lemma SameHoldings(n: Net, m: Net, name: string, uid: Uid, lb: Id, vip: Id)
    requires Evolves(n, m)
    ensures HoldsProvided(n, name, lb) == HoldsProvided(m, name, lb) && HoldsProvidedVIP(n, name, vip) == HoldsProvidedVIP(m, name, vip)
    ensures Incarnation(n, name, uid) == Incarnation(m, name, uid)
  {
  }

  lemma ProvidedIsSpared(nm: Naming, e: Event, name: string, lb: Id, vip: Id)
    requires Legal(nm, e) && e.actor == Controller(name)
    ensures HoldsProvided(e.pre, name, lb) ==> !e.call.CreateLB? && !e.call.DeleteLB?
    ensures HoldsProvidedVIP(e.pre, name, vip) ==> !e.call.CreateVIP? && !e.call.DeleteVIP?
  {
    hide PatchGuard, RecordsParent, Shared, AllGone, RecordedListeners, OwnName, LBNameFree, ListenerNameFree, FrontendFree, Effect,
      ReachesVIP, SharedVIP, RecordedVIPs, SoleParent, Reaches;
  }

  /** Once a Service has a provided load balancer (or VIP) on record, its mode and id never change again, and none of its
      own later steps creates or deletes a load balancer (or VIP), for as long as the Service object exists. */
  lemma {:induction false} ProvidedParentsAreNeverTouched(
      nm: Naming, start: Net, log: seq<Event>, now: Net, name: string, uid: Uid, lb: Id, vip: Id)
    requires Inv(nm, start) && Run(nm, start, log, now)
    requires Incarnation(start, name, uid) && Incarnation(now, name, uid)
    requires forall i | 0 <= i < |log| :: Incarnation(log[i].pre, name, uid)
    ensures HoldsProvided(start, name, lb) ==>
              && HoldsProvided(now, name, lb)
              && forall i | 0 <= i < |log| && log[i].actor == Controller(name) ::
                   HoldsProvided(log[i].pre, name, lb) && !log[i].call.CreateLB? && !log[i].call.DeleteLB?
    ensures HoldsProvidedVIP(start, name, vip) ==>
              && HoldsProvidedVIP(now, name, vip)
              && forall i | 0 <= i < |log| && log[i].actor == Controller(name) ::
                   HoldsProvidedVIP(log[i].pre, name, vip) && !log[i].call.CreateVIP? && !log[i].call.DeleteVIP?
  {
    hide Inv, Legal, Evolves, HoldsProvided, HoldsProvidedVIP, Incarnation;
    if log == [] {
      SameHoldings(start, now, name, uid, lb, vip);
    } else {
      var e := log[|log| - 1];
      var before := log[..|log| - 1];
      assert forall i | 0 <= i < |before| :: log[i] == before[i];
      SameHoldings(e.post, now, name, uid, lb, vip);
      ProvidedParentsAreNeverTouched(nm, start, before, e.pre, name, uid, lb, vip);
      StepKeepsProvided(nm, e, name, uid, lb, vip);
      if e.actor == Controller(name) {
        ProvidedIsSpared(nm, e, name, lb, vip);
      }
    }
  }

  // ----- Who deletes a load balancer -----

  /** The event has the load balancer deleted. */
  predicate Dooms(e: Event, lb: Id) {
    && lb in e.pre.lbs && e.pre.lbs[lb].status != DELETING
    && (lb !in e.post.lbs || e.post.lbs[lb].status == DELETING)
  }

  ghost predicate CanDoom(nm: Naming, n: Net, t: string, lb: Id) {
    exists e: Event :: Legal(nm, e) && e.actor == Controller(t) && e.pre == n && Dooms(e, lb)
  }

  lemma OnlyDeletionsDoom(nm: Naming, e: Event, t: string, lb: Id)
    requires WellFormed(e.pre) && Legal(nm, e) && e.actor == Controller(t) && Dooms(e, lb)
    ensures e.call.DeleteLB? && e.call.lb == lb && MayDelete(e.pre, t, lb, e.call.why)
  {
    hide MayDelete, PatchGuard, RecordsParent, Shared, AllGone, RecordedListeners, OwnName, LBNameFree, ListenerNameFree, FrontendFree,
      KeepsVIP;
  }

  lemma DeletionIsLegal(nm: Naming, n: Net, t: string, lb: Id, why: Why)
    requires MayDelete(n, t, lb, why) && lb in n.lbs && n.lbs[lb].status != DELETING
    ensures CanDoom(nm, n, t, lb)
  {
    hide Shared, AllGone, RecordedListeners, StrictLB, SoleParent, Reaches;
    var e := Event(Controller(t), DeleteLB(lb, why), n, n.(lbs := n.lbs[lb := n.lbs[lb].(status := DELETING)]));
    assert Legal(nm, e) && Dooms(e, lb);
  }

  const ANYWHERE := Placement("", "", "")

  lemma PlacedAnywhere(n: Net, lb: Id)
    requires lb in n.lbs
    ensures ReadsAsPlaced(n, lb, ANYWHERE) <==> n.lbs[lb].readable
    ensures forall where :: ReadsAsPlaced(n, lb, where) ==> n.lbs[lb].readable
  {
    hide EqualFold;
  }

  /** A step of the controller for Service `t` can have a load balancer deleted in exactly two situations, both of which can
      be read off the Services' annotations: `t` is wanted, reaches the load balancer by its own record or its vip-group, and
      does not treat it strictly, and the load balancer can be read (the repair of a failed one); or `t` is going away, it is
      its only parent, not provided, and no other Service that has its finalizer holds it. */
  lemma ControllersDeleteExactly(nm: Naming, n: Net, t: string, lb: Id)
    requires WellFormed(n) && lb in n.lbs && n.lbs[lb].status != DELETING
    ensures CanDoom(nm, n, t, lb) <==> (MayRepair(n, t, lb) && n.lbs[lb].readable) || MayDelete(n, t, lb, Cleanup)
  {
    hide Legal, MayRepair, ReadsAsPlaced, WellFormed, Shared, AllGone, RecordedListeners, SoleParent;
    PlacedAnywhere(n, lb);
    if CanDoom(nm, n, t, lb) {
      var e: Event :| Legal(nm, e) && e.actor == Controller(t) && e.pre == n && Dooms(e, lb);
      OnlyDeletionsDoom(nm, e, t, lb);
    }
    if MayRepair(n, t, lb) && n.lbs[lb].readable {
      DeletionIsLegal(nm, n, t, lb, Repair(ANYWHERE));
    }
    if MayDelete(n, t, lb, Cleanup) {
      DeletionIsLegal(nm, n, t, lb, Cleanup);
    }
  }

  lemma ProvidedIsStrict(n: Net, name: string, lb: Id, why: Why)
    requires HoldsProvided(n, name, lb)
    ensures !MayDelete(n, name, lb, why) && !MayRepair(n, name, lb)
  {
    hide Shared, AllGone, RecordedListeners, SoleParent, Reaches, ReadsAsPlaced;
  }

  lemma HoldersShare(n: Net, t: string, name: string, lb: Id)
    requires HoldsLB(n, name, lb) && t != name && lb != NO_ID
    ensures !MayDelete(n, t, lb, Cleanup)
  {
    hide RecordsParent, AllGone, RecordedListeners, StrictLB, SoleParent, Reaches;
  }

  /** Exactly when a load balancer that a user provided to a Service can be deleted while the Service holds it: when some
      other Service reaches it as its own, for then that one's repair of a failed load balancer deletes it. */
  lemma ProvidedIsDeletedExactly(nm: Naming, n: Net, name: string, lb: Id)
    requires WellFormed(n) && HoldsProvided(n, name, lb) && HoldsLB(n, name, lb) && lb in n.lbs && n.lbs[lb].status != DELETING
    ensures (exists t :: CanDoom(nm, n, t, lb)) <==> n.lbs[lb].readable && exists t :: t != name && MayRepair(n, t, lb)
  {
    hide MayDelete, MayRepair, CanDoom, HoldsLB, WellFormed;
    ProvidedIsStrict(n, name, lb, Cleanup);
    if t :| CanDoom(nm, n, t, lb) {
      ControllersDeleteExactly(nm, n, t, lb);
      if t != name {
        HoldersShare(n, t, name, lb);
      }
    }
    if t :| t != name && MayRepair(n, t, lb) {
      ControllersDeleteExactly(nm, n, t, lb);
    }
  }

  lemma DeletersReach(n: Net, t: string, lb: Id, why: Why)
    requires MayDelete(n, t, lb, why) && lb != NO_ID
    ensures Reaches(n, t, lb)
  {
    hide Shared, AllGone, RecordedListeners, StrictLB, OffersLB, ReadsAsPlaced;
  }

  /** Over whole runs: a provided load balancer that no other Service reaches, by its own record or through a vip-group, is
      never deleted by the controller. Where one is deleted nevertheless, it is by another Service's repair or, once nobody
      holds it any longer, by another Service's cleanup. */
  lemma ProvidedSurvivesAlone(nm: Naming, start: Net, log: seq<Event>, now: Net, name: string, uid: Uid, lb: Id, i: nat, t: string)
    requires Inv(nm, start) && Run(nm, start, log, now) && HoldsProvided(start, name, lb)
    requires Incarnation(start, name, uid) && Incarnation(now, name, uid) && forall j | 0 <= j < |log| :: Incarnation(log[j].pre, name, uid)
    requires i < |log| && log[i].actor == Controller(t) && Dooms(log[i], lb)
    ensures t != name && Reaches(log[i].pre, t, lb)
    ensures log[i].call.DeleteLB? && MayDelete(log[i].pre, t, lb, log[i].call.why)
    ensures HoldsLB(log[i].pre, name, lb) ==> log[i].call.why.Repair? && log[i].call.lb == lb
  {
    hide Inv, Legal, HoldsLB, Dooms, StrictLB, Reaches, Shared, AllGone, RecordedListeners, SoleParent;
    RunKeepsInv(nm, start, log, now);
    InvIsWell(nm, log[i].pre);
    OnlyDeletionsDoom(nm, log[i], t, lb);
    HeldAllAlong(nm, start, log, now, name, uid, lb, NO_ID, i);
    ProvidedIsStrict(log[i].pre, name, lb, log[i].call.why);
    DeletersReach(log[i].pre, t, lb, log[i].call.why);
    if HoldsLB(log[i].pre, name, lb) {
      HoldersShare(log[i].pre, t, name, lb);
    }
  }

  lemma InvIsWell(nm: Naming, n: Net)
    requires Inv(nm, n)
    ensures WellFormed(n)
  {
  }

  lemma {:induction false} HeldAllAlong(nm: Naming, start: Net, log: seq<Event>, now: Net, name: string, uid: Uid, lb: Id, vip: Id, i: nat)
    requires Inv(nm, start) && Run(nm, start, log, now) && i < |log|
    requires Incarnation(start, name, uid) && Incarnation(now, name, uid) && forall j | 0 <= j < |log| :: Incarnation(log[j].pre, name, uid)
    ensures HoldsProvided(start, name, lb) ==> HoldsProvided(log[i].pre, name, lb)
    ensures HoldsProvidedVIP(start, name, vip) ==> HoldsProvidedVIP(log[i].pre, name, vip)
    decreases |log|
  {
    hide Inv, Legal, Evolves, HoldsProvided, HoldsProvidedVIP, Incarnation;
    var before := log[..|log| - 1];
    var e := log[|log| - 1];
    assert forall j | 0 <= j < |before| :: log[j] == before[j];
    if i < |before| {
      HeldAllAlong(nm, start, before, e.pre, name, uid, lb, vip, i);
    } else {
      ProvidedParentsAreNeverTouched(nm, start, before, e.pre, name, uid, lb, vip);
    }
  }

  // ----- Who deletes a VIP -----

  /** The event has the VIP deleted. */
  predicate DoomsVIP(e: Event, vip: Id) {
    && vip in e.pre.vips && e.pre.vips[vip].status != DELETING
    && (vip !in e.post.vips || e.post.vips[vip].status == DELETING)
  }

  ghost predicate CanDoomVIP(nm: Naming, n: Net, t: string, vip: Id) {
    exists e: Event :: Legal(nm, e) && e.actor == Controller(t) && e.pre == n && DoomsVIP(e, vip)
  }

  lemma OnlyVIPDeletionsDoom(nm: Naming, e: Event, t: string, vip: Id)
    requires WellFormed(e.pre) && Legal(nm, e) && e.actor == Controller(t) && DoomsVIP(e, vip)
    ensures e.call.DeleteVIP? && e.call.vip == vip && e.call.lb == e.pre.vips[vip].lb
    ensures MayDeleteVIP(nm, e.pre, t, e.call.lb, vip, e.call.why)
  {
    hide MayDelete, MayDeleteVIP, PatchGuard, RecordsParent, AllGone, RecordedListeners, OwnName, LBNameFree, ListenerNameFree, FrontendFree,
      KeepsVIP;
  }

  lemma VIPDeletionIsLegal(nm: Naming, n: Net, t: string, lb: Id, vip: Id, why: Why)
    requires t in n.services && MayDeleteVIP(nm, n, t, lb, vip, why)
    requires vip in n.vips && n.vips[vip].lb == lb && n.vips[vip].status != DELETING
    ensures CanDoomVIP(nm, n, t, vip)
  {
    hide MayDeleteVIP;
    var e := Event(Controller(t), DeleteVIP(lb, vip, why), n, n.(vips := n.vips[vip := n.vips[vip].(status := DELETING)]));
    assert Legal(nm, e) && DoomsVIP(e, vip);
  }

  lemma VIPDeletersExist(nm: Naming, n: Net, t: string, lb: Id, vip: Id, why: Why)
    requires MayDeleteVIP(nm, n, t, lb, vip, why)
    ensures t in n.services && n.services[t].finalizer
  {
    hide ReachesVIP, StrictVIP, RecordsParent, SharedVIP, AllGone, RecordedListeners, RecordedVIPs, SoleParent;
  }

  /** The Service's passes would replace the VIP if it failed. */
  ghost predicate CanMend(nm: Naming, n: Net, t: string, vip: Id)
    requires vip in n.vips
  {
    exists where: Placement :: MayDeleteVIP(nm, n, t, n.vips[vip].lb, vip, Repair(where))
  }

  /** A step of the controller for Service `t` can have a VIP deleted in exactly two situations: `t` is wanted, has the VIP's
      load balancer on record, nobody provided its VIP, and the VIP is the one on its record or, without one, among those
      that its graph names or the one that its listeners tell; or `t` goes away, the VIP is one of those that its annotations
      name, not provided, and nobody else has the pair on record that it has on record itself. */
  lemma ControllersDeleteVIPsExactly(nm: Naming, n: Net, t: string, vip: Id)
    requires WellFormed(n) && vip in n.vips && n.vips[vip].status != DELETING
    ensures CanDoomVIP(nm, n, t, vip) <==> CanMend(nm, n, t, vip) || MayDeleteVIP(nm, n, t, n.vips[vip].lb, vip, Cleanup)
  {
    hide Legal, MayDeleteVIP, WellFormed;
    var lb := n.vips[vip].lb;
    if CanDoomVIP(nm, n, t, vip) {
      var e: Event :| Legal(nm, e) && e.actor == Controller(t) && e.pre == n && DoomsVIP(e, vip);
      OnlyVIPDeletionsDoom(nm, e, t, vip);
      if e.call.why.Repair? {
        assert e.call.why == Repair(e.call.why.where);
      }
    }
    if CanMend(nm, n, t, vip) {
      var where: Placement :| MayDeleteVIP(nm, n, t, lb, vip, Repair(where));
      VIPDeletersExist(nm, n, t, lb, vip, Repair(where));
      VIPDeletionIsLegal(nm, n, t, lb, vip, Repair(where));
    }
    if MayDeleteVIP(nm, n, t, lb, vip, Cleanup) {
      VIPDeletersExist(nm, n, t, lb, vip, Cleanup);
      VIPDeletionIsLegal(nm, n, t, lb, vip, Cleanup);
    }
  }

  lemma ProvidedVIPIsStrict(nm: Naming, n: Net, name: string, held: Id, lb: Id, vip: Id, why: Why)
    requires HoldsProvidedVIP(n, name, held)
    ensures !MayDeleteVIP(nm, n, name, lb, vip, why)
  {
    hide ReachesVIP, RecordsParent, SharedVIP, AllGone, RecordedListeners, RecordedVIPs, SoleParent;
  }

  /** Cleanup only asks whether somebody else holds the VIP that the Service has on record itself. */
  lemma VIPHoldersShare(nm: Naming, n: Net, t: string, name: string, lb: Id, vip: Id)
    requires HoldsVIP(n, name, lb, vip) && t != name && lb != NO_ID && vip != NO_ID && MayDeleteVIP(nm, n, t, lb, vip, Cleanup)
    ensures t in n.services && n.services[t].vipID != vip && vip in Observed.Ids(VIPEntries(n.services[t]))
  {
    hide AllGone, RecordedListeners, VIPEntries;
  }

  /** Exactly when a VIP that a user provided to a Service can be deleted while the Service holds it: when some other Service
      would repair it as its own, or goes away and has it in its graph without having it on record as its own. */
  lemma ProvidedVIPIsDeletedExactly(nm: Naming, n: Net, name: string, vip: Id)
    requires WellFormed(n) && HoldsProvidedVIP(n, name, vip) && vip in n.vips && n.vips[vip].status != DELETING
    requires HoldsVIP(n, name, n.vips[vip].lb, vip)
    ensures (exists t :: CanDoomVIP(nm, n, t, vip)) <==>
            exists t :: t != name && t in n.services
              && (CanMend(nm, n, t, vip)
                  || (n.services[t].vipID != vip && MayDeleteVIP(nm, n, t, n.vips[vip].lb, vip, Cleanup)))
  {
    hide MayDeleteVIP, CanDoomVIP, HoldsVIP;
    var lb := n.vips[vip].lb;
    assert lb != NO_ID && vip != NO_ID by { VIPsHaveIDs(n, vip); }
    if t :| CanDoomVIP(nm, n, t, vip) {
      ControllersDeleteVIPsExactly(nm, n, t, vip);
      if CanMend(nm, n, t, vip) {
        var where: Placement :| MayDeleteVIP(nm, n, t, lb, vip, Repair(where));
        VIPDeletersExist(nm, n, t, lb, vip, Repair(where));
        ProvidedVIPIsStrict(nm, n, name, vip, lb, vip, Repair(where));
      } else {
        VIPDeletersExist(nm, n, t, lb, vip, Cleanup);
        ProvidedVIPIsStrict(nm, n, name, vip, lb, vip, Cleanup);
        VIPHoldersShare(nm, n, t, name, lb, vip);
      }
    }
    if t :| t != name && t in n.services
            && (CanMend(nm, n, t, vip) || (n.services[t].vipID != vip && MayDeleteVIP(nm, n, t, lb, vip, Cleanup))) {
      ControllersDeleteVIPsExactly(nm, n, t, vip);
    }
  }

  lemma VIPsHaveIDs(n: Net, vip: Id)
    requires WellFormed(n) && vip in n.vips
    ensures vip != NO_ID && n.vips[vip].lb != NO_ID
  {
  }

  /** Over whole runs: whenever a step deletes a VIP that a user provided to a Service, it is one of another Service, which
      repairs it as its own, or goes away; and while the VIP is held, one that goes away has it in its graph only. */
  lemma ProvidedVIPSurvivesAlone(nm: Naming, start: Net, log: seq<Event>, now: Net, name: string, uid: Uid, vip: Id, i: nat, t: string)
    requires Inv(nm, start) && Run(nm, start, log, now) && HoldsProvidedVIP(start, name, vip)
    requires Incarnation(start, name, uid) && Incarnation(now, name, uid) && forall j | 0 <= j < |log| :: Incarnation(log[j].pre, name, uid)
    requires i < |log| && log[i].actor == Controller(t) && DoomsVIP(log[i], vip)
    ensures t != name && t in log[i].pre.services && log[i].call.DeleteVIP? && log[i].call.vip == vip
    ensures MayDeleteVIP(nm, log[i].pre, t, log[i].call.lb, vip, log[i].call.why)
    ensures HoldsVIP(log[i].pre, name, log[i].call.lb, vip) && log[i].call.why == Cleanup ==>
              log[i].pre.services[t].vipID != vip && vip in Observed.Ids(VIPEntries(log[i].pre.services[t]))
  {
    hide Inv, Legal, HoldsVIP, MayDeleteVIP;
    RunKeepsInv(nm, start, log, now);
    var n := log[i].pre;
    InvIsWell(nm, n);
    OnlyVIPDeletionsDoom(nm, log[i], t, vip);
    var lb := log[i].call.lb;
    VIPsHaveIDs(n, vip);
    VIPDeletersExist(nm, n, t, lb, vip, log[i].call.why);
    HeldAllAlong(nm, start, log, now, name, uid, NO_ID, vip, i);
    ProvidedVIPIsStrict(nm, n, name, vip, lb, vip, log[i].call.why);
    if HoldsVIP(n, name, lb, vip) && log[i].call.why == Cleanup {
      VIPHoldersShare(nm, n, t, name, lb, vip);
    }
  }

  /** Over whole runs: whenever cleanup issues the deletion of a VIP, it is one that the Service's annotations name; and if
      another Service that has its finalizer has it on record with the load balancer, it is not the one that the cleaning
      Service has on record itself, but a further one of its graph. */
  lemma SharedVIPSafety(nm: Naming, start: Net, log: seq<Event>, now: Net, i: nat, self: string, lb: Id, vip: Id, t: string)
    requires Inv(nm, start) && Run(nm, start, log, now)
    requires i < |log| && log[i].actor == Controller(self) && log[i].call == DeleteVIP(lb, vip, Cleanup)
    ensures self in log[i].pre.services && vip in RecordedVIPs(log[i].pre.services[self])
    ensures t != self && lb != NO_ID && vip != NO_ID && HoldsVIP(log[i].pre, t, lb, vip) ==>
              log[i].pre.services[self].vipID != vip && vip in Observed.Ids(VIPEntries(log[i].pre.services[self]))
  {
    hide Inv, HoldsVIP, SharedVIP, RecordedListeners, AllGone, SoleParent, RecordedVIPs;
    RunKeepsInv(nm, start, log, now);
    assert MayDeleteVIP(nm, log[i].pre, self, lb, vip, Cleanup);
    if t != self && lb != NO_ID && vip != NO_ID && HoldsVIP(log[i].pre, t, lb, vip) {
      VIPHoldersShare(nm, log[i].pre, self, t, lb, vip);
    }
  }

  // ----- A limit of the protocol -----

  const ANY_NAMES := Naming(s => s, (s, p) => s)

  function ParentGraph(service: string, uid: Uid, lb: Id): Graph {
    EMPTY_GRAPH.(lbServices := map[service := Resource(service, lb, service, "", "", Ownership("Service", "ns", service, uid, "g"))])
  }

  function SomeLB(name: string): LB {
    LB(name, "active", "online", "vpc", "net", "", true)
  }

  const LEAK_SERVICE := Service("u", true, "", true, "lb", PROVIDED, NO_ID, "", "", NO_ID, Some(ParentGraph("s", "u", "lb")))
  const LEAK_START := Net(map["lb" := SomeLB("s")], map[], map[], {"lb"}, {}, map["s" := LEAK_SERVICE], "ns")
  const LEAKED := Listener("lb", "s", "vip", "TCP", 80, "active", true, "u")
  const LEAK_CALL := CreateListener("lb", "s", "vip", "TCP", 80, Frontend({"s"}, "net"))

  lemma LeakStartsWell()
    ensures Inv(ANY_NAMES, LEAK_START) && RecordsParent(LEAK_START, "s", "lb") && RecordedListeners(LEAK_SERVICE) == {}
  {
    assert LEAK_SERVICE.graph.value.lbServices["s"].externalID == "lb";
    assert RecordedListeners(LEAK_SERVICE) == {};
  }

  lemma LeakIsLegal(made: Net)
    requires made == LEAK_START.(listeners := map["v" := LEAKED], issued := {"lb", "v"}, seats := {SeatOf(LEAKED)})
    ensures Legal(ANY_NAMES, Event(Controller("s"), LEAK_CALL, LEAK_START, made))
  {
    LeakStartsWell();
    hide RecordsParent, RecordedListeners;
    assert Named(ANY_NAMES, "s", "s", 0);
    assert CreatesListener(LEAK_START, made, "u", LEAK_CALL, "v");
  }

  lemma LeakStays(n: Net)
    requires n == LEAK_START.(listeners := map["v" := LEAKED], issued := {"lb", "v"}, seats := {SeatOf(LEAKED)}, services := n.services)
    ensures Evolves(n, n)
  {
  }

  lemma LeakBegins()
    ensures Run(ANY_NAMES, LEAK_START, [], LEAK_START)
  {
    LeakStartsWell();
    EvolvesIsReflexive(LEAK_START);
  }

  lemma LeakerLeaves(made: Net, freed: Net, now: Net)
    requires made.services == map["s" := LEAK_SERVICE] && freed == made.(services := map["s" := LEAK_SERVICE.(finalizer := false)])
    requires now == freed.(services := map[])
    ensures Legal(ANY_NAMES, Event(Controller("s"), RemoveFinalizer, made, freed))
    ensures Legal(ANY_NAMES, Event(Outsider, Drop("s"), freed, now))
  {
    LeakStartsWell();
    hide RecordedListeners, RecordsParent;
    assert freed.services == made.services["s" := LEAK_SERVICE.(finalizer := false)];
    assert now.services == freed.services - {"s"};
  }

  /** A listener whose creation answer was lost, and which was therefore never put on record, outlives its Service when
      the load balancer stays. */
  lemma AnUnrecordedListenerCanStay() returns (start: Net, log: seq<Event>, now: Net)
    ensures Inv(ANY_NAMES, start) && Run(ANY_NAMES, start, log, now)
    ensures "s" in start.services && start.listeners == map[] && "s" !in now.services
    ensures forall e | e in log :: e.actor == Controller("s") || e.call == Drop("s")
    ensures "v" in now.listeners && now.listeners["v"].maker == start.services["s"].uid
  {
    hide Inv, RecordsParent, RecordedListeners, Legal, Run, Evolves;
    start := LEAK_START;
    LeakStartsWell();
    var made := start.(listeners := map["v" := LEAKED], issued := {"lb", "v"}, seats := {SeatOf(LEAKED)});
    LeakIsLegal(made);
    var freed := made.(services := map["s" := LEAK_SERVICE.(finalizer := false)]);
    now := freed.(services := map[]);
    var e0 := Event(Controller("s"), LEAK_CALL, start, made);
    var e1 := Event(Controller("s"), RemoveFinalizer, made, freed);
    var e2 := Event(Outsider, Drop("s"), freed, now);
    LeakerLeaves(made, freed, now);
    LeakBegins();
    LeakStays(made);
    LeakStays(freed);
    LeakStays(now);
    RunGrows(ANY_NAMES, start, [], e0, made);
    RunGrows(ANY_NAMES, start, [] + [e0], e1, freed);
    RunGrows(ANY_NAMES, start, [] + [e0] + [e1], e2, now);
    log := [] + [e0] + [e1] + [e2];
  }
}
