/** What every run of the protocol keeps, and what follows from it. */
module Safety {
  import opened Common
  import opened Model
  import opened Cluster
  import opened Text
  import opened Protocol

  // ----- The invariant is kept while the provider makes progress -----

  predicate SameKeys(v: Listener, w: Listener) {
    v.lb == w.lb && v.name == w.name && v.vip == w.vip && v.protocol == w.protocol && v.port == w.port
  }

  /** Uniqueness only looks at names and frontends, and survives any removal. */
  lemma UniqueShrinks(a: Net, b: Net)
    requires Unique(a) && b.lbs.Keys <= a.lbs.Keys && b.listeners.Keys <= a.listeners.Keys
    requires forall id | id in b.lbs :: b.lbs[id].name == a.lbs[id].name
    requires forall id | id in b.listeners :: SameKeys(b.listeners[id], a.listeners[id])
    ensures Unique(b)
  {
    hide EqualFold;
    forall x, y | x in b.listeners && y in b.listeners && Collide(b.listeners[x], b.listeners[y]) ensures x == y {
      assert Collide(a.listeners[x], a.listeners[y]);
    }
  }

  lemma UniqueEvolves(a: Net, b: Net)
    requires Unique(a) && Evolves(a, b)
    ensures Unique(b)
  {
    hide Unique;
    UniqueShrinks(a, b);
  }

  lemma ServiceEvolves(nm: Naming, a: Net, b: Net, name: string)
    requires Evolves(a, b) && name in a.services && ServiceInv(nm, a, name)
    ensures ServiceInv(nm, b, name)
  {
    hide OwnName, OwnedBy;
  }

  lemma MakerEvolves(nm: Naming, a: Net, b: Net, name: string, id: Id)
    requires Evolves(a, b) && name in a.services && id in b.listeners
    requires id in a.listeners ==> MadeOnRecord(nm, a, name, id)
    ensures MadeOnRecord(nm, b, name, id)
  {
    hide OwnName, NamesParent;
  }

  lemma InvEvolves(nm: Naming, a: Net, b: Net)
    requires Inv(nm, a) && Evolves(a, b)
    ensures Inv(nm, b)
  {
    hide Unique, ServiceInv, MadeOnRecord;
    UniqueEvolves(a, b);
    EvolvesKeepsWellFormed(a, b);
    forall s | s in a.services ensures ServiceInv(nm, b, s) {
      ServiceEvolves(nm, a, b, s);
    }
    forall s, id | s in b.services && id in b.listeners ensures MadeOnRecord(nm, b, s, id) {
      MakerEvolves(nm, a, b, s, id);
    }
  }

  // ----- ... and by every call -----

  /** Calls that leave the Services alone. */
  predicate OnProvider(call: Call) {
    call.CreateLB? || call.DeleteLB? || call.CreateVIP? || call.DeleteVIP? || call.CreateListener? || call.DeleteListener?
  }

  /** What a provider call does to listeners: those of before keep everything but their status, and a new one is the one
      the call asked for. */
  ghost predicate Touches(e: Event, name: string) {
    && e.post.services == e.pre.services && e.post.namespace == e.pre.namespace && e.pre.issued <= e.post.issued
    && (forall id | id in e.post.listeners && id in e.pre.issued :: KeptListener(e.pre, e.post, id))
    && (forall id | id in e.post.listeners && id !in e.pre.issued ::
          && e.call.CreateListener? && e.post.listeners[id].lb == e.call.lb && e.post.listeners[id].name == e.call.name
          && name in e.pre.services && e.post.listeners[id].maker == e.pre.services[name].uid)
  }

  ghost predicate KeptListener(n: Net, m: Net, id: Id)
    requires id in m.listeners
  {
    && id in n.listeners
    && m.listeners[id].(status := "") == n.listeners[id].(status := "")
    && (n.listeners[id].status == DELETING ==> m.listeners[id].status == DELETING)
  }

  lemma CreateLBKeepsShape(n: Net, m: Net, name: string, id: Id)
    requires WellFormed(n) && Unique(n) && LBNameFree(n, name) && CreatesLB(n, m, name, id)
    ensures WellFormed(m) && Unique(m) && m.listeners == n.listeners
  {
    hide EqualFold;
  }

  lemma CreateVIPKeepsShape(n: Net, m: Net, lb: Id, id: Id)
    requires WellFormed(n) && Unique(n) && CreatesVIP(n, m, lb, id)
    ensures WellFormed(m) && Unique(m) && m.listeners == n.listeners
  {
    hide EqualFold;
  }

  lemma FoldIsSymmetric(a: string, b: string)
    ensures EqualFold(a, b) == EqualFold(b, a)
  {
    hide Lower;
  }

  lemma CreateListenerKeepsUnique(n: Net, m: Net, uid: Uid, call: Call, id: Id)
    requires call.CreateListener? && WellFormed(n) && Unique(n) && CreatesListener(n, m, uid, call, id)
    requires ListenerNameFree(n, call.lb, call.name) && FrontendFree(n, call.lb, call.vip, call.protocol, call.port)
    ensures Unique(m)
  {
    hide EqualFold;
    forall a, b | a in m.listeners && b in m.listeners && Collide(m.listeners[a], m.listeners[b]) ensures a == b {
      FoldIsSymmetric(m.listeners[a].protocol, m.listeners[b].protocol);
    }
  }

  lemma CreateListenerKeepsShape(n: Net, m: Net, uid: Uid, call: Call, id: Id)
    requires call.CreateListener? && WellFormed(n) && CreatesListener(n, m, uid, call, id)
    ensures WellFormed(m)
    ensures forall v | v in m.listeners :: if v == id then v !in n.issued else KeptListener(n, m, v)
  {
  }

  lemma MarkLBKeepsShape(n: Net, m: Net, lb: Id)
    requires WellFormed(n) && Unique(n) && lb in n.lbs && m == n.(lbs := n.lbs[lb := n.lbs[lb].(status := DELETING)])
    ensures WellFormed(m) && Unique(m)
  {
    hide Unique;
    UniqueShrinks(n, m);
  }

  lemma MarkVIPKeepsShape(n: Net, m: Net, vip: Id)
    requires WellFormed(n) && Unique(n) && vip in n.vips && m == n.(vips := n.vips[vip := n.vips[vip].(status := DELETING)])
    ensures WellFormed(m) && Unique(m)
  {
    hide Unique;
    UniqueShrinks(n, m);
  }

  lemma MarkListenerKeepsShape(n: Net, m: Net, id: Id)
    requires WellFormed(n) && Unique(n) && id in n.listeners
    requires m == n.(listeners := n.listeners[id := n.listeners[id].(status := DELETING)])
    ensures WellFormed(m) && Unique(m)
    ensures forall v | v in m.listeners :: KeptListener(n, m, v)
  {
    hide Unique;
    UniqueShrinks(n, m);
  }

  lemma ProviderCallKeepsShape(nm: Naming, e: Event, name: string)
    requires e.actor == Controller(name) && OnProvider(e.call)
    requires WellFormed(e.pre) && Unique(e.pre)
    requires Guard(nm, e.pre, e.actor, e.call) && Effect(e.pre, e.actor, e.call, e.post)
    ensures WellFormed(e.post) && Unique(e.post) && Touches(e, name)
  {
    hide WellFormed, Unique;
    assert forall id | id in e.pre.listeners :: id in e.pre.issued by { ListenersAreIssued(e.pre); }
    match e.call
    case CreateLB(lbName) =>
      var id :| CreatesLB(e.pre, e.post, lbName, id);
      CreateLBKeepsShape(e.pre, e.post, lbName, id);
    case CreateVIP(lb) =>
      var id :| CreatesVIP(e.pre, e.post, lb, id);
      CreateVIPKeepsShape(e.pre, e.post, lb, id);
    case CreateListener(_, _, _, _, _, _) =>
      var uid := e.pre.services[name].uid;
      var id :| CreatesListener(e.pre, e.post, uid, e.call, id);
      CreateListenerKeepsUnique(e.pre, e.post, uid, e.call, id);
      CreateListenerKeepsShape(e.pre, e.post, uid, e.call, id);
    case DeleteLB(lb, _) => MarkLBKeepsShape(e.pre, e.post, lb);
    case DeleteVIP(_, vip, _) => MarkVIPKeepsShape(e.pre, e.post, vip);
    case DeleteListener(_, id) => MarkListenerKeepsShape(e.pre, e.post, id);
  }

  lemma ListenersAreIssued(n: Net)
    requires WellFormed(n)
    ensures n.listeners.Keys <= n.issued
  {
  }

  lemma ServiceKept(nm: Naming, n: Net, m: Net, name: string)
    requires name in n.services && ServiceInv(nm, n, name)
    requires m.services == n.services && m.namespace == n.namespace && n.issued <= m.issued
    requires forall id | id in m.listeners && id in n.issued :: KeptListener(n, m, id)
    ensures ServiceInv(nm, m, name)
  {
    hide OwnName, OwnedBy;
    forall id | id in RecordedListeners(n.services[name]) ensures KnownListener(nm, m, name, n.services[name].lbID, id) {
      assert KnownListener(nm, n, name, n.services[name].lbID, id);
    }
  }

  lemma ProviderCallKeepsInv(nm: Naming, e: Event, name: string)
    requires e.actor == Controller(name) && OnProvider(e.call)
    requires Inv(nm, e.pre) && Guard(nm, e.pre, e.actor, e.call) && Effect(e.pre, e.actor, e.call, e.post)
    ensures Inv(nm, e.post)
  {
    hide Unique, ServiceInv, Effect, OwnName, NamesParent, WellFormed;
    ProviderCallKeepsShape(nm, e, name);
    forall s | s in e.post.services ensures ServiceInv(nm, e.post, s) {
      ServiceKept(nm, e.pre, e.post, s);
    }
    forall s, id | s in e.post.services && id in e.post.listeners ensures MadeOnRecord(nm, e.post, s, id) {
      if id in e.pre.issued {
        assert KeptListener(e.pre, e.post, id);
        assert MadeOnRecord(nm, e.pre, s, id);
      }
    }
  }

  /** Calls that rewrite one Service object. */
  ghost predicate Rewrites(n: Net, m: Net, name: string, to: Service) {
    name in n.services && m == n.(services := n.services[name := to])
  }

  lemma RewriteKeepsInv(nm: Naming, n: Net, m: Net, name: string, to: Service)
    requires Inv(nm, n) && Rewrites(n, m, name, to) && to.uid == n.services[name].uid
    requires ServiceInv(nm, m, name)
    requires forall id | id in m.listeners :: MadeOnRecord(nm, m, name, id)
    ensures Inv(nm, m)
  {
    hide OwnName, NamesParent, Unique, OwnParentIs, KeysFollowOwner;
    UniqueShrinks(n, m);
    forall s | s in m.services ensures ServiceInv(nm, m, s) {
      if s != name {
        assert ServiceInv(nm, n, s);
        assert forall id | id in RecordedListeners(n.services[s]) ::
            KnownListener(nm, n, s, n.services[s].lbID, id) && KnownListener(nm, m, s, n.services[s].lbID, id);
      }
    }
    forall s, id | s in m.services && id in m.listeners ensures MadeOnRecord(nm, m, s, id) {
      assert s != name ==> MadeOnRecord(nm, n, s, id);
    }
  }

  lemma FinalizerKeepsInv(nm: Naming, n: Net, m: Net, name: string, on: bool)
    requires Inv(nm, n) && name in n.services && Rewrites(n, m, name, n.services[name].(finalizer := on))
    requires on || AllGone(n, RecordedListeners(n.services[name]))
    ensures Inv(nm, m)
  {
    hide OwnName, OwnedBy, Unique;
    var s := n.services[name];
    assert RecordedListeners(m.services[name]) == RecordedListeners(s);
    forall id | id in RecordedListeners(s) ensures KnownListener(nm, m, name, s.lbID, id) {
      assert KnownListener(nm, n, name, s.lbID, id);
    }
    assert ServiceInv(nm, m, name);
    forall id | id in m.listeners ensures MadeOnRecord(nm, m, name, id) {
      assert MadeOnRecord(nm, n, name, id);
    }
    RewriteKeepsInv(nm, n, m, name, s.(finalizer := on));
  }

  /** A patch may move a Service to another load balancer only when the old one carries nothing. */
  lemma PatchMovesNothing(nm: Naming, n: Net, name: string, to: Service, front: Frontend, id: Id)
    requires Inv(nm, n) && name in n.services && PatchGuard(nm, n, name, to, front)
    requires id in n.listeners && n.listeners[id].lb == n.services[name].lbID
    requires n.listeners[id].maker == n.services[name].uid || id in RecordedListeners(n.services[name])
    ensures to.lbID == n.services[name].lbID
  {
    hide Unique, ServiceInv, MadeOnRecord, OwnParentIs, KeysFollowOwner, NamesParent;
  }

  lemma PatchKeepsInv(nm: Naming, n: Net, m: Net, name: string, to: Service, front: Frontend)
    requires Inv(nm, n) && name in n.services && Rewrites(n, m, name, to) && PatchGuard(nm, n, name, to, front)
    ensures Inv(nm, m)
  {
    hide OwnName, OwnedBy, Unique, Provided;
    var s := n.services[name];
    forall id | id in RecordedListeners(to) ensures KnownListener(nm, m, name, to.lbID, id) {
      if id in RecordedListeners(s) {
        assert KnownListener(nm, n, name, s.lbID, id);
        if id in n.listeners {
          PatchMovesNothing(nm, n, name, to, front, id);
        }
      } else {
        assert KnownListener(nm, n, name, to.lbID, id);
      }
    }
    assert ServiceInv(nm, m, name);
    forall id | id in m.listeners ensures MadeOnRecord(nm, m, name, id) {
      assert MadeOnRecord(nm, n, name, id);
      if n.listeners[id].maker == s.uid {
        ParentOnRecordIsCurrent(nm, n, name, n.listeners[id].lb);
        PatchMovesNothing(nm, n, name, to, front, id);
      }
    }
    RewriteKeepsInv(nm, n, m, name, to);
  }

  lemma ParentOnRecordIsCurrent(nm: Naming, n: Net, name: string, lb: Id)
    requires name in n.services && ServiceInv(nm, n, name) && RecordsParent(n, name, lb)
    ensures n.services[name].lbID == lb
  {
    hide OwnedBy, OwnName;
  }

  lemma AdmitKeepsInv(nm: Naming, n: Net, m: Net, name: string, to: Service)
    requires Inv(nm, n) && OutsiderGuard(nm, n, Admit(name, to)) && m == n.(services := n.services[name := to])
    ensures Inv(nm, m)
  {
    hide OwnName, NamesParent, Unique, OwnParentIs, KeysFollowOwner;
    UniqueShrinks(n, m);
    assert RecordedListeners(to) == {};
    forall s | s in m.services ensures ServiceInv(nm, m, s) {
      if s != name {
        assert ServiceInv(nm, n, s);
        assert forall id | id in RecordedListeners(n.services[s]) ::
            KnownListener(nm, n, s, n.services[s].lbID, id) && KnownListener(nm, m, s, n.services[s].lbID, id);
      }
    }
    forall s, id | s in m.services && id in m.listeners ensures MadeOnRecord(nm, m, s, id) {
      assert s != name ==> MadeOnRecord(nm, n, s, id);
    }
  }

  lemma DropKeepsInv(nm: Naming, n: Net, m: Net, name: string)
    requires Inv(nm, n) && m == n.(services := n.services - {name})
    ensures Inv(nm, m)
  {
    hide OwnName, NamesParent, Unique, OwnParentIs, KeysFollowOwner;
    UniqueShrinks(n, m);
    forall s | s in m.services ensures ServiceInv(nm, m, s) {
      assert ServiceInv(nm, n, s);
      assert forall id | id in RecordedListeners(n.services[s]) ::
          KnownListener(nm, n, s, n.services[s].lbID, id) && KnownListener(nm, m, s, n.services[s].lbID, id);
    }
    forall s, id | s in m.services && id in m.listeners ensures MadeOnRecord(nm, m, s, id) {
      assert MadeOnRecord(nm, n, s, id);
    }
  }

  lemma EditKeepsInv(nm: Naming, n: Net, m: Net, name: string, to: Service)
    requires Inv(nm, n) && OutsiderGuard(nm, n, Edit(name, to)) && m == n.(services := n.services[name := to])
    ensures Inv(nm, m)
  {
    hide OwnName, OwnedBy, Unique;
    var s := n.services[name];
    assert RecordedListeners(to) == RecordedListeners(s);
    forall id | id in RecordedListeners(s) ensures KnownListener(nm, m, name, to.lbID, id) {
      assert KnownListener(nm, n, name, s.lbID, id);
    }
    assert ServiceInv(nm, m, name);
    forall id | id in m.listeners ensures MadeOnRecord(nm, m, name, id) {
      assert MadeOnRecord(nm, n, name, id);
    }
    RewriteKeepsInv(nm, n, m, name, to);
  }

  lemma OutOfBandKeepsInv(nm: Naming, n: Net, m: Net)
    requires Inv(nm, n) && OutsiderGuard(nm, n, OutOfBand(m))
    ensures Inv(nm, m)
  {
    hide OwnName, NamesParent, Unique, OwnParentIs, KeysFollowOwner;
    forall s | s in m.services ensures ServiceInv(nm, m, s) {
      assert ServiceInv(nm, n, s);
      assert forall id | id in RecordedListeners(n.services[s]) ::
          KnownListener(nm, n, s, n.services[s].lbID, id) && KnownListener(nm, m, s, n.services[s].lbID, id);
    }
    forall s, id | s in m.services && id in m.listeners ensures MadeOnRecord(nm, m, s, id) {
      assert id in n.listeners ==> MadeOnRecord(nm, n, s, id);
    }
  }

  lemma OutsiderCallKeepsInv(nm: Naming, e: Event)
    requires Inv(nm, e.pre) && e.actor == Outsider
    requires Guard(nm, e.pre, e.actor, e.call) && Effect(e.pre, e.actor, e.call, e.post)
    ensures Inv(nm, e.post)
  {
    hide Inv, OutsiderGuard;
    match e.call
    case Admit(name, to) => AdmitKeepsInv(nm, e.pre, e.post, name, to);
    case Edit(name, to) => EditKeepsInv(nm, e.pre, e.post, name, to);
    case Drop(name) => DropKeepsInv(nm, e.pre, e.post, name);
    case OutOfBand(m) => OutOfBandKeepsInv(nm, e.pre, m);
    case _ =>
  }

  lemma LegalKeepsInv(nm: Naming, e: Event)
    requires Inv(nm, e.pre) && Legal(nm, e)
    ensures Inv(nm, e.post)
  {
    hide Inv, PatchGuard, OutsiderGuard, ControllerGuard;
    if e.post != e.pre {
      match e.actor
      case Outsider =>
        OutsiderCallKeepsInv(nm, e);
      case Controller(name) => ControllerCallKeepsInv(nm, e, name);
    }
  }

  lemma ControllerCallKeepsInv(nm: Naming, e: Event, name: string)
    requires Inv(nm, e.pre) && e.actor == Controller(name)
    requires Guard(nm, e.pre, e.actor, e.call) && Effect(e.pre, e.actor, e.call, e.post)
    ensures Inv(nm, e.post)
  {
    hide Inv, PatchGuard, Provided, OwnName, RecordsParent;
    match e.call
    case AddFinalizer => FinalizerKeepsInv(nm, e.pre, e.post, name, true);
    case RemoveFinalizer => FinalizerKeepsInv(nm, e.pre, e.post, name, false);
    case Patch(to, front) => PatchKeepsInv(nm, e.pre, e.post, name, to, front);
    case _ => ProviderCallKeepsInv(nm, e, name);
  }

  /** A run grows by one call and what follows it. */
  lemma RunGrows(nm: Naming, start: Net, log: seq<Event>, e: Event, now: Net)
    requires Run(nm, start, log, e.pre) && Legal(nm, e) && Evolves(e.post, now)
    ensures Run(nm, start, log + [e], now)
  {
    hide Legal, Evolves;
    assert (log + [e])[..|log|] == log;
  }

  lemma {:induction false} RunDrifts(nm: Naming, start: Net, log: seq<Event>, now: Net, later: Net)
    requires Run(nm, start, log, now) && Evolves(now, later)
    ensures Run(nm, start, log, later)
  {
    hide Legal, Evolves;
    if log == [] {
      EvolvesIsTransitive(start, now, later);
    } else {
      EvolvesIsTransitive(log[|log| - 1].post, now, later);
    }
  }

  // ----- What a caller knows stays true until the call is served -----

  lemma SharedEvolves(a: Net, b: Net, self: string, lb: Id)
    requires a.services == b.services && a.namespace == b.namespace
    ensures Shared(a, self, lb) == Shared(b, self, lb)
  {
    hide RecordsParent;
    forall t ensures HoldsLB(a, t, lb) == HoldsLB(b, t, lb) {
      RecordsParentIsAnnotation(a, b, t, lb);
    }
  }

  lemma RecordsParentIsAnnotation(a: Net, b: Net, name: string, lb: Id)
    requires a.services == b.services && a.namespace == b.namespace
    ensures RecordsParent(a, name, lb) == RecordsParent(b, name, lb)
  {
  }

  lemma PatchGuardEvolves(nm: Naming, a: Net, b: Net, name: string, to: Service, front: Frontend)
    requires Evolves(a, b) && name in a.services && PatchGuard(nm, a, name, to, front)
    ensures PatchGuard(nm, b, name, to, front)
  {
    hide OwnName, NamesParent, OwnParentIs, KeysFollowOwner, Provided, KeepsVIP;
    if to.vipID != a.services[name].vipID {
      KeepsVIPEvolves(a, b, name, to.lbID, to.vipID, front);
    }
  }

  lemma KeepsVIPEvolves(a: Net, b: Net, name: string, lb: Id, vip: Id, front: Frontend)
    requires Evolves(a, b) && KeepsVIP(a, name, lb, vip, front)
    ensures KeepsVIP(b, name, lb, vip, front)
  {
    hide OnlyOn;
    forall w | OnlyOn(b, lb, front.names, w) && Listed(b, lb, front.subnet, w) && Pinned(b, name, lb, front.names, w) ensures vip == w {
      assert OnlyOn(a, lb, front.names, w) by { SeatsDecide(a, b, lb, front.names, w); }
      if Carries(b, name, lb, front.names) {
        var id :| id in b.listeners && CarriesOne(b, lb, front.names, b.services[name].uid, id);
        assert CarriesOne(a, lb, front.names, a.services[name].uid, id);
      }
    }
  }

  lemma SeatsDecide(a: Net, b: Net, lb: Id, names: set<string>, w: Id)
    requires a.seats <= b.seats && OnlyOn(b, lb, names, w)
    ensures OnlyOn(a, lb, names, w)
  {
  }

  lemma RepairIsAnnotation(a: Net, b: Net, name: string, lb: Id)
    requires a.services == b.services && a.namespace == b.namespace
    ensures MayRepair(a, name, lb) == MayRepair(b, name, lb)
  {
    hide StrictLB, OffersLB;
  }

  lemma MayDeleteEvolves(a: Net, b: Net, name: string, lb: Id, why: Why)
    requires Evolves(a, b) && MayDelete(a, name, lb, why)
    ensures MayDelete(b, name, lb, why)
  {
    hide AllGone, Shared, RecordedListeners, MayRepair, SoleParent, EqualFold;
    SharedEvolves(a, b, name, lb);
    RepairIsAnnotation(a, b, name, lb);
    if why.Cleanup? {
      GoneIsStable(a, b, RecordedListeners(a.services[name]));
    }
  }

  lemma SharedVIPEvolves(a: Net, b: Net, self: string, lb: Id, vip: Id)
    requires a.services == b.services
    ensures SharedVIP(a, self, lb, vip) == SharedVIP(b, self, lb, vip)
  {
    forall t ensures HoldsVIP(a, t, lb, vip) == HoldsVIP(b, t, lb, vip) {}
  }

  lemma ReachEvolves(nm: Naming, a: Net, b: Net, name: string, lb: Id, subnet: string, vip: Id)
    requires Evolves(a, b) && ReachesVIP(nm, a, name, lb, subnet, vip)
    ensures ReachesVIP(nm, b, name, lb, subnet, vip)
  {
    hide OwnName;
    if RecoveredFrom(nm, a, name, lb, subnet, vip) {
      var seat :| seat in a.seats && seat.lb == lb && OwnName(nm, name, seat.name) && (seat.vip == vip || !Listed(a, lb, subnet, seat.vip));
      assert seat in b.seats && (Listed(b, lb, subnet, seat.vip) ==> Listed(a, lb, subnet, seat.vip));
    }
  }

  lemma MendsIsAnnotation(a: Net, b: Net, name: string, lb: Id)
    requires a.services == b.services && a.namespace == b.namespace
    ensures MendsVIPs(a, name, lb) == MendsVIPs(b, name, lb)
  {
    hide StrictVIP;
    RecordsParentIsAnnotation(a, b, name, lb);
  }

  lemma VIPPlacedEvolves(a: Net, b: Net, lb: Id, subnet: string, vip: Id)
    requires Evolves(a, b) && VIPAsPlaced(a, lb, subnet, vip)
    ensures VIPAsPlaced(b, lb, subnet, vip)
  {
  }

  lemma MayDeleteVIPEvolves(nm: Naming, a: Net, b: Net, name: string, lb: Id, vip: Id, why: Why)
    requires Evolves(a, b) && MayDeleteVIP(nm, a, name, lb, vip, why)
    ensures MayDeleteVIP(nm, b, name, lb, vip, why)
  {
    hide AllGone, SharedVIP, RecordedListeners, RecordedVIPs, SoleParent, ReachesVIP, MendsVIPs, VIPAsPlaced, Evolves;
    ServicesEvolve(a, b);
    match why
    case Repair(where) =>
      MendsIsAnnotation(a, b, name, lb);
      ReachEvolves(nm, a, b, name, lb, where.networkID, vip);
      VIPPlacedEvolves(a, b, lb, where.networkID, vip);
    case Cleanup =>
      SharedVIPEvolves(a, b, name, a.services[name].lbID, a.services[name].vipID);
      GoneIsStable(a, b, RecordedListeners(a.services[name]));
  }

  lemma ServicesEvolve(a: Net, b: Net)
    requires Evolves(a, b)
    ensures b.services == a.services && b.namespace == a.namespace
  {
  }

  lemma FreeNamesEvolve(a: Net, b: Net, lb: Id, name: string, vip: Id, protocol: string, port: int)
    requires Evolves(a, b)
    ensures LBNameFree(a, name) ==> LBNameFree(b, name)
    ensures ListenerNameFree(a, lb, name) ==> ListenerNameFree(b, lb, name)
    ensures FrontendFree(a, lb, vip, protocol, port) ==> FrontendFree(b, lb, vip, protocol, port)
  {
    hide EqualFold;
  }

  lemma GuardEvolves(nm: Naming, a: Net, b: Net, name: string, call: Call)
    requires Evolves(a, b) && ControllerGuard(nm, a, name, call)
    ensures ControllerGuard(nm, b, name, call)
  {
    hide OwnName, PatchGuard, Provided, FrontendFree, LBNameFree, ListenerNameFree, AllGone, RecordedListeners,
      RecordsParent, Shared, MayDelete, MayDeleteVIP, KeepsVIP;
    assert b.services == a.services;
    match call
    case RemoveFinalizer => GoneIsStable(a, b, RecordedListeners(a.services[name]));
    case Patch(to, front) => PatchGuardEvolves(nm, a, b, name, to, front);
    case CreateLB(lbName) => FreeNamesEvolve(a, b, "", lbName, "", "", 0);
    case DeleteLB(lb, why) => MayDeleteEvolves(a, b, name, lb, why);
    case CreateVIP(lb) => RecordsParentIsAnnotation(a, b, name, lb);
    case DeleteVIP(lb, vip, why) => MayDeleteVIPEvolves(nm, a, b, name, lb, vip, why);
    case CreateListener(lb, vsName, vip, protocol, port, front) =>
      RecordsParentIsAnnotation(a, b, name, lb);
      KeepsVIPEvolves(a, b, name, lb, vip, front);
      FreeNamesEvolve(a, b, lb, vsName, vip, protocol, port);
    case _ =>
  }
}
