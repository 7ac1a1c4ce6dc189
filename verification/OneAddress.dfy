/** One VIP per Service over whole runs: every creation of a listener respects the VIP that the Service is on, so lost
    answers, crashes and restarts do not spread its listeners. */
module OneAddress {
  import opened Common
  import opened Model
  import opened Cluster
  import opened Protocol
  import opened Safety
  import opened Runs

  /** A call that works for these names, or some of them, while the VIP is listed and the Service is known to be on it: it
      is on record, or there are listeners to tell. */
  ghost predicate WhileOn(n: Net, name: string, lb: Id, names: set<string>, w: Id, front: Frontend) {
    front.names <= names && Listed(n, lb, front.subnet, w) && Pinned(n, name, lb, front.names, w)
  }

  /** The assumptions of the theorem, event by event: the port set is fixed (or loses ports), the VIP stays listed, and
      neither people nor other programs put these names or the record elsewhere. */
  ghost predicate Steady(e: Event, name: string, lb: Id, names: set<string>, w: Id) {
    match e.actor
    case Controller(t) =>
      t == name && name in e.pre.services ==>
        (match e.call
         case CreateListener(l, _, _, _, _, front) => l == lb ==> WhileOn(e.pre, name, lb, names, w, front)
         case Patch(to, front) =>
           to.vipID != e.pre.services[name].vipID ==> to.lbID == lb && WhileOn(e.pre, name, lb, names, w, front)
         case _ => true)
    case Outsider =>
      match e.call
      case Edit(t, to) => t == name && t in e.pre.services ==> to.vipID == e.pre.services[t].vipID
      case OutOfBand(m) => forall seat | seat in m.seats && seat !in e.pre.seats && seat.lb == lb && seat.name in names :: seat.vip == w
      case _ => true
  }

  predicate OnRecord(n: Net, name: string, w: Id) {
    name in n.services && n.services[name].vipID in {NO_ID, w}
  }

  lemma FewerNames(n: Net, lb: Id, names: set<string>, fewer: set<string>, w: Id)
    requires OnlyOn(n, lb, names, w) && fewer <= names
    ensures OnlyOn(n, lb, fewer, w)
  {
  }

  lemma NamesTell(nm: Naming, a: string, b: string, name: string)
    requires Injective(nm) && OwnName(nm, a, name) && OwnName(nm, b, name)
    ensures a == b
  {
  }

  lemma CreationKeepsOn(nm: Naming, e: Event, t: string, id: Id, name: string, lb: Id, names: set<string>, w: Id)
    requires e.actor == Controller(t) && e.call.CreateListener? && ControllerGuard(nm, e.pre, t, e.call)
    requires CreatesListener(e.pre, e.post, e.pre.services[t].uid, e.call, id)
    requires Injective(nm) && forall p | p in names :: OwnName(nm, name, p)
    requires Steady(e, name, lb, names, w) && OnlyOn(e.pre, lb, names, w)
    ensures OnlyOn(e.post, lb, names, w)
  {
    hide OwnName, Pinned, Listed, RecordsParent, ListenerNameFree, FrontendFree, Injective, Created;
    if e.call.lb == lb && e.call.name in names {
      NamesTell(nm, t, name, e.call.name);
      FewerNames(e.pre, lb, names, e.call.front.names, w);
    }
  }

  lemma EffectKeepsSeats(e: Event, t: string)
    requires e.actor == Controller(t) && Effect(e.pre, e.actor, e.call, e.post) && !e.call.CreateListener?
    ensures e.post.seats == e.pre.seats
  {
    hide Created;
  }

  lemma StepKeepsOn(nm: Naming, e: Event, name: string, lb: Id, names: set<string>, w: Id)
    requires Injective(nm) && forall p | p in names :: OwnName(nm, name, p)
    requires Legal(nm, e) && Steady(e, name, lb, names, w) && OnlyOn(e.pre, lb, names, w)
    ensures OnlyOn(e.post, lb, names, w)
  {
    hide Injective, OwnName, ControllerGuard, OnlyOn, CreatesListener, WhileOn;
    if e.post != e.pre {
      match e.actor
      case Controller(t) =>
        if e.call.CreateListener? {
          var id :| CreatesListener(e.pre, e.post, e.pre.services[t].uid, e.call, id);
          GuardKnows(nm, e.pre, t, e.call);
          CreationKeepsOn(nm, e, t, id, name, lb, names, w);
        } else {
          EffectKeepsSeats(e, t);
          SeatsDecide(e.post, e.pre, lb, names, w);
        }
      case Outsider => OutsidersKeepOn(nm, e, name, lb, names, w);
    }
  }

  lemma GuardKnows(nm: Naming, n: Net, t: string, call: Call)
    requires ControllerGuard(nm, n, t, call)
    ensures t in n.services
  {
  }

  lemma OutsidersKeepOn(nm: Naming, e: Event, name: string, lb: Id, names: set<string>, w: Id)
    requires e.actor == Outsider && Effect(e.pre, e.actor, e.call, e.post) && Steady(e, name, lb, names, w)
    requires OnlyOn(e.pre, lb, names, w)
    ensures OnlyOn(e.post, lb, names, w)
  {
  }

  lemma StepKeepsRecord(nm: Naming, e: Event, name: string, uid: Uid, lb: Id, names: set<string>, w: Id)
    requires Legal(nm, e) && Steady(e, name, lb, names, w) && OnlyOn(e.pre, lb, names, w) && OnRecord(e.pre, name, w)
    requires Incarnation(e.pre, name, uid) && Incarnation(e.post, name, uid)
    ensures OnRecord(e.post, name, w)
  {
    hide WellFormed, Unique, NamesParent, OwnParentIs, KeysFollowOwner, AllGone, RecordedListeners, Vacant, OwnName, Unused, OnlyOn,
      ListenerNameFree, FrontendFree, LBNameFree, Shared, RecordsParent, CreatesLB, CreatesVIP, CreatesListener, MayDelete, Pinned, Listed;
    CreatesKeepServices(e.pre, e.post);
    if e.actor == Controller(name) && e.call.Patch? && e.post != e.pre && e.call.to.vipID != e.pre.services[name].vipID {
      FewerNames(e.pre, lb, names, e.call.front.names, w);
    }
  }

  /** As long as the port set does not grow and the VIP `w` stays listed while the Service is on it, no crash, lost answer,
      restart or other Service puts one of its listeners on another VIP: at every moment all listeners of these names on the
      load balancer are on `w`, and no other VIP gets on record. */
  lemma {:induction false} OneVIPAcrossRuns(
      nm: Naming, start: Net, log: seq<Event>, now: Net, name: string, uid: Uid, lb: Id, names: set<string>, w: Id)
    requires Injective(nm) && Inv(nm, start) && Run(nm, start, log, now) && forall p | p in names :: OwnName(nm, name, p)
    requires Incarnation(start, name, uid) && Incarnation(now, name, uid)
    requires forall i | 0 <= i < |log| :: Incarnation(log[i].pre, name, uid) && Steady(log[i], name, lb, names, w)
    requires OnlyOn(start, lb, names, w) && OnRecord(start, name, w)
    ensures OnlyOn(now, lb, names, w) && OnRecord(now, name, w)
    ensures forall id | id in now.listeners && now.listeners[id].lb == lb && now.listeners[id].name in names :: now.listeners[id].vip == w
    ensures forall i | 0 <= i < |log| :: OnlyOn(log[i].post, lb, names, w)
  {
    hide Injective, Inv, Legal, OwnName, Steady, OnlyOn, Incarnation, OnRecord;
    if log == [] {
      SameSeats(start, now, name, uid, lb, names, w);
    } else {
      var e := log[|log| - 1];
      var before := log[..|log| - 1];
      assert forall i | 0 <= i < |before| :: log[i] == before[i];
      OneVIPAcrossRuns(nm, start, before, e.pre, name, uid, lb, names, w);
      SameSeats(e.post, now, name, uid, lb, names, w);
      StepKeepsOn(nm, e, name, lb, names, w);
      StepKeepsRecord(nm, e, name, uid, lb, names, w);
    }
    RunKeepsInv(nm, start, log, now);
    ListenersAreSeated(nm, now, lb, names, w);
  }

  lemma SameSeats(n: Net, m: Net, name: string, uid: Uid, lb: Id, names: set<string>, w: Id)
    requires Evolves(n, m)
    ensures OnlyOn(n, lb, names, w) == OnlyOn(m, lb, names, w) && OnRecord(n, name, w) == OnRecord(m, name, w)
    ensures Incarnation(n, name, uid) == Incarnation(m, name, uid)
  {
  }

  lemma ListenersAreSeated(nm: Naming, n: Net, lb: Id, names: set<string>, w: Id)
    requires Inv(nm, n) && OnlyOn(n, lb, names, w)
    ensures forall id | id in n.listeners && n.listeners[id].lb == lb && n.listeners[id].name in names :: n.listeners[id].vip == w
  {
    hide Unique, ServiceInv, MadeOnRecord;
    forall id | id in n.listeners && n.listeners[id].lb == lb && n.listeners[id].name in names ensures n.listeners[id].vip == w {
      assert SeatOf(n.listeners[id]) in n.seats;
    }
  }
}
