/** How the provider's state of two moments of one pass compares. */
module Progress {
  import opened Common
  import opened Model
  import opened Cluster
  import opened Text
  import opened Protocol
  import opened Safety

  /** Listeners of `a` that are still there in `b` are the same ones, and deletions are final. One that was not being
      deleted is still there, unless it is among `doomed` or its load balancer is gone. */
  ghost predicate LaterListeners(a: Net, b: Net, doomed: set<Id>) {
    && (forall id | id in b.listeners && id in a.issued ::
          && id in a.listeners && SameKeys(a.listeners[id], b.listeners[id])
          && a.listeners[id].maker == b.listeners[id].maker
          && (a.listeners[id].status == DELETING ==>
                b.listeners[id].status == DELETING && (b.listeners[id].readable ==> a.listeners[id].readable)))
    && (forall id | id in a.listeners && a.listeners[id].status != DELETING && id !in doomed && a.listeners[id].lb in b.lbs ::
          id in b.listeners && b.listeners[id].status != DELETING && (a.listeners[id].readable ==> b.listeners[id].readable))
  }

  ghost predicate LaterVIPs(a: Net, b: Net, doomed: set<Id>) {
    && (forall id | id in b.vips && id in a.issued ::
          && id in a.vips && a.vips[id].lb == b.vips[id].lb && a.vips[id].address == b.vips[id].address
          && a.vips[id].networkID == b.vips[id].networkID
          && (a.vips[id].status == DELETING ==> b.vips[id].status == DELETING))
    && (forall id | id in a.vips && a.vips[id].status != DELETING && id !in doomed && a.vips[id].lb in b.lbs ::
          id in b.vips && b.vips[id].status != DELETING)
  }

  ghost predicate LaterLBs(a: Net, b: Net, doomed: set<Id>) {
    && (forall id | id in b.lbs && id in a.issued ::
          && id in a.lbs && a.lbs[id].name == b.lbs[id].name
          && a.lbs[id].networkID == b.lbs[id].networkID && a.lbs[id].vpcID == b.lbs[id].vpcID && a.lbs[id].region == b.lbs[id].region
          && (a.lbs[id].readable ==> b.lbs[id].readable)
          && (a.lbs[id].status == DELETING ==> b.lbs[id].status == DELETING))
    && (forall id | id in a.lbs && a.lbs[id].status != DELETING && id !in doomed ::
          id in b.lbs && b.lbs[id].status != DELETING)
  }

  /** What some calls delete, kind by kind. */
  datatype Doom = Doom(lbs: set<Id>, vips: set<Id>, listeners: set<Id>) {
    function Plus(d: Doom): Doom {
      Doom(lbs + d.lbs, vips + d.vips, listeners + d.listeners)
    }
  }

  const NO_DOOM := Doom({}, {}, {})

  /** `b` comes after `a` in one pass that, in between, left the Services alone and deleted at most `doomed`. */
  ghost predicate Later(a: Net, b: Net, doomed: Doom) {
    && b.services == a.services && b.namespace == a.namespace && a.issued <= b.issued && a.seats <= b.seats
    && LaterListeners(a, b, doomed.listeners) && LaterVIPs(a, b, doomed.vips) && LaterLBs(a, b, doomed.lbs)
  }

  lemma LaterIsTransitive(a: Net, b: Net, c: Net, d1: Doom, d2: Doom)
    requires WellFormed(a) && WellFormed(b) && Later(a, b, d1) && Later(b, c, d2)
    ensures Later(a, c, d1.Plus(d2))
  {
    LBsChain(a, b, c, d1.lbs, d2.lbs);
    VIPsChain(a, b, c, d1.vips, d2.vips, d2.lbs);
    ListenersChain(a, b, c, d1.listeners, d2.listeners, d2.lbs);
  }

  lemma LBsChain(a: Net, b: Net, c: Net, d1: set<Id>, d2: set<Id>)
    requires LaterLBs(a, b, d1) && LaterLBs(b, c, d2) && a.issued <= b.issued && b.issued <= c.issued
    ensures LaterLBs(a, c, d1 + d2)
  {
  }

  lemma VIPsChain(a: Net, b: Net, c: Net, d1: set<Id>, d2: set<Id>, lbs: set<Id>)
    requires WellFormed(a) && WellFormed(b)
    requires LaterVIPs(a, b, d1) && LaterVIPs(b, c, d2) && LaterLBs(b, c, lbs) && a.issued <= b.issued && b.issued <= c.issued
    ensures LaterVIPs(a, c, d1 + d2)
  {
  }

  lemma ListenersChain(a: Net, b: Net, c: Net, d1: set<Id>, d2: set<Id>, lbs: set<Id>)
    requires WellFormed(a) && WellFormed(b)
    requires LaterListeners(a, b, d1) && LaterListeners(b, c, d2) && LaterLBs(b, c, lbs)
    requires a.issued <= b.issued && b.issued <= c.issued
    ensures LaterListeners(a, c, d1 + d2)
  {
  }

  lemma LaterIsReflexive(a: Net)
    requires WellFormed(a)
    ensures Later(a, a, NO_DOOM)
  {
  }

  lemma LaterWidens(a: Net, b: Net, d1: Doom, d2: Doom)
    requires Later(a, b, d1) && d1.lbs <= d2.lbs && d1.vips <= d2.vips && d1.listeners <= d2.listeners
    ensures Later(a, b, d2)
  {
  }

  lemma EvolvesIsLater(a: Net, b: Net)
    requires WellFormed(a) && Evolves(a, b)
    ensures Later(a, b, NO_DOOM)
  {
  }

  /** What a call dooms. */
  function Doomed(call: Call): Doom {
    match call
    case DeleteLB(lb, _) => NO_DOOM.(lbs := {lb})
    case DeleteVIP(_, vip, _) => NO_DOOM.(vips := {vip})
    case DeleteListener(_, id) => NO_DOOM.(listeners := {id})
    case _ => NO_DOOM
  }

  lemma CallIsLater(nm: Naming, e: Event, name: string)
    requires e.actor == Controller(name) && OnProvider(e.call) && WellFormed(e.pre)
    requires e.post == e.pre || Effect(e.pre, e.actor, e.call, e.post)
    ensures Later(e.pre, e.post, Doomed(e.call))
  {
    if e.post == e.pre {
      LaterIsReflexive(e.pre);
      LaterWidens(e.pre, e.post, NO_DOOM, Doomed(e.call));
    } else {
      match e.call
      case CreateLB(lbName) =>
        var id :| CreatesLB(e.pre, e.post, lbName, id);
        AddedLBIsLater(e.pre, e.post, lbName, id);
      case CreateVIP(lb) =>
        var id :| CreatesVIP(e.pre, e.post, lb, id);
        AddedVIPIsLater(e.pre, e.post, lb, id);
      case CreateListener(_, _, _, _, _, _) =>
        var id :| CreatesListener(e.pre, e.post, e.pre.services[name].uid, e.call, id);
        AddedListenerIsLater(e.pre, e.post, e.pre.services[name].uid, e.call, id);
      case DeleteLB(_, _) => MarkedIsLater(e, name);
      case DeleteVIP(_, _, _) => MarkedIsLater(e, name);
      case DeleteListener(_, _) => MarkedIsLater(e, name);
    }
  }

  lemma AddedLBIsLater(n: Net, m: Net, name: string, id: Id)
    requires WellFormed(n) && CreatesLB(n, m, name, id)
    ensures Later(n, m, NO_DOOM)
  {
  }

  lemma AddedVIPIsLater(n: Net, m: Net, lb: Id, id: Id)
    requires WellFormed(n) && CreatesVIP(n, m, lb, id)
    ensures Later(n, m, NO_DOOM)
  {
  }

  lemma AddedListenerIsLater(n: Net, m: Net, uid: Uid, call: Call, id: Id)
    requires call.CreateListener? && WellFormed(n) && CreatesListener(n, m, uid, call, id)
    ensures Later(n, m, NO_DOOM)
  {
  }

  lemma MarkedIsLater(e: Event, name: string)
    requires e.actor == Controller(name) && (e.call.DeleteLB? || e.call.DeleteVIP? || e.call.DeleteListener?)
    requires WellFormed(e.pre) && Effect(e.pre, e.actor, e.call, e.post)
    ensures Later(e.pre, e.post, Doomed(e.call))
  {
  }

  predicate MadeBy(v: Listener, call: Call) {
    && call.CreateListener? && v.lb == call.lb && v.name == call.name && v.vip == call.vip && v.protocol == call.protocol && v.port == call.port
  }

  predicate MadeByOne(v: Listener, calls: seq<Call>) {
    exists i | 0 <= i < |calls| :: MadeBy(v, calls[i])
  }

  /** Only creations add anything, and only of their own kind; a new listener is as its creation says. */
  predicate AddsOnly(a: Net, b: Net, call: Call) {
    && (call.CreateLB? || b.lbs.Keys <= a.lbs.Keys)
    && (call.CreateVIP? || b.vips.Keys <= a.vips.Keys)
    && (forall id | id in b.listeners && id !in a.listeners :: MadeBy(b.listeners[id], call))
  }

  lemma EvolvesAddsNothing(a: Net, b: Net)
    requires Evolves(a, b)
    ensures AddsOnly(a, b, AddFinalizer)
  {
  }

  lemma CreationMakes(n: Net, m: Net, uid: Uid, call: Call, id: Id)
    requires call.CreateListener? && CreatesListener(n, m, uid, call, id)
    ensures forall x | x in m.listeners && x !in n.listeners :: MadeBy(m.listeners[x], call)
  {
  }

  lemma EffectAddsOnly(e: Event, name: string)
    requires e.actor == Controller(name) && Effect(e.pre, e.actor, e.call, e.post)
    ensures AddsOnly(e.pre, e.post, e.call)
  {
    hide Created;
    if e.call.CreateListener? {
      var uid := e.pre.services[name].uid;
      var id :| CreatesListener(e.pre, e.post, uid, e.call, id);
      CreationMakes(e.pre, e.post, uid, e.call, id);
    }
  }

  lemma CallAddsOnly(a: Net, e: Event, name: string)
    requires Evolves(a, e.pre) && e.actor == Controller(name)
    requires e.post == e.pre || Effect(e.pre, e.actor, e.call, e.post)
    ensures AddsOnly(a, e.post, e.call)
  {
    hide Evolves, Effect;
    EvolvesAddsNothing(a, e.pre);
    if e.post != e.pre {
      EffectAddsOnly(e, name);
    }
  }

  // ----- The calls of a stretch of a pass -----

  function DoomedBy(calls: seq<Call>): Doom {
    if calls == [] then NO_DOOM else Doomed(calls[0]).Plus(DoomedBy(calls[1..]))
  }

  predicate AddsOnlyBy(a: Net, b: Net, calls: seq<Call>) {
    && ((exists i :: 0 <= i < |calls| && calls[i].CreateLB?) || b.lbs.Keys <= a.lbs.Keys)
    && ((exists i :: 0 <= i < |calls| && calls[i].CreateVIP?) || b.vips.Keys <= a.vips.Keys)
    && (forall id | id in b.listeners && id !in a.listeners :: MadeByOne(b.listeners[id], calls))
  }

  predicate Traced(actor: string, l0: seq<Event>, calls: seq<Call>, l: seq<Event>) {
    && |l| == |l0| + |calls| && l[..|l0|] == l0
    && forall k | |l0| <= k < |l| ::
         l[k].actor == Controller(actor) && l[k].call == calls[k - |l0|] && OnProvider(l[k].call)
  }

  /** From (n0, l0) to (n, l) the pass has made exactly these provider calls, in this order, among any number of reads. */
  ghost predicate Span(actor: string, n0: Net, l0: seq<Event>, calls: seq<Call>, n: Net, l: seq<Event>) {
    Traced(actor, l0, calls, l) && Later(n0, n, DoomedBy(calls)) && AddsOnlyBy(n0, n, calls)
  }

  lemma {:induction false} DoomedByConcat(a: seq<Call>, b: seq<Call>)
    ensures DoomedBy(a + b) == DoomedBy(a).Plus(DoomedBy(b))
  {
    hide Doomed;
    if a == [] {
      assert a + b == b;
    } else {
      assert (a + b)[1..] == a[1..] + b && (a + b)[0] == a[0];
      DoomedByConcat(a[1..], b);
      PlusIsAssociative(Doomed(a[0]), DoomedBy(a[1..]), DoomedBy(b));
    }
  }

  /** The listeners among them. */
  function DeletedBy(calls: seq<Call>): set<Id> {
    DoomedBy(calls).listeners
  }

  lemma DeletedByConcat(a: seq<Call>, b: seq<Call>)
    ensures DeletedBy(a + b) == DeletedBy(a) + DeletedBy(b)
  {
    DoomedByConcat(a, b);
  }

  /** Only what some call names is doomed. */
  lemma {:induction false} DoomTells(calls: seq<Call>)
    ensures forall id | id in DoomedBy(calls).listeners :: exists i :: 0 <= i < |calls| && calls[i].DeleteListener? && calls[i].listener == id
    ensures forall id | id in DoomedBy(calls).lbs :: exists i :: 0 <= i < |calls| && calls[i].DeleteLB? && calls[i].lb == id
  {
    if calls != [] {
      var rest := calls[1..];
      DoomTells(rest);
      forall id | id in DoomedBy(calls).listeners ensures exists i :: 0 <= i < |calls| && calls[i].DeleteListener? && calls[i].listener == id {
        if id !in Doomed(calls[0]).listeners {
          var i :| 0 <= i < |rest| && rest[i].DeleteListener? && rest[i].listener == id;
          assert calls[i + 1] == rest[i];
        }
      }
      forall id | id in DoomedBy(calls).lbs ensures exists i :: 0 <= i < |calls| && calls[i].DeleteLB? && calls[i].lb == id {
        if id !in Doomed(calls[0]).lbs {
          var i :| 0 <= i < |rest| && rest[i].DeleteLB? && rest[i].lb == id;
          assert calls[i + 1] == rest[i];
        }
      }
    }
  }

  /** A listener that nobody is deleting, on a load balancer that nobody is deleting. */
  predicate Alive(n: Net, id: Id) {
    && id in n.listeners && n.listeners[id].status != DELETING
    && n.listeners[id].lb in n.lbs && n.lbs[n.listeners[id].lb].status != DELETING
  }

  lemma AliveStays(actor: string, n0: Net, l0: seq<Event>, calls: seq<Call>, n: Net, l: seq<Event>, id: Id)
    requires WellFormed(n0) && Span(actor, n0, l0, calls, n, l) && Alive(n0, id)
    requires id !in DoomedBy(calls).listeners && n0.listeners[id].lb !in DoomedBy(calls).lbs
    ensures Alive(n, id)
  {
  }

  lemma PlusIsAssociative(a: Doom, b: Doom, c: Doom)
    ensures a.Plus(b).Plus(c) == a.Plus(b.Plus(c)) && a.Plus(NO_DOOM) == NO_DOOM.Plus(a) == a
  {
  }

  lemma AddsOnlyConcat(a: Net, b: Net, c: Net, x: seq<Call>, y: seq<Call>, doomed: set<Id>)
    requires AddsOnlyBy(a, b, x) && AddsOnlyBy(b, c, y) && WellFormed(b) && LaterListeners(b, c, doomed)
    ensures AddsOnlyBy(a, c, x + y)
  {
    forall i | 0 <= i < |x| ensures (x + y)[i] == x[i] {}
    forall i | 0 <= i < |y| ensures (x + y)[|x| + i] == y[i] {}
    forall id | id in c.listeners && id !in a.listeners ensures MadeByOne(c.listeners[id], x + y) {
      if id in b.listeners {
        MadeByMore(b.listeners[id], c.listeners[id], x, x + y, 0);
      } else {
        MadeByMore(c.listeners[id], c.listeners[id], y, x + y, |x|);
      }
    }
  }

  lemma MadeByMore(v: Listener, w: Listener, calls: seq<Call>, more: seq<Call>, offset: nat)
    requires MadeByOne(v, calls) && SameKeys(v, w) && offset + |calls| <= |more|
    requires forall i | 0 <= i < |calls| :: more[offset + i] == calls[i]
    ensures MadeByOne(w, more)
  {
    var i :| 0 <= i < |calls| && MadeBy(v, calls[i]);
    assert MadeBy(w, more[offset + i]);
  }

  lemma TracedConcat(actor: string, l0: seq<Event>, x: seq<Call>, l1: seq<Event>, y: seq<Call>, l2: seq<Event>)
    requires Traced(actor, l0, x, l1) && Traced(actor, l1, y, l2)
    ensures Traced(actor, l0, x + y, l2)
  {
    assert l2[..|l0|] == l2[..|l1|][..|l0|];
    forall k | |l0| <= k < |l2|
      ensures l2[k].actor == Controller(actor) && l2[k].call == (x + y)[k - |l0|] && OnProvider(l2[k].call)
    {
      assert k < |l1| ==> l2[k] == l2[..|l1|][k];
    }
  }

  lemma SpanConcat(
      actor: string, n0: Net, l0: seq<Event>, x: seq<Call>, n1: Net, l1: seq<Event>, y: seq<Call>, n2: Net, l2: seq<Event>)
    requires WellFormed(n0) && WellFormed(n1)
    requires Span(actor, n0, l0, x, n1, l1) && Span(actor, n1, l1, y, n2, l2)
    ensures Span(actor, n0, l0, x + y, n2, l2)
  {
    hide LaterListeners, LaterVIPs, LaterLBs, AddsOnlyBy, Traced, WellFormed;
    TracedConcat(actor, l0, x, l1, y, l2);
    LaterIsTransitive(n0, n1, n2, DoomedBy(x), DoomedBy(y));
    DoomedByConcat(x, y);
    AddsOnlyConcat(n0, n1, n2, x, y, DoomedBy(y).listeners);
  }

  lemma SpanReads(actor: string, n0: Net, l0: seq<Event>, n: Net)
    requires Later(n0, n, NO_DOOM) && AddsOnly(n0, n, AddFinalizer)
    ensures Span(actor, n0, l0, [], n, l0)
  {
    hide Later;
  }

  lemma SpanCall(actor: string, n0: Net, l0: seq<Event>, e: Event, n: Net)
    requires e.actor == Controller(actor) && OnProvider(e.call)
    requires Later(n0, n, Doomed(e.call)) && AddsOnly(n0, n, e.call)
    ensures Span(actor, n0, l0, [e.call], n, l0 + [e])
  {
    hide Later, Doomed;
    var calls := [e.call];
    assert calls[0] == e.call && calls[1..] == [];
    assert DoomedBy(calls) == Doomed(e.call).Plus(DoomedBy([]));
    PlusIsAssociative(Doomed(e.call), NO_DOOM, NO_DOOM);
    assert (l0 + [e])[..|l0|] == l0;
  }

  lemma SpanKeepsServices(actor: string, n0: Net, l0: seq<Event>, calls: seq<Call>, n: Net, l: seq<Event>)
    requires Span(actor, n0, l0, calls, n, l)
    ensures n.services == n0.services && n.namespace == n0.namespace && n0.issued <= n.issued
  {
  }

  /** Reading goes on. */
  lemma SpanThenReads(actor: string, n0: Net, l0: seq<Event>, x: seq<Call>, n1: Net, l1: seq<Event>, n2: Net, l2: seq<Event>)
    requires WellFormed(n0) && WellFormed(n1)
    requires Span(actor, n0, l0, x, n1, l1) && Span(actor, n1, l1, [], n2, l2)
    ensures Span(actor, n0, l0, x, n2, l2)
  {
    hide Span, WellFormed;
    SpanConcat(actor, n0, l0, x, n1, l1, [], n2, l2);
    assert x + [] == x;
  }

  /** The first call follows some reading. */
  lemma ReadsThenSpan(actor: string, n0: Net, l0: seq<Event>, n1: Net, l1: seq<Event>, x: seq<Call>, n2: Net, l2: seq<Event>)
    requires WellFormed(n0) && WellFormed(n1)
    requires Span(actor, n0, l0, [], n1, l1) && Span(actor, n1, l1, x, n2, l2)
    ensures Span(actor, n0, l0, x, n2, l2)
  {
    hide Span, WellFormed;
    SpanConcat(actor, n0, l0, [], n1, l1, x, n2, l2);
    assert [] + x == x;
  }

  lemma SpanNothing(actor: string, n: Net, l: seq<Event>)
    requires WellFormed(n)
    ensures Span(actor, n, l, [], n, l)
  {
    LaterIsReflexive(n);
    SpanReads(actor, n, l, n);
  }

  lemma ReadsKeepLog(actor: string, n1: Net, l1: seq<Event>, n: Net, l: seq<Event>)
    requires Span(actor, n1, l1, [], n, l)
    ensures l == l1
  {
  }

  lemma SpanKeepsPrefix(actor: string, n1: Net, l1: seq<Event>, calls: seq<Call>, n: Net, l: seq<Event>)
    requires Span(actor, n1, l1, calls, n, l)
    ensures |l| == |l1| + |calls| && forall i | 0 <= i < |l1| :: l[i] == l1[i]
  {
    assert l[..|l1|] == l1;
  }

  /** Listeners that are still there have kept their names, load balancers, VIPs and makers, VIPs their load balancers, subnets and
      addresses, and load balancers their places; nothing is given out twice. */
  predicate NamesLater(a: Net, b: Net) {
    && a.issued <= b.issued && a.seats <= b.seats && b.namespace == a.namespace
    && (forall id | id in b.lbs && id in a.issued ::
          && id in a.lbs && b.lbs[id].networkID == a.lbs[id].networkID && b.lbs[id].vpcID == a.lbs[id].vpcID
          && b.lbs[id].region == a.lbs[id].region)
    && (forall id | id in b.vips && id in a.issued ::
          && id in a.vips && b.vips[id].lb == a.vips[id].lb && b.vips[id].networkID == a.vips[id].networkID
          && b.vips[id].address == a.vips[id].address)
    && forall id | id in b.listeners && id in a.issued ::
         && id in a.listeners && b.listeners[id].name == a.listeners[id].name
         && b.listeners[id].lb == a.listeners[id].lb && b.listeners[id].vip == a.listeners[id].vip
         && b.listeners[id].maker == a.listeners[id].maker
  }

  lemma SpanKeepsNames(actor: string, n0: Net, l0: seq<Event>, calls: seq<Call>, n: Net, l: seq<Event>)
    requires Span(actor, n0, l0, calls, n, l)
    ensures NamesLater(n0, n)
  {
  }

  lemma SpanAddsNoVIPs(actor: string, n0: Net, l0: seq<Event>, calls: seq<Call>, n: Net, l: seq<Event>)
    requires Span(actor, n0, l0, calls, n, l) && forall i | 0 <= i < |calls| :: !calls[i].CreateVIP?
    ensures n.vips.Keys <= n0.vips.Keys
  {
  }

  // ----- Parents that stay -----

  /** The load balancer can be read, and nobody has asked for its deletion. */
  predicate Lasting(n: Net, lb: Id) {
    lb in n.lbs && n.lbs[lb].readable && n.lbs[lb].status != DELETING
  }

  /** So it is with the VIP, which is listed in the subnet. */
  predicate LastingVIP(n: Net, lb: Id, subnet: string, vip: Id) {
    && Lasting(n, lb) && vip in n.vips && n.vips[vip].lb == lb && n.vips[vip].networkID in {"", subnet} && n.vips[vip].status != DELETING
  }

  /** What lasted on the load balancer does so still. */
  ghost predicate StillThere(n0: Net, n: Net, lb: Id) {
    && (Lasting(n0, lb) ==> Lasting(n, lb) && n.lbs[lb].networkID == n0.lbs[lb].networkID)
    && (forall subnet, vip | LastingVIP(n0, lb, subnet, vip) :: LastingVIP(n, lb, subnet, vip))
  }

  lemma ReadsLeaveParents(actor: string, n0: Net, l0: seq<Event>, n: Net, l: seq<Event>, lb: Id)
    requires WellFormed(n0) && WellFormed(n) && Span(actor, n0, l0, [], n, l)
    ensures StillThere(n0, n, lb)
  {
  }

  lemma WritesLeaveParents(n: Net, m: Net, lb: Id)
    requires m == n.(services := m.services)
    ensures StillThere(n, m, lb)
  {
  }

  lemma StillThereChains(a: Net, b: Net, c: Net, lb: Id)
    requires StillThere(a, b, lb) && StillThere(b, c, lb)
    ensures StillThere(a, c, lb)
  {
    hide LastingVIP, Lasting;
  }

  lemma StillLasting(n0: Net, n: Net, lb: Id)
    requires StillThere(n0, n, lb)
    ensures Lasting(n0, lb) ==> Lasting(n, lb)
    ensures forall subnet, vip :: LastingVIP(n0, lb, subnet, vip) ==> LastingVIP(n, lb, subnet, vip)
  {
    hide Lasting, LastingVIP;
  }

  /** Since `l0` no load balancer was created. */
  ghost predicate MakesNoLB(l0: seq<Event>, l: seq<Event>) {
    |l0| <= |l| && l[..|l0|] == l0 && forall i | |l0| <= i < |l| :: !l[i].call.CreateLB?
  }

  ghost predicate MakesNoVIP(l0: seq<Event>, l: seq<Event>) {
    |l0| <= |l| && l[..|l0|] == l0 && forall i | |l0| <= i < |l| :: !l[i].call.CreateVIP?
  }

  lemma MakesNoneOn(l0: seq<Event>, l1: seq<Event>, l: seq<Event>)
    ensures MakesNoLB(l0, l1) && MakesNoLB(l1, l) ==> MakesNoLB(l0, l)
    ensures MakesNoVIP(l0, l1) && MakesNoVIP(l1, l) ==> MakesNoVIP(l0, l)
  {
    if |l0| <= |l1| <= |l| && l1[..|l0|] == l0 && l[..|l1|] == l1 {
      assert l[..|l0|] == l[..|l1|][..|l0|];
      assert forall i | |l0| <= i < |l1| :: l[i] == l[..|l1|][i];
    }
  }

  lemma MakesNothing(l: seq<Event>)
    ensures MakesNoLB(l, l) && MakesNoVIP(l, l)
  {
  }

  lemma SpanMakesNone(actor: string, n0: Net, l0: seq<Event>, calls: seq<Call>, n: Net, l: seq<Event>)
    requires Span(actor, n0, l0, calls, n, l)
    ensures (forall i | 0 <= i < |calls| :: !calls[i].CreateLB?) ==> MakesNoLB(l0, l)
    ensures (forall i | 0 <= i < |calls| :: !calls[i].CreateVIP?) ==> MakesNoVIP(l0, l)
  {
  }

  lemma SpanAddsNoListeners(actor: string, n0: Net, l0: seq<Event>, calls: seq<Call>, n: Net, l: seq<Event>)
    requires Span(actor, n0, l0, calls, n, l) && forall i | 0 <= i < |calls| :: !calls[i].CreateListener?
    ensures n.listeners.Keys <= n0.listeners.Keys
  {
  }

  /** A pass that creates listeners on one VIP only, and no further VIP, goes on respecting the VIP its Service is on. */
  lemma KeepsVIPStays(actor: string, n0: Net, l0: seq<Event>, calls: seq<Call>, n: Net, l: seq<Event>, lb: Id, vip: Id, front: Frontend)
    requires WellFormed(n0) && WellFormed(n) && Span(actor, n0, l0, calls, n, l) && KeepsVIP(n0, actor, lb, vip, front)
    requires forall i | 0 <= i < |calls| :: !calls[i].CreateVIP? && (calls[i].CreateListener? ==> calls[i].vip == vip)
    ensures KeepsVIP(n, actor, lb, vip, front)
  {
    hide OnlyOn, Span, WellFormed, Listed, CarriesOne;
    SpanKeepsServices(actor, n0, l0, calls, n, l);
    SpanKeepsSeats(actor, n0, l0, calls, n, l);
    forall w | OnlyOn(n, lb, front.names, w) && Listed(n, lb, front.subnet, w) && Pinned(n, actor, lb, front.names, w) ensures vip == w {
      SeatsDecide(n0, n, lb, front.names, w);
      ListedBefore(actor, n0, l0, calls, n, l, lb, front.subnet, w);
      if Carries(n, actor, lb, front.names) {
        var id :| id in n.listeners && CarriesOne(n, lb, front.names, n.services[actor].uid, id);
        CarriedOrMade(actor, n0, l0, calls, n, l, lb, vip, front.names, n.services[actor].uid, id);
        if n.listeners[id].vip == vip {
          SeatTells(n, lb, front.names, n.services[actor].uid, w, id);
        }
      }
    }
  }

  lemma SpanKeepsSeats(actor: string, n0: Net, l0: seq<Event>, calls: seq<Call>, n: Net, l: seq<Event>)
    requires Span(actor, n0, l0, calls, n, l)
    ensures n0.seats <= n.seats
  {
  }

  /** What is listed later was listed before, if no VIP is created in between. */
  lemma ListedBefore(actor: string, n0: Net, l0: seq<Event>, calls: seq<Call>, n: Net, l: seq<Event>, lb: Id, subnet: string, w: Id)
    requires WellFormed(n0) && Span(actor, n0, l0, calls, n, l) && Listed(n, lb, subnet, w)
    requires w in n0.issued || forall i | 0 <= i < |calls| :: !calls[i].CreateVIP?
    ensures Listed(n0, lb, subnet, w)
  {
  }

  lemma CarriedOrMade(actor: string, n0: Net, l0: seq<Event>, calls: seq<Call>, n: Net, l: seq<Event>, lb: Id, vip: Id, names: set<string>,
                      maker: Uid, id: Id)
    requires WellFormed(n0) && Span(actor, n0, l0, calls, n, l) && CarriesOne(n, lb, names, maker, id)
    requires forall i | 0 <= i < |calls| && calls[i].CreateListener? :: calls[i].vip == vip
    ensures id in n.listeners
    ensures (id in n0.listeners && CarriesOne(n0, lb, names, maker, id)) || n.listeners[id].vip == vip
  {
    if id !in n0.listeners {
      assert MadeByOne(n.listeners[id], calls);
    }
  }

  lemma SeatTells(n: Net, lb: Id, names: set<string>, maker: Uid, w: Id, id: Id)
    requires WellFormed(n) && OnlyOn(n, lb, names, w) && id in n.listeners && CarriesOne(n, lb, names, maker, id)
    ensures n.listeners[id].vip == w
  {
    assert SeatOf(n.listeners[id]) in n.seats;
  }

  lemma NamesLaterChains(a: Net, b: Net, c: Net)
    requires NamesLater(a, b) && NamesLater(b, c)
    ensures NamesLater(a, c)
  {
  }
}
