/** VirtualServerManager (pkg/deploy/lbaas/virtual_server_manager.go) with recovery by name on. */
module VirtualServers {
  import opened Common
  import opened Model
  import opened Cluster
  import opened Text
  import opened Protocol
  import opened Safety
  import opened Progress
  import opened Provider

  /** `reachable` stands for the compute lookups of all backends succeeding; `front` only serves to state the guard of a
      creation. */
  datatype Request = Request(
    lb: Id, vip: Id, desired: VirtualServer, reachable: bool, currentID: Id, currentHash: string, desiredHash: string,
    recreateWhenHashMissing: bool, front: Frontend)

  datatype Ensured = Ensured(id: Id, name: string, changed: bool)

  /** validateVirtualServer */
  function Validate(v: VSInfo, vip: Id, desired: VirtualServer): Option<Problem> {
    if v.vip != NO_ID && v.vip != vip then Some(Refused)
    else if v.port != 0 && v.port != desired.frontendPort then Some(Refused)
    else if v.protocol != "" && !EqualFold(v.protocol, desired.protocol) then Some(Refused)
    else if Lower(v.status) in {"active", "created", "ready", "available", "online"} then None
    else if Lower(v.status) in {"failed", "error", "errored"} then Some(Terminal(VirtualServerKind, v.id))
    else Some(Pending(VirtualServerKind, v.id))
  }

  // What the verdict means for a listener as the provider has it.

  predicate IsUp(status: string) {
    Lower(status) in {"active", "created", "ready", "available", "online"}
  }

  predicate IsDown(status: string) {
    Lower(status) in {"failed", "error", "errored"}
  }

  /** The listener answers on the desired frontend, as far as the provider says. */
  predicate OnFrontend(l: Listener, vip: Id, desired: VirtualServer) {
    && (l.vip == NO_ID || l.vip == vip) && (l.port == 0 || l.port == desired.frontendPort)
    && (l.protocol == "" || EqualFold(l.protocol, desired.protocol))
  }

  lemma ValidateMeans(n: Net, id: Id, vip: Id, desired: VirtualServer)
    requires id in n.listeners
    ensures var l, v := n.listeners[id], Validate(VSDetail(n, id), vip, desired);
            && (v == None <==> OnFrontend(l, vip, desired) && IsUp(l.status))
            && (v == Some(Terminal(VirtualServerKind, id)) <==> OnFrontend(l, vip, desired) && IsDown(l.status))
            && (v == Some(Pending(VirtualServerKind, id)) <==> OnFrontend(l, vip, desired) && !IsUp(l.status) && !IsDown(l.status))
            && (v == Some(Refused) <==> !OnFrontend(l, vip, desired))
  {
    hide Lower, EqualFold;
  }

  lemma ProblemsNameTheListener(v: VSInfo, vip: Id, desired: VirtualServer)
    requires Validate(v, vip, desired).Some?
    ensures Validate(v, vip, desired).value in {Refused, Terminal(VirtualServerKind, v.id), Pending(VirtualServerKind, v.id)}
  {
    hide Lower, EqualFold;
  }

  /** findUniqueVirtualServerByName */
  method FindUnique(list: seq<VSInfo>, name: string) returns (r: Option<Id>)
    requires forall i | 0 <= i < |list| :: list[i].id != NO_ID
    ensures name != "" && r == Some(NO_ID) ==> forall i | 0 <= i < |list| :: list[i].name != name
    ensures r.Some? && r.value != NO_ID ==>
              exists i :: 0 <= i < |list| && list[i].name == name && list[i].id == r.value
                          && forall j | 0 <= j < |list| && list[j].name == name :: j == i
    ensures r.None? ==> exists i, j :: 0 <= i < j < |list| && list[i].name == name && list[j].name == name
  {
    if name == "" {
      return Some(NO_ID);
    }
    var found := NO_ID;
    ghost var at := 0;
    for i := 0 to |list|
      invariant found == NO_ID <==> forall j | 0 <= j < i :: list[j].name != name
      invariant found != NO_ID ==> at < i && list[at].name == name && list[at].id == found
      invariant forall j | 0 <= j < i && list[j].name == name :: j == at
    {
      if list[i].name == name {
        if found != NO_ID {
          assert list[at].name == name && list[i].name == name;
          return None;
        }
        found, at := list[i].id, i;
      }
    }
    r := Some(found);
  }

  function Creation(req: Request): Call {
    CreateListener(req.lb, req.desired.name, req.vip, req.desired.protocol, req.desired.frontendPort, req.front)
  }

  /** The listener cannot collide with the desired frontend. */
  predicate Clear(n: Net, id: Id, req: Request) {
    id in n.listeners ==> !SameFrontend(n.listeners[id], req.lb, req.vip, req.desired.protocol, req.desired.frontendPort)
  }

  lemma SummaryClears(n: Net, s: VSInfo, req: Request)
    requires Summary(n, s)
    requires (s.port != 0 && s.port != req.desired.frontendPort)
             || (s.protocol != "" && !EqualFold(s.protocol, req.desired.protocol))
    ensures Clear(n, s.id, req)
  {
    hide Lower;
  }

  lemma DetailClears(n: Net, id: Id, req: Request)
    requires id in n.listeners
    requires var d := VSDetail(n, id);
             !(d.vip == req.vip && d.port == req.desired.frontendPort && EqualFold(d.protocol, req.desired.protocol))
    ensures Clear(n, id, req)
  {
    hide Lower;
  }

  lemma ClearStays(actor: string, n0: Net, l0: seq<Event>, n: Net, l: seq<Event>, id: Id, req: Request)
    requires WellFormed(n0) && Span(actor, n0, l0, [], n, l) && id in n0.issued && Clear(n0, id, req)
    ensures Clear(n, id, req)
  {
    hide EqualFold;
  }

  /** The other listeners of the load balancer can be read, and none holds the frontend. */
  predicate Unobstructed(n: Net, req: Request) {
    forall id | id in n.listeners && n.listeners[id].lb == req.lb && id != req.currentID && n.listeners[id].name != req.desired.name ::
      n.listeners[id].readable && Clear(n, id, req)
  }

  lemma UnobstructedReads(n: Net, req: Request, s: VSInfo)
    requires Unobstructed(n, req) && Summary(n, s) && n.listeners[s.id].lb == req.lb && s.id != req.currentID && s.name != req.desired.name
    ensures n.listeners[s.id].readable
    ensures var d := VSDetail(n, s.id); !(d.vip == req.vip && d.port == req.desired.frontendPort && EqualFold(d.protocol, req.desired.protocol))
  {
    hide EqualFold;
  }

  /** The first loop of Ensure: nobody else's listener holds the frontend. */
  method CheckConflicts(c: Client, req: Request, listed: seq<VSInfo>, ghost n1: Net)
    returns (r: Result<(), Problem>)
    requires c.Valid() && ListsListeners(c.net, req.lb, listed) && n1 == c.net
    modifies c`net, c`faults
    ensures c.Valid() && c.Only(old(c.net), old(c.log)) && c.faults <= old(c.faults)
    ensures r.Ok? ==> forall i | 0 <= i < |listed| && listed[i].id != req.currentID && listed[i].name != req.desired.name ::
                        Clear(c.net, listed[i].id, req)
    ensures r.Err? ==> r.error == Refused || r.error.CallFailed?
    ensures c.quiet && old(c.faults) == 0 && Unobstructed(n1, req) ==> r.Ok?
  {
    hide Inv, Run, Span, WellFormed, Unique, Clear, SameFrontend, EqualFold, Unobstructed;
    InvIsWellFormed(c.naming, c.net);
    ghost var l0 := c.log;
    SpanNothing(c.actor, n1, l0);
    ListedAreIssued(n1, req.lb, listed);
    for i := 0 to |listed|
      invariant c.Valid() && c.Only(n1, l0) && c.faults <= old(c.faults)
      invariant n1.issued <= c.net.issued
      invariant forall j | 0 <= j < i && listed[j].id != req.currentID && listed[j].name != req.desired.name ::
          Clear(c.net, listed[j].id, req)
    {
      var listener := listed[i];
      if listener.id == req.currentID || listener.name == req.desired.name {
        continue;
      }
      if listener.port != 0 && listener.port != req.desired.frontendPort {
        SummaryClears(n1, listener, req);
        ClearStays(c.actor, n1, l0, c.net, c.log, listener.id, req);
        continue;
      }
      if listener.protocol != "" && !EqualFold(listener.protocol, req.desired.protocol) {
        SummaryClears(n1, listener, req);
        ClearStays(c.actor, n1, l0, c.net, c.log, listener.id, req);
        continue;
      }
      ghost var n2, l2 := c.net, c.log;
      InvIsWellFormed(c.naming, n2);
      if Unobstructed(n1, req) {
        UnobstructedReads(n1, req, listener);
      }
      var detail := c.GetVirtualServer(req.lb, listener.id);
      SpanThenReads(c.actor, n1, l0, [], n2, l2, c.net, c.log);
      SpanKeepsServices(c.actor, n2, l2, [], c.net, c.log);
      forall j | 0 <= j < i && listed[j].id != req.currentID && listed[j].name != req.desired.name
        ensures Clear(c.net, listed[j].id, req)
      {
        ClearStays(c.actor, n2, l2, c.net, c.log, listed[j].id, req);
      }
      if detail.Err? {
        return Err(CallFailed(detail.error));
      }
      if detail.value.vip == req.vip && detail.value.port == req.desired.frontendPort
         && EqualFold(detail.value.protocol, req.desired.protocol) {
        return Err(Refused);
      }
      DetailClears(c.net, listener.id, req);
    }
    return Ok(());
  }

  lemma ListedAreIssued(n: Net, lb: Id, listed: seq<VSInfo>)
    requires WellFormed(n) && ListsListeners(n, lb, listed)
    ensures forall i | 0 <= i < |listed| :: listed[i].id in n.issued && listed[i].id != NO_ID
  {
  }

  ghost predicate OwnsNameOf(nm: Naming, n: Net, name: string, lb: Id, id: Id) {
    id in n.listeners && n.listeners[id].lb == lb ==> OwnName(nm, name, n.listeners[id].name)
  }

  lemma OwnsNameStays(nm: Naming, actor: string, n0: Net, l0: seq<Event>, n: Net, l: seq<Event>, lb: Id, id: Id)
    requires WellFormed(n0) && Span(actor, n0, l0, [], n, l) && OwnsNameOf(nm, n0, actor, lb, id)
    ensures OwnsNameOf(nm, n, actor, lb, id)
  {
    hide OwnName;
  }

  /** What is not on a complete list is not there, now or later in the pass. */
  lemma UnlistedIsFree(actor: string, n1: Net, l1: seq<Event>, n: Net, l: seq<Event>, req: Request, listed: seq<VSInfo>)
    requires WellFormed(n1) && Span(actor, n1, l1, [], n, l) && ListsListeners(n1, req.lb, listed)
    requires forall i | 0 <= i < |listed| :: listed[i].id != req.currentID
    requires forall i | 0 <= i < |listed| :: listed[i].name != req.desired.name && Clear(n, listed[i].id, req)
    ensures Absent(n, req.lb, req.currentID) && ListenerNameFree(n, req.lb, req.desired.name)
    ensures FrontendFree(n, req.lb, req.vip, req.desired.protocol, req.desired.frontendPort)
  {
    hide EqualFold;
    forall id | id in n.listeners && n.listeners[id].lb == req.lb
      ensures id in n1.listeners && n1.listeners[id].lb == req.lb && n.listeners[id].name == n1.listeners[id].name
              && Clear(n, id, req) && n.listeners[id].name != req.desired.name && id != req.currentID
    {
      var i :| 0 <= i < |listed| && listed[i].id == id;
    }
  }

  predicate Absent(n: Net, lb: Id, id: Id) {
    id in n.listeners ==> n.listeners[id].lb != lb
  }

  /** Both deletions of Ensure: they end the pass, which waits for the provider before it creates a replacement. */
  method DeleteAndWait(c: Client, lb: Id, id: Id) returns (r: Result<Ensured, Problem>)
    requires c.Valid() && c.actor in c.net.services && OwnsNameOf(c.naming, c.net, c.actor, lb, id)
    modifies c
    ensures c.Valid() && c.faults <= old(c.faults)
    ensures Span(c.actor, old(c.net), old(c.log), [DeleteListener(lb, id)], c.net, c.log)
    ensures r.Err? && (r.error.CallFailed? || r.error == Pending(VirtualServerKind, id))
    ensures old(c.faults) == 0 ==> r.error == Pending(VirtualServerKind, id)
  {
    hide Inv, Run, Span, OwnName;
    var deleted := c.DeleteVirtualServer(lb, id);
    if deleted.Err? && deleted.error != NotFound {
      return Err(CallFailed(deleted.error));
    }
    return Err(Pending(VirtualServerKind, id));
  }

  /** The listener answers on the desired frontend and is ready. */
  predicate Serves(n: Net, req: Request, id: Id) {
    && id in n.listeners && n.listeners[id].lb == req.lb && n.listeners[id].readable
    && OnFrontend(n.listeners[id], req.vip, req.desired) && IsUp(n.listeners[id].status)
  }

  /** Nothing is to be done: the recorded listener serves, and it was made for this very configuration. */
  predicate Rests(n: Net, req: Request) {
    req.currentID != NO_ID && Serves(n, req, req.currentID) && req.currentHash == req.desiredHash != ""
  }

  predicate Deletes(req: Request, call: Call) {
    call.DeleteListener? && call.lb == req.lb
  }

  /** The listener is there and reads as failed on the desired frontend. */
  predicate Broken(n: Net, req: Request, id: Id) {
    && id in n.listeners && n.listeners[id].lb == req.lb && n.listeners[id].readable
    && OnFrontend(n.listeners[id], req.vip, req.desired) && IsDown(n.listeners[id].status)
  }

  /** The listener serves, but was made for another configuration, as far as its digest tells. */
  predicate Outdated(n: Net, req: Request, id: Id) {
    && Serves(n, req, id)
    && if req.currentHash != "" then req.currentHash != req.desiredHash else req.recreateWhenHashMissing && id == req.currentID
  }

  /** During the pass so far, this listener was seen to be in need of replacement. */
  ghost predicate SeenBad(actor: string, n0: Net, l0: seq<Event>, req: Request, id: Id) {
    exists seen :: Span(actor, n0, l0, [], seen, l0) && (Broken(seen, req, id) || Outdated(seen, req, id))
  }

  lemma SeenBadLater(actor: string, n0: Net, l0: seq<Event>, n1: Net, req: Request, id: Id)
    requires WellFormed(n0) && WellFormed(n1) && Span(actor, n0, l0, [], n1, l0) && SeenBad(actor, n1, l0, req, id)
    ensures SeenBad(actor, n0, l0, req, id)
  {
    hide Span, WellFormed, Broken, Outdated;
    var seen :| Span(actor, n1, l0, [], seen, l0) && (Broken(seen, req, id) || Outdated(seen, req, id));
    ReadsThenSpan(actor, n0, l0, n1, l0, [], seen, l0);
  }

  /** What Ensure deletes: the recorded listener or the one of the desired name, seen to be failed or outdated; or the one it has
      just created, if that one fails at once. */
  ghost predicate DeletesOnlyBad(actor: string, n0: Net, l0: seq<Event>, req: Request, calls: seq<Call>) {
    && (|calls| == 1 && calls[0].DeleteListener? ==>
          && SeenBad(actor, n0, l0, req, calls[0].listener)
          && (calls[0].listener == req.currentID || IsNamed(n0, calls[0].listener, req.desired.name)))
    && (|calls| == 2 && calls[1].DeleteListener? ==> calls[1].listener !in n0.issued)
  }

  /** The tail of Ensure: create the listener and wait for it. One that fails at once is deleted again. */
  method CreateAndCheck(c: Client, req: Request) returns (r: Result<Ensured, Problem>, ghost calls: seq<Call>)
    requires c.Valid() && ControllerGuard(c.naming, c.net, c.actor, Creation(req))
    modifies c
    ensures c.Valid() && c.faults <= old(c.faults) && Span(c.actor, old(c.net), old(c.log), calls, c.net, c.log)
    ensures if !req.reachable then calls == []
            else calls == [Creation(req)]
                 || (|calls| == 2 && calls[0] == Creation(req) && Deletes(req, calls[1]) && calls[1].listener !in old(c.net).issued)
    ensures calls != [] ==> Span(c.actor, old(c.net), old(c.log), [], c.log[|old(c.log)|].pre, old(c.log))
    ensures match r
            case Ok(e) => calls == [Creation(req)] && Serves(c.net, req, e.id) && e.name == req.desired.name && e.changed
                          && e.id !in old(c.net).issued && IsNamed(c.net, e.id, req.desired.name)
            case Err(Pending(k, id)) => k == VirtualServerKind
            case Err(e) => e == Refused || e.CallFailed?
  {
    hide Inv, Run, Span, WellFormed, Unique, ControllerGuard, Validate, OwnName;
    ghost var n0, l0 := c.net, c.log;
    calls := [];
    InvIsWellFormed(c.naming, n0);
    SpanNothing(c.actor, n0, l0);
    if !req.reachable {
      return Err(Refused), calls;
    }
    CreationOwnsName(c.naming, n0, c.actor, req);
    var made := c.CreateVirtualServer(req.lb, req.desired.name, req.vip, req.desired.protocol, req.desired.frontendPort, req.front);
    calls := [Creation(req)];
    if made.Err? {
      return Err(CallFailed(made.error)), calls;
    }
    ghost var n1, l1 := c.net, c.log;
    InvIsWellFormed(c.naming, n1);
    CreatedIsNamed(c.naming, l1[|l0|].pre, n1, c.actor, req, made.value);
    SpanKeepsServices(c.actor, n0, l0, [], l1[|l0|].pre, l0);
    var got := c.GetVirtualServer(req.lb, made.value);
    SpanThenReads(c.actor, n0, l0, calls, n1, l1, c.net, c.log);
    ReadsKeepLog(c.actor, n1, l1, c.net, c.log);
    IsNamedStays(c.actor, n1, l1, c.net, c.log, made.value, req.desired.name);
    if got.Err? {
      return Err(if got.error == NotFound then Pending(VirtualServerKind, made.value) else CallFailed(got.error)), calls;
    }
    ValidateMeans(c.net, made.value, req.vip, req.desired);
    var bad := Validate(got.value, req.vip, req.desired);
    if bad == None {
      return Ok(Ensured(made.value, req.desired.name, true)), calls;
    }
    ProblemsNameTheListener(got.value, req.vip, req.desired);
    if !bad.value.Terminal? {
      return Err(bad.value), calls;
    }
    ghost var n2, l2 := c.net, c.log;
    InvIsWellFormed(c.naming, n2);
    SpanKeepsServices(c.actor, n0, l0, calls, n2, l2);
    OwnsNameStays(c.naming, c.actor, n1, l1, n2, l2, req.lb, made.value);
    r := DeleteAndWait(c, req.lb, got.value.id);
    SpanConcat(c.actor, n0, l0, calls, n2, l2, [DeleteListener(req.lb, made.value)], c.net, c.log);
    calls := calls + [DeleteListener(req.lb, made.value)];
    SpanKeepsPrefix(c.actor, n2, l2, [DeleteListener(req.lb, made.value)], c.net, c.log);
  }

  lemma CreationOwnsName(nm: Naming, n: Net, name: string, req: Request)
    requires ControllerGuard(nm, n, name, Creation(req))
    ensures name in n.services && OwnName(nm, name, req.desired.name)
  {
  }

  lemma CreatedIsNamed(nm: Naming, n: Net, m: Net, name: string, req: Request, id: Id)
    requires name in m.services && CreatesListener(n, m, m.services[name].uid, Creation(req), id)
    requires OwnName(nm, name, req.desired.name)
    ensures OwnsNameOf(nm, m, name, req.lb, id) && id !in n.issued && IsNamed(m, id, req.desired.name)
  {
  }

  /** What Ensure keeps: the recorded listener, or the one that recovery by name has found. */
  predicate Keeps(n: Net, req: Request, e: Ensured) {
    && Serves(n, req, e.id) && e.name == req.desired.name && !e.changed
    && (e.id == req.currentID || n.listeners[e.id].name == req.desired.name)
    && (req.currentHash == req.desiredHash
        || (req.currentHash == "" && (!req.recreateWhenHashMissing || n.listeners[e.id].name == req.desired.name)))
  }

  /** A creation is only issued while neither the recorded id nor the desired name is on the load balancer. */
  ghost predicate CreatesAfterBothGone(req: Request, calls: seq<Call>, pre: Net) {
    calls != [] && calls[0].CreateListener? ==>
      Absent(pre, req.lb, req.currentID) && ListenerNameFree(pre, req.lb, req.desired.name)
  }

  /** Nothing, a creation, a creation whose result failed and is deleted, or one deletion. Never a creation after a
      deletion. */
  predicate AllowedCalls(req: Request, calls: seq<Call>) {
    || calls == [] || calls == [Creation(req)]
    || (|calls| == 2 && calls[0] == Creation(req) && Deletes(req, calls[1]))
    || (|calls| == 1 && Deletes(req, calls[0]))
  }

  /** The recorded or recovered listener is inspected: a failed one is deleted, one that is not ready ends the pass. */
  method Inspect(c: Client, req: Request, id: Id) returns (r: Option<Problem>, ghost calls: seq<Call>)
    requires c.Valid() && c.actor in c.net.services && OwnsNameOf(c.naming, c.net, c.actor, req.lb, id)
    modifies c
    ensures c.Valid() && c.faults <= old(c.faults) && Span(c.actor, old(c.net), old(c.log), calls, c.net, c.log)
    ensures calls == [] || (calls == [DeleteListener(req.lb, id)] && r.Some? && SeenBad(c.actor, old(c.net), old(c.log), req, id))
    ensures match r
            case None => Serves(c.net, req, id)
            case Some(Pending(k, pid)) => k == VirtualServerKind
            case Some(e) => e == Refused || e.CallFailed?
    ensures c.quiet && old(c.faults) == 0 && old(IsReadable(c.net, req.lb, id)) ==> Inspected(old(c.net).listeners[id], req, id, r, calls)
    ensures c.quiet && old(Serves(c.net, req, id)) ==> calls == [] && c.net == old(c.net) && (old(c.faults) == 0 ==> r.None?)
  {
    hide Inv, Run, Span, WellFormed, Unique, Validate, OwnName;
    ghost var n0, l0 := c.net, c.log;
    calls := [];
    InvIsWellFormed(c.naming, n0);
    var got := c.GetVirtualServer(req.lb, id);
    ghost var n1, l1 := c.net, c.log;
    InvIsWellFormed(c.naming, n1);
    if got.Err? {
      return Some(CallFailed(got.error)), calls;
    }
    ValidateMeans(n1, id, req.vip, req.desired);
    var bad := Validate(got.value, req.vip, req.desired);
    if bad == None {
      return None, calls;
    }
    ProblemsNameTheListener(got.value, req.vip, req.desired);
    if !bad.value.Terminal? {
      return bad, calls;
    }
    SpanKeepsServices(c.actor, n0, l0, [], n1, l1);
    OwnsNameStays(c.naming, c.actor, n0, l0, n1, l1, req.lb, id);
    ReadsKeepLog(c.actor, n0, l0, n1, l1);
    assert Broken(n1, req, id);
    var ended := DeleteAndWait(c, req.lb, id);
    calls := [DeleteListener(req.lb, id)];
    ReadsThenSpan(c.actor, n0, l0, n1, l1, calls, c.net, c.log);
    return Some(ended.error), calls;
  }

  lemma NamedIsOwned(nm: Naming, actor: string, n1: Net, l1: seq<Event>, n2: Net, l2: seq<Event>, req: Request,
                     listed: seq<VSInfo>, id: Id)
    requires WellFormed(n1) && Span(actor, n1, l1, [], n2, l2) && ListsListeners(n1, req.lb, listed)
    requires OwnName(nm, actor, req.desired.name)
    requires exists i :: 0 <= i < |listed| && listed[i].id == id && listed[i].name == req.desired.name
    ensures OwnsNameOf(nm, n2, actor, req.lb, id) && IsNamed(n2, id, req.desired.name)
  {
  }

  lemma NamedBefore(actor: string, n0: Net, l0: seq<Event>, n1: Net, req: Request, listed: seq<VSInfo>, id: Id)
    requires WellFormed(n0) && Span(actor, n0, l0, [], n1, l0) && ListsListeners(n1, req.lb, listed)
    requires exists i :: 0 <= i < |listed| && listed[i].id == id && listed[i].name == req.desired.name
    ensures IsNamed(n0, id, req.desired.name)
  {
    var i :| 0 <= i < |listed| && listed[i].id == id && listed[i].name == req.desired.name;
    assert Summary(n1, listed[i]);
  }

  predicate IsNamed(n: Net, id: Id, name: string) {
    id in n.listeners ==> n.listeners[id].name == name
  }

  lemma IsNamedStays(actor: string, n1: Net, l1: seq<Event>, n2: Net, l2: seq<Event>, id: Id, name: string)
    requires WellFormed(n1) && Span(actor, n1, l1, [], n2, l2) && IsNamed(n1, id, name)
    ensures IsNamed(n2, id, name)
  {
  }

  lemma AbsentStays(actor: string, n1: Net, l1: seq<Event>, n2: Net, l2: seq<Event>, req: Request)
    requires WellFormed(n1) && Span(actor, n1, l1, [], n2, l2)
    requires Absent(n1, req.lb, req.currentID) && ListenerNameFree(n1, req.lb, req.desired.name)
    ensures Absent(n2, req.lb, req.currentID) && ListenerNameFree(n2, req.lb, req.desired.name)
  {
  }

  datatype Located = Located(id: Id, adopted: bool)

  /** The listener that Ensure is about: the recorded one, or else the one of the desired name. */
  predicate Means(n: Net, req: Request, id: Id) {
    && id in n.listeners && n.listeners[id].lb == req.lb
    && (id == req.currentID || (Absent(n, req.lb, req.currentID) && n.listeners[id].name == req.desired.name))
  }

  /** It was made for another configuration, as far as the recorded digest tells. */
  predicate IsStale(req: Request, adopted: bool) {
    if req.currentHash != "" then req.currentHash != req.desiredHash else req.recreateWhenHashMissing && !adopted
  }

  predicate IsReadable(n: Net, lb: Id, id: Id) {
    id in n.listeners && n.listeners[id].lb == lb && n.listeners[id].readable
  }

  /** The part of it that asks for the status only. */
  predicate Inspected(l: Listener, req: Request, id: Id, r: Option<Problem>, calls: seq<Call>) {
    if !OnFrontend(l, req.vip, req.desired) then r == Some(Refused) && calls == []
    else if IsDown(l.status) then r == Some(Pending(VirtualServerKind, id)) && calls == [DeleteListener(req.lb, id)]
    else if IsUp(l.status) then r == None && calls == []
    else r == Some(Pending(VirtualServerKind, id)) && calls == []
  }

  /** What a run does with that listener, if nothing gets in its way: one on another frontend is refused; one that failed, or serves
      another configuration, is deleted, for a replacement by a later run; one that serves is kept; and any other is waited for. */
  predicate Answers(l: Listener, req: Request, id: Id, r: Result<Ensured, Problem>, calls: seq<Call>) {
    if !OnFrontend(l, req.vip, req.desired) then r == Err(Refused) && calls == []
    else if IsDown(l.status) || (IsUp(l.status) && IsStale(req, id != req.currentID)) then
      r == Err(Pending(VirtualServerKind, id)) && calls == [DeleteListener(req.lb, id)]
    else if IsUp(l.status) then r == Ok(Ensured(id, req.desired.name, false)) && calls == []
    else r == Err(Pending(VirtualServerKind, id)) && calls == []
  }

  lemma MeantIsListed(n: Net, req: Request, id: Id, listed: seq<VSInfo>)
    requires WellFormed(n) && Means(n, req, id) && ListsListeners(n, req.lb, listed)
    ensures id != NO_ID
    ensures id == req.currentID ==> exists i :: 0 <= i < |listed| && listed[i].id == req.currentID
    ensures id != req.currentID ==>
              && (forall i | 0 <= i < |listed| :: listed[i].id != req.currentID)
              && exists i :: 0 <= i < |listed| && listed[i].name == req.desired.name && listed[i].id == id
  {
    var i :| 0 <= i < |listed| && listed[i].id == id;
    assert Summary(n, listed[i]);
  }

  lemma NamesAreUnique(n: Net, lb: Id, listed: seq<VSInfo>)
    requires Unique(n) && ListsListeners(n, lb, listed)
    ensures forall i, j | 0 <= i < |listed| && 0 <= j < |listed| && listed[i].name == listed[j].name :: i == j
  {
    hide UniqueFrontends, UniqueLBNames;
  }

  lemma NoneIsMeant(n: Net, req: Request, listed: seq<VSInfo>)
    requires Absent(n, req.lb, req.currentID) && ListenerNameFree(n, req.lb, req.desired.name) && ListsListeners(n, req.lb, listed)
    ensures forall i | 0 <= i < |listed| :: listed[i].name != req.desired.name && listed[i].id != req.currentID
  {
  }

  /** The first half of Ensure: the complete listing decides which listener is meant, or that there is none. */
  method Locate(c: Client, req: Request) returns (r: Result<Located, Problem>)
    requires c.Valid() && c.actor in c.net.services && req.desired.name != ""
    requires OwnName(c.naming, c.actor, req.desired.name)
    requires OwnsNameOf(c.naming, c.net, c.actor, req.lb, req.currentID)
    modifies c`net, c`faults
    ensures c.Valid() && c.faults <= old(c.faults) && c.Only(old(c.net), old(c.log))
    ensures match r
            case Ok(Located(id, adopted)) =>
              if id == NO_ID then
                && Absent(c.net, req.lb, req.currentID) && ListenerNameFree(c.net, req.lb, req.desired.name)
                && FrontendFree(c.net, req.lb, req.vip, req.desired.protocol, req.desired.frontendPort)
              else
                && OwnsNameOf(c.naming, c.net, c.actor, req.lb, id)
                && (if adopted then IsNamed(c.net, id, req.desired.name) && IsNamed(old(c.net), id, req.desired.name) else id == req.currentID)
            case Err(e) => e == Refused || e.CallFailed?
    ensures c.quiet && r.Ok? && req.currentID != NO_ID && !old(Absent(c.net, req.lb, req.currentID)) && req.currentID in old(c.net).listeners ==>
              r.value == Located(req.currentID, false)
    ensures c.quiet && old(c.faults) == 0 && old(Unobstructed(c.net, req)) ==>
              && r.Ok? && (forall id | old(Means(c.net, req, id)) :: r.value == Located(id, id != req.currentID))
              && (old(Absent(c.net, req.lb, req.currentID) && ListenerNameFree(c.net, req.lb, req.desired.name)) ==> r.value.id == NO_ID)
  {
    hide Inv, Run, Span, WellFormed, Unique, OwnName, ListenerNameFree, FrontendFree, Summary, Clear, Unobstructed, Means;
    ghost var n0, l0 := c.net, c.log;
    InvIsWellFormed(c.naming, n0);
    var listed := c.ListVirtualServers(req.lb);
    ghost var n1 := c.net;
    InvIsWellFormed(c.naming, n1);
    ReadsKeepLog(c.actor, n0, l0, n1, c.log);
    if listed.Err? {
      return Err(CallFailed(listed.error));
    }
    ListedAreIssued(n1, req.lb, listed.value);
    var conflict := CheckConflicts(c, req, listed.value, n1);
    ghost var n2 := c.net;
    InvIsWellFormed(c.naming, n2);
    ReadsKeepLog(c.actor, n1, l0, n2, c.log);
    SpanThenReads(c.actor, n0, l0, [], n1, l0, n2, l0);
    if conflict.Err? {
      return Err(conflict.error);
    }
    OwnsNameStays(c.naming, c.actor, n0, l0, n2, l0, req.lb, req.currentID);
    NamesAreUnique(n1, req.lb, listed.value);
    forall id | Means(n1, req, id)
      ensures id == req.currentID ==> id != NO_ID && exists i :: 0 <= i < |listed.value| && listed.value[i].id == req.currentID
      ensures id != req.currentID ==>
                && (forall i | 0 <= i < |listed.value| :: listed.value[i].id != req.currentID)
                && exists i :: 0 <= i < |listed.value| && listed.value[i].name == req.desired.name && listed.value[i].id == id
    {
      MeantIsListed(n1, req, id, listed.value);
    }
    if Absent(n1, req.lb, req.currentID) && ListenerNameFree(n1, req.lb, req.desired.name) {
      NoneIsMeant(n1, req, listed.value);
    }
    if req.currentID != NO_ID && exists i :: 0 <= i < |listed.value| && listed.value[i].id == req.currentID {
      return Ok(Located(req.currentID, false));
    }
    var named := FindUnique(listed.value, req.desired.name);
    if named.None? {
      return Err(Refused);
    }
    if named.value == NO_ID {
      UnlistedIsFree(c.actor, n1, l0, n2, l0, req, listed.value);
    } else {
      NamedIsOwned(c.naming, c.actor, n1, l0, n2, l0, req, listed.value, named.value);
      NamedBefore(c.actor, n0, l0, n1, req, listed.value, named.value);
    }
    return Ok(Located(named.value, named.value != NO_ID));
  }

  method Ensure(c: Client, req: Request) returns (r: Result<Ensured, Problem>, ghost calls: seq<Call>)
    requires c.Valid() && c.actor in c.net.services && c.net.services[c.actor].finalizer
    requires RecordsParent(c.net, c.actor, req.lb)
    requires OwnName(c.naming, c.actor, req.desired.name) && req.desired.name != ""
    requires OwnsNameOf(c.naming, c.net, c.actor, req.lb, req.currentID)
    requires req.desired.name in req.front.names && KeepsVIP(c.net, c.actor, req.lb, req.vip, req.front)
    modifies c
    ensures c.Valid() && c.faults <= old(c.faults) && Span(c.actor, old(c.net), old(c.log), calls, c.net, c.log)
    ensures AllowedCalls(req, calls) && |c.log| == |old(c.log)| + |calls|
    ensures DeletesOnlyBad(c.actor, old(c.net), old(c.log), req, calls)
    ensures calls != [] ==> CreatesAfterBothGone(req, calls, c.log[|old(c.log)|].pre)
    ensures match r
            case Ok(e) =>
              if calls == [] then Keeps(c.net, req, e)
              else calls == [Creation(req)] && Serves(c.net, req, e.id) && e.name == req.desired.name && e.changed
                   && e.id !in old(c.net).issued && IsNamed(c.net, e.id, req.desired.name)
            case Err(Pending(k, id)) => k == VirtualServerKind
            case Err(e) => e == Refused || e.CallFailed?
    ensures c.quiet && old(Rests(c.net, req)) ==>
              && calls == [] && c.net == old(c.net) && (r.Ok? ==> r.value == Ensured(req.currentID, req.desired.name, false))
              && (old(c.faults) == 0 && old(Unobstructed(c.net, req)) ==> r.Ok?)
    ensures c.quiet && old(c.faults) == 0 && old(Unobstructed(c.net, req)) ==>
              && (forall id | old(Means(c.net, req, id) && IsReadable(c.net, req.lb, id)) :: Answers(old(c.net).listeners[id], req, id, r, calls))
              && (req.reachable && old(Absent(c.net, req.lb, req.currentID) && ListenerNameFree(c.net, req.lb, req.desired.name)) ==>
                    calls != [] && calls[0] == Creation(req))
  {
    hide Inv, Run, Span, WellFormed, Unique, Validate, OwnName, RecordsParent, ListenerNameFree, FrontendFree, KeepsVIP, SeenBad, Unobstructed,
      Answers;
    ghost var n0, l0 := c.net, c.log;
    calls := [];
    InvIsWellFormed(c.naming, n0);
    var where := Locate(c, req);
    ghost var n1 := c.net;
    InvIsWellFormed(c.naming, n1);
    ReadsKeepLog(c.actor, n0, l0, n1, c.log);
    if where.Err? {
      return Err(where.error), calls;
    }
    SpanKeepsServices(c.actor, n0, l0, [], n1, l0);
    RecordsParentIsAnnotation(n0, n1, c.actor, req.lb);
    KeepsVIPStays(c.actor, n0, l0, [], n1, l0, req.lb, req.vip, req.front);
    var id := where.value.id;
    if id == NO_ID {
      r, calls := CreateAndCheck(c, req);
      ReadsThenSpan(c.actor, n0, l0, n1, l0, calls, c.net, c.log);
      SpanKeepsPrefix(c.actor, n0, l0, calls, c.net, c.log);
      if calls != [] {
        AbsentStays(c.actor, n1, l0, c.log[|l0|].pre, l0, req);
      }
      return;
    }
    r, calls := KeepOrReplace(c, req, id, where.value.adopted);
    if calls != [] {
      SeenBadLater(c.actor, n0, l0, n1, req, id);
    }
    ReadsThenSpan(c.actor, n0, l0, n1, l0, calls, c.net, c.log);
    SpanKeepsPrefix(c.actor, n0, l0, calls, c.net, c.log);
  }

  /** The second half of Ensure for a listener that exists. */
  method KeepOrReplace(c: Client, req: Request, id: Id, adopted: bool)
    returns (r: Result<Ensured, Problem>, ghost calls: seq<Call>)
    requires c.Valid() && c.actor in c.net.services && OwnsNameOf(c.naming, c.net, c.actor, req.lb, id)
    requires if adopted then IsNamed(c.net, id, req.desired.name) else id == req.currentID
    modifies c
    ensures c.Valid() && c.faults <= old(c.faults) && Span(c.actor, old(c.net), old(c.log), calls, c.net, c.log)
    ensures calls == [] || (calls == [DeleteListener(req.lb, id)] && SeenBad(c.actor, old(c.net), old(c.log), req, id))
    ensures match r
            case Ok(e) => calls == [] && Keeps(c.net, req, e)
            case Err(Pending(k, id)) => k == VirtualServerKind
            case Err(e) => e == Refused || e.CallFailed?
    ensures c.quiet && old(Serves(c.net, req, id)) && req.currentHash == req.desiredHash != "" ==>
              && calls == [] && c.net == old(c.net) && (r.Ok? ==> r.value == Ensured(id, req.desired.name, false))
              && (old(c.faults) == 0 ==> r.Ok?)
    ensures c.quiet && old(c.faults) == 0 && old(IsReadable(c.net, req.lb, id)) && (adopted <==> id != req.currentID) ==>
              Answers(old(c.net).listeners[id], req, id, r, calls)
  {
    hide Inv, Run, Span, WellFormed, Unique, Validate, OwnName;
    ghost var n0, l0 := c.net, c.log;
    InvIsWellFormed(c.naming, n0);
    var bad;
    bad, calls := Inspect(c, req, id);
    if bad.Some? {
      return Err(bad.value), calls;
    }
    ghost var n1, l1 := c.net, c.log;
    InvIsWellFormed(c.naming, n1);
    if adopted {
      IsNamedStays(c.actor, n0, l0, n1, l1, id, req.desired.name);
    }
    if req.currentHash != "" {
      if req.currentHash == req.desiredHash {
        return Ok(Ensured(id, req.desired.name, false)), calls;
      }
    } else if !req.recreateWhenHashMissing || adopted {
      return Ok(Ensured(id, req.desired.name, false)), calls;
    }
    SpanKeepsServices(c.actor, n0, l0, [], n1, l1);
    OwnsNameStays(c.naming, c.actor, n0, l0, n1, l1, req.lb, id);
    ReadsKeepLog(c.actor, n0, l0, n1, l1);
    assert Outdated(n1, req, id);
    r := DeleteAndWait(c, req.lb, id);
    calls := [DeleteListener(req.lb, id)];
    ReadsThenSpan(c.actor, n0, l0, n1, l1, calls, c.net, c.log);
  }
}
