/** LBServiceManager (pkg/deploy/lbaas/lb_service_manager.go): one load balancer per deterministic name. */
module LBServices {
  import opened Common
  import opened Model
  import opened Cluster
  import opened Text
  import opened Protocol
  import opened Safety
  import opened Progress
  import opened Provider

  predicate Ready(status: string) {
    Lower(status) in {"created", "active", "ready", "available", "online", "success", "ok"}
  }

  predicate Broken(status: string) {
    Lower(status) in {"failed", "error", "errored", "degraded", "unavailable"}
  }

  function Readiness(l: LBInfo): Option<Problem> {
    if l.id == NO_ID then Some(Refused)
    else if Broken(l.status) || Broken(l.operatingStatus) then Some(Terminal(LBServiceKind, l.id))
    else if Ready(l.status) || Ready(l.operatingStatus) then None
    else Some(Pending(LBServiceKind, l.id))
  }

  /** validateLBServicePlacement */
  predicate WellPlaced(l: LBInfo, p: Placement) {
    if p.vpcID != "" && (l.vpcID == "" || l.vpcID != p.vpcID) then false
    else if p.networkID != "" && (l.networkID == "" || l.networkID != p.networkID) then false
    else p.region != "" ==> l.region != "" && EqualFold(l.region, p.region)
  }

  // What the verdicts mean for a load balancer as the provider has it.

  predicate Down(l: LB) {
    || Lower(l.status) in {"failed", "error", "errored", "degraded", "unavailable"}
    || Lower(l.operatingStatus) in {"failed", "error", "errored", "degraded", "unavailable"}
  }

  predicate Up(l: LB) {
    && !Down(l)
    && (Lower(l.status) in {"created", "active", "ready", "available", "online", "success", "ok"}
        || Lower(l.operatingStatus) in {"created", "active", "ready", "available", "online", "success", "ok"})
  }

  predicate Placed(l: LB, p: Placement) {
    PlacedAs(p, l.networkID, l.vpcID, l.region)
  }

  lemma ReadinessMeans(id: Id, l: LB)
    requires id != NO_ID
    ensures Readiness(LBDetail(id, l)) == None <==> Up(l)
    ensures Readiness(LBDetail(id, l)) == Some(Terminal(LBServiceKind, id)) <==> Down(l)
    ensures Readiness(LBDetail(id, l)) == Some(Pending(LBServiceKind, id)) <==> !Up(l) && !Down(l)
  {
    hide Lower;
  }

  lemma WellPlacedMeans(id: Id, l: LB, p: Placement)
    ensures WellPlaced(LBDetail(id, l), p) <==> Placed(l, p)
  {
    hide EqualFold;
  }

  /** findUniqueLBServiceByName */
  method FindUnique(list: seq<LBInfo>, name: string) returns (r: Option<Id>)
    requires forall i | 0 <= i < |list| :: list[i].id != NO_ID
    ensures r.None? <==> exists i, j :: 0 <= i < j < |list| && list[i].name == name && list[j].name == name
    ensures r == Some(NO_ID) <==> forall i | 0 <= i < |list| :: list[i].name != name
    ensures r.Some? && r.value != NO_ID ==> exists i :: 0 <= i < |list| && list[i].name == name && list[i].id == r.value
  {
    var found := NO_ID;
    ghost var at := 0;
    for i := 0 to |list|
      invariant found == NO_ID <==> forall j | 0 <= j < i :: list[j].name != name
      invariant found != NO_ID ==> at < i && list[at].name == name && list[at].id == found
      invariant forall j | 0 <= j < i && list[j].name == name :: j == at
    {
      if list[i].name == name {
        if found != NO_ID {
          assert list[at].name == name && list[i].name == name;
          return None;
        }
        found, at := list[i].id, i;
      }
    }
    r := Some(found);
  }

  predicate Empty(n: Net, lb: Id) {
    forall v | v in n.listeners :: n.listeners[v].lb != lb
  }

  lemma VacantIsEmpty(n: Net, lb: Id)
    requires WellFormed(n) && Vacant(n, lb)
    ensures Empty(n, lb)
  {
  }

  lemma NameStaysFree(list: seq<LBInfo>, n: Net, name: string)
    requires ListsLBs(n, list) && forall i | 0 <= i < |list| :: list[i].name != name
    ensures LBNameFree(n, name)
  {
  }

  /** findByName */
  method FindByName(c: Client, name: string) returns (r: Result<Id, Problem>)
    requires c.Valid()
    modifies c`net, c`faults
    ensures c.Valid() && c.Only(old(c.net), old(c.log)) && c.faults <= old(c.faults)
    ensures r == Ok(NO_ID) ==> LBNameFree(c.net, name)
    ensures r.Ok? && r.value != NO_ID ==> r.value in c.net.lbs && c.net.lbs[r.value].name == name
    ensures r.Err? ==> r.error.CallFailed? && c.faults < old(c.faults)
  {
    hide Inv, Run, Span, UniqueListenerNames, UniqueFrontends;
    var list := c.ListLBServices();
    if list.Err? {
      return Err(CallFailed(list.error));
    }
    InvIsWellFormed(c.naming, c.net);
    var found := FindUnique(list.value, name);
    if found.None? {
      return Err(Refused);
    }
    if found.value == NO_ID {
      NameStaysFree(list.value, c.net, name);
    }
    return Ok(found.value);
  }

  datatype Ensured = Ensured(id: Id, changed: bool)

  /** A load balancer that may carry listeners: it reads as ready and is placed as asked. */
  predicate Usable(n: Net, id: Id, p: Placement) {
    && id in n.lbs && n.lbs[id].readable
    && Up(n.lbs[id]) && Placed(n.lbs[id], p)
  }

  /** A result about some load balancer other than the recorded one is given only when the recorded one is empty. */
  ghost predicate Replaces(n: Net, id: Id, currentID: Id) {
    id != NO_ID && (id == currentID || currentID == NO_ID || Empty(n, currentID))
  }

  ghost predicate Answers(n: Net, r: Result<Ensured, Problem>, currentID: Id, p: Placement, faultsSpent: bool) {
    match r
    case Ok(e) => Usable(n, e.id, p) && Replaces(n, e.id, currentID) && (!e.changed ==> e.id == currentID)
    case Err(Pending(k, id)) => k == LBServiceKind && Replaces(n, id, currentID)
    case Err(Terminal(k, id)) => k == LBServiceKind && Replaces(n, id, currentID)
    case Err(CallFailed(_)) => faultsSpent
    case Err(Refused) => true
  }

  /** A load balancer given out earlier stays empty while the pass creates no listener. */
  lemma EmptyStays(actor: string, n0: Net, l0: seq<Event>, calls: seq<Call>, n: Net, l: seq<Event>, lb: Id)
    requires WellFormed(n0) && Span(actor, n0, l0, calls, n, l) && Empty(n0, lb)
    requires forall call | call in calls :: !call.CreateListener?
    ensures Empty(n, lb)
  {
  }

  /** What is answered about a load balancer that was found by name or has just been created. */
  ghost predicate Awaited(n: Net, id: Id, p: Placement, r: Result<Ensured, Problem>) {
    if Vacant(n, id) then r == Err(Pending(LBServiceKind, id))
    else if Down(n.lbs[id]) then r == Err(Terminal(LBServiceKind, id))
    else if !Up(n.lbs[id]) then r == Err(Pending(LBServiceKind, id))
    else if !Placed(n.lbs[id], p) then r == Err(Refused)
    else r == Ok(Ensured(id, true))
  }

  /** ensureCreatedReady */
  method EnsureCreatedReady(c: Client, id: Id, p: Placement, ghost currentID: Id) returns (r: Result<Ensured, Problem>)
    requires c.Valid() && Replaces(c.net, id, currentID)
    modifies c`net, c`faults
    ensures c.Valid() && c.Only(old(c.net), old(c.log)) && c.faults <= old(c.faults)
    ensures Answers(c.net, r, currentID, p, c.faults < old(c.faults))
    ensures r.Ok? ==> r.value == Ensured(id, true)
    ensures c.quiet && old(c.faults) == 0 && id != NO_ID ==> Awaited(old(c.net), id, p, r)
  {
    hide Inv, Run, Span, Readiness, WellPlaced, WellFormed, Empty, Up, Down, Placed;
    InvIsWellFormed(c.naming, c.net);
    ghost var n0 := c.net;
    var got := c.GetLBService(id);
    InvIsWellFormed(c.naming, c.net);
    if got.Ok? {
      IdsAreNotEmpty(c.net, id);
    }
    if Empty(n0, currentID) {
      EmptyStays(c.actor, n0, old(c.log), [], c.net, c.log, currentID);
    }
    if got.Err? {
      return Err(if got.error == NotFound then Pending(LBServiceKind, id) else CallFailed(got.error));
    }
    ReadinessMeans(id, c.net.lbs[id]);
    WellPlacedMeans(id, c.net.lbs[id], p);
    var unready := Readiness(got.value);
    if unready.Some? {
      return Err(unready.value);
    }
    if !WellPlaced(got.value, p) {
      return Err(Refused);
    }
    return Ok(Ensured(id, true));
  }

  /** One load balancer more, of the name and in the network and VPC asked for. */
  ghost predicate Makes(n0: Net, n: Net, name: string, p: Placement, id: Id) {
    && CreatesLB(n0, n, name, id) && n.lbs[id].networkID == p.networkID && n.lbs[id].vpcID == p.vpcID
  }

  /** create: the provider may answer that the name exists already, after all. */
  method Create(c: Client, name: string, p: Placement) returns (r: Result<Id, Problem>)
    requires c.Valid() && ControllerGuard(c.naming, c.net, c.actor, CreateLB(name))
    modifies c
    ensures c.Valid() && c.faults <= old(c.faults)
    ensures Span(c.actor, old(c.net), old(c.log), [CreateLB(name)], c.net, c.log)
    ensures r.Ok? ==> r.value != NO_ID
    ensures r.Err? ==> r.error == Refused || (r.error.CallFailed? && c.faults < old(c.faults))
    ensures old(c.faults) == 0 ==> r.Ok? && Makes(c.log[|old(c.log)|].pre, c.net, name, p, r.value)
    ensures c.log[..|old(c.log)|] == old(c.log) && (c.quiet ==> c.log[|old(c.log)|].pre == old(c.net))
  {
    hide Inv, Run, Span, ControllerGuard, Created, WellFormed, Unique, LBNameFree;
    ghost var n0, l0 := c.net, c.log;
    InvIsWellFormed(c.naming, c.net);
    var made := c.CreateLBService(name, p.networkID, p.vpcID);
    if made.Ok? {
      return Ok(made.value);
    }
    if made.error != AlreadyExists {
      return Err(CallFailed(made.error));
    }
    ghost var n1, l1 := c.net, c.log;
    InvIsWellFormed(c.naming, c.net);
    var found := FindByName(c, name);
    SpanThenReads(c.actor, n0, l0, [CreateLB(name)], n1, l1, c.net, c.log);
    if found == Ok(NO_ID) {
      return Err(Refused);
    }
    return found;
  }

  lemma ReadinessNames(l: LBInfo)
    requires Readiness(l).Some? && l.id != NO_ID
    ensures Readiness(l).value == Terminal(LBServiceKind, l.id) || Readiness(l).value == Pending(LBServiceKind, l.id)
  {
  }

  lemma IdsAreNotEmpty(n: Net, id: Id)
    requires WellFormed(n) && (id in n.lbs || id in n.vips || id in n.listeners)
    ensures id != NO_ID
  {
  }

  lemma UsableIsNotVacant(n: Net, id: Id, p: Placement)
    requires WellFormed(n)
    ensures Usable(n, id, p) ==> id != NO_ID && !Vacant(n, id)
  {
    hide Up, Placed;
  }

  /** What becomes of it, if nothing gets in the way: the load balancer of the name is taken, or else one is made where it was
      asked for. */
  ghost predicate Found(n0: Net, n: Net, name: string, p: Placement, r: Result<Ensured, Problem>, calls: seq<Call>) {
    if LBNameFree(n0, name) then
      calls == [CreateLB(name)] && exists id :: Makes(n0, n, name, p, id) && Awaited(n, id, p, r)
    else
      calls == [] && forall id | id in n0.lbs && n0.lbs[id].name == name :: Awaited(n0, id, p, r)
  }

  /** The second half of Ensure: look the deterministic name up, and create only what is not there. */
  method FindOrCreate(c: Client, name: string, p: Placement, ghost currentID: Id)
    returns (r: Result<Ensured, Problem>, ghost calls: seq<Call>)
    requires c.Valid() && c.actor in c.net.services && c.net.services[c.actor].finalizer
    requires !Provided(c.net.services[c.actor].lbMode, c.net.services[c.actor].lbID)
    requires currentID == NO_ID || Empty(c.net, currentID)
    modifies c
    ensures c.Valid() && c.faults <= old(c.faults) && Span(c.actor, old(c.net), old(c.log), calls, c.net, c.log)
    ensures calls == [] || calls == [CreateLB(name)]
    ensures Answers(c.net, r, currentID, p, c.faults < old(c.faults))
    ensures r.Ok? ==> r.value.changed
    ensures c.quiet && old(c.faults) == 0 ==> Found(old(c.net), c.net, name, p, r, calls)
  {
    hide Inv, Run, Span, WellFormed, UniqueListenerNames, UniqueFrontends, Readiness, WellPlaced, Empty, Vacant, Makes, Awaited;
    ghost var n0, l0 := c.net, c.log;
    calls := [];
    InvIsWellFormed(c.naming, n0);
    var found := FindByName(c, name);
    InvIsWellFormed(c.naming, c.net);
    if found.Err? {
      return Err(found.error), calls;
    }
    ghost var n1, l1 := c.net, c.log;
    SpanKeepsServices(c.actor, n0, l0, [], n1, l1);
    if currentID != NO_ID {
      EmptyStays(c.actor, n0, l0, [], n1, l1, currentID);
    }
    var id := found.value;
    if id == NO_ID {
      var made := Create(c, name, p);
      InvIsWellFormed(c.naming, c.net);
      calls := [CreateLB(name)];
      ReadsThenSpan(c.actor, n0, l0, n1, l1, calls, c.net, c.log);
      if made.Err? {
        return Err(made.error), calls;
      }
      id := made.value;
      if currentID != NO_ID {
        EmptyStays(c.actor, n0, l0, calls, c.net, c.log, currentID);
      }
    } else {
      IdsAreNotEmpty(n1, id);
    }
    ghost var n2, l2 := c.net, c.log;
    r := EnsureCreatedReady(c, id, p, currentID);
    SpanThenReads(c.actor, n0, l0, calls, n2, l2, c.net, c.log);
  }

  /** The recorded load balancer was seen to be placed as asked and failed. */
  ghost predicate SeenBroken(actor: string, n0: Net, l0: seq<Event>, p: Placement, id: Id) {
    exists seen :: Span(actor, n0, l0, [], seen, l0) && IsFailed(seen, p, id)
  }

  predicate IsFailed(n: Net, p: Placement, id: Id) {
    id in n.lbs && n.lbs[id].readable && Placed(n.lbs[id], p) && Down(n.lbs[id])
  }

  /** What is done about the recorded load balancer, where it can be read. */
  predicate Judged(l: LB, p: Placement, id: Id, strict: bool, r: Result<Ensured, Problem>, calls: seq<Call>) {
    if !Placed(l, p) then r == Err(Refused) && calls == []
    else if Down(l) then
      if strict then r == Err(Terminal(LBServiceKind, id)) && calls == []
      else r == Err(Pending(LBServiceKind, id)) && calls == [DeleteLB(id, Repair(p))]
    else if Up(l) then r == Ok(Ensured(id, false)) && calls == []
    else r == Err(Pending(LBServiceKind, id)) && calls == []
  }

  lemma FailedReadsAsPlaced(n: Net, p: Placement, id: Id)
    ensures IsFailed(n, p, id) ==> ReadsAsPlaced(n, id, p) && !Vacant(n, id)
  {
    hide Lower, EqualFold;
  }

  lemma LastingIsSeen(n: Net, id: Id)
    requires WellFormed(n)
    ensures Lasting(n, id) ==> id != NO_ID && !Vacant(n, id)
  {
  }

  /** It was seen not to exist. */
  ghost predicate SeenVacant(actor: string, n0: Net, l0: seq<Event>, id: Id) {
    exists seen :: Span(actor, n0, l0, [], seen, l0) && Vacant(seen, id)
  }

  /** At most one call is made: a creation, or the deletion of a failed managed load balancer. A load balancer that the
      user provided is left alone. */
  method Ensure(c: Client, name: string, p: Placement, currentID: Id, strict: bool)
    returns (r: Result<Ensured, Problem>, ghost calls: seq<Call>)
    requires c.Valid() && c.actor in c.net.services && c.net.services[c.actor].finalizer
    requires Provided(c.net.services[c.actor].lbMode, c.net.services[c.actor].lbID) ==> strict && currentID != NO_ID
    requires currentID != NO_ID && !strict ==> MayRepair(c.net, c.actor, currentID)
    modifies c
    ensures c.Valid() && c.faults <= old(c.faults) && Span(c.actor, old(c.net), old(c.log), calls, c.net, c.log)
    ensures calls == [] || calls == [CreateLB(name)] || calls == [DeleteLB(currentID, Repair(p))]
    ensures calls == [DeleteLB(currentID, Repair(p))] ==> SeenBroken(c.actor, old(c.net), old(c.log), p, currentID)
    ensures calls == [CreateLB(name)] ==> currentID == NO_ID || SeenVacant(c.actor, old(c.net), old(c.log), currentID)
    ensures strict && currentID != NO_ID ==> calls == [] && (r.Ok? ==> r.value == Ensured(currentID, false))
    ensures strict && currentID != NO_ID && r.Err? && (r.error.Pending? || r.error.Terminal?) ==> r.error.id == currentID
    ensures r.Ok? ==> calls == [] || calls == [CreateLB(name)]
    ensures Answers(c.net, r, currentID, p, c.faults < old(c.faults))
    ensures c.quiet && old(Usable(c.net, currentID, p)) ==>
              calls == [] && c.net == old(c.net) && (r.Ok? ==> r.value == Ensured(currentID, false)) && (old(c.faults) == 0 ==> r.Ok?)
    ensures c.quiet && old(c.faults) == 0 ==>
              (calls == [DeleteLB(currentID, Repair(p))] <==> currentID != NO_ID && !strict && IsFailed(old(c.net), p, currentID))
    ensures old(Lasting(c.net, currentID)) ==>
              calls != [CreateLB(name)] && (r.Ok? ==> r.value == Ensured(currentID, false) && calls == [])
    ensures c.quiet && old(c.faults) == 0 ==>
              if currentID != NO_ID && old(!Vacant(c.net, currentID)) then Judged(old(c.net).lbs[currentID], p, currentID, strict, r, calls)
              else if currentID != NO_ID && strict then r == Err(Refused) && calls == []
              else Found(old(c.net), c.net, name, p, r, calls)
  {
    hide Inv, Run, Span, WellFormed, Unique, Readiness, WellPlaced, Empty, LBNameFree, MayRepair, ReadsAsPlaced, Found, Up, Down, Placed,
      Lasting, LastingVIP;
    ghost var n0, l0 := c.net, c.log;
    calls := [];
    InvIsWellFormed(c.naming, n0);
    UsableIsNotVacant(n0, currentID, p);
    FailedReadsAsPlaced(n0, p, currentID);
    LastingIsSeen(n0, currentID);
    if currentID != NO_ID {
      var got := c.GetLBService(currentID);
      InvIsWellFormed(c.naming, c.net);
      ReadsLeaveParents(c.actor, n0, l0, c.net, c.log, currentID);
      LastingIsSeen(c.net, currentID);
      if got.Ok? {
        WellPlacedMeans(currentID, c.net.lbs[currentID], p);
        ReadinessMeans(currentID, c.net.lbs[currentID]);
        if !WellPlaced(got.value, p) {
          return Err(Refused), calls;
        }
        var unready := Readiness(got.value);
        if unready == None {
          return Ok(Ensured(currentID, false)), calls;
        }
        ReadinessNames(got.value);
        if unready.value.Terminal? && !strict {
          ghost var n1, l1 := c.net, c.log;
          ReadsKeepLog(c.actor, n0, l0, n1, l1);
          assert IsFailed(n1, p, currentID);
          FailedReadsAsPlaced(n1, p, currentID);
          SpanKeepsServices(c.actor, n0, l0, [], n1, l1);
          RepairIsAnnotation(n0, n1, c.actor, currentID);
          var deleted := c.DeleteLBService(currentID, Repair(p));
          calls := [DeleteLB(currentID, Repair(p))];
          ReadsThenSpan(c.actor, n0, l0, n1, l1, calls, c.net, c.log);
          if deleted.Err? && deleted.error != NotFound {
            return Err(CallFailed(deleted.error)), calls;
          }
          return Err(Pending(LBServiceKind, currentID)), calls;
        }
        return Err(unready.value), calls;
      }
      if got.error != NotFound {
        return Err(CallFailed(got.error)), calls;
      }
      if strict {
        return Err(Refused), calls;
      }
      VacantIsEmpty(c.net, currentID);
      ReadsKeepLog(c.actor, n0, l0, c.net, c.log);
      assert SeenVacant(c.actor, n0, l0, currentID);
    }
    ghost var n1, l1 := c.net, c.log;
    if currentID == NO_ID {
      SpanNothing(c.actor, n0, l0);
    }
    SpanKeepsServices(c.actor, n0, l0, [], n1, l1);
    r, calls := FindOrCreate(c, name, p, currentID);
    ReadsThenSpan(c.actor, n0, l0, n1, l1, calls, c.net, c.log);
  }
}
