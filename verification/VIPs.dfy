/** VIPManager (pkg/deploy/lbaas/vip_manager.go): one frontend address per stack, never adopted from elsewhere. */
module VIPs {
  import opened Common
  import opened Model
  import opened Cluster
  import opened Text
  import opened Protocol
  import opened Safety
  import opened Progress
  import opened Provider

  /** validateVIP */
  function Validate(v: VIPInfo, subnet: string, strict: bool): Option<Problem> {
    if v.networkID != "" && subnet != "" && v.networkID != subnet then Some(Refused)
    else if v.ipVersion != "" && !EqualFold(v.ipVersion, "IPv4") then Some(Refused)
    else if strict && v.status == "" then Some(Refused)
    else if Lower(v.status) in {"", "active", "created", "ready", "available"} then None
    else if Lower(v.status) in {"failed", "error", "errored"} then Some(Terminal(VIPKind, v.id))
    else Some(Pending(VIPKind, v.id))
  }

  // What the verdict means for a VIP as the provider has it.

  /** It is an IPv4 address in the subnet, as far as the provider says. */
  predicate Fitting(v: Vip, subnet: string) {
    && (v.networkID == "" || subnet == "" || v.networkID == subnet) && (v.ipVersion == "" || EqualFold(v.ipVersion, "IPv4"))
  }

  /** A provided VIP needs a status. */
  predicate Up(v: Vip, strict: bool) {
    Lower(v.status) in {"", "active", "created", "ready", "available"} && (strict ==> v.status != "")
  }

  predicate Down(v: Vip) {
    Lower(v.status) in {"failed", "error", "errored"}
  }

  lemma ValidateMeans(id: Id, v: Vip, subnet: string, strict: bool)
    ensures var verdict := Validate(VIPDetail(id, v), subnet, strict);
            && (verdict == None <==> Fitting(v, subnet) && Up(v, strict))
            && (verdict == Some(Terminal(VIPKind, id)) <==> Fitting(v, subnet) && Down(v))
            && (verdict == Some(Refused) <==> !Fitting(v, subnet) || (strict && v.status == ""))
            && (verdict.Some? ==> verdict.value in {Refused, Terminal(VIPKind, id), Pending(VIPKind, id)})
  {
    hide EqualFold;
  }

  datatype Allocated = Allocated(id: Id, address: string, changed: bool)

  /** The recorded VIP, listed under the load balancer and healthy. */
  predicate Kept(n: Net, lb: Id, subnet: string, strict: bool, currentID: Id, currentAddress: string, a: Allocated) {
    && a.id == currentID && a.id in n.vips && n.vips[a.id].lb == lb
    && Fitting(n.vips[a.id], subnet) && Up(n.vips[a.id], strict)
    && a.address == (if n.vips[a.id].address != "" then n.vips[a.id].address else currentAddress)
    && a.changed == (a.address != currentAddress)
  }

  /** The VIP is listed and healthy. */
  predicate Healthy(n: Net, lb: Id, subnet: string, strict: bool, vip: Id) {
    && vip != NO_ID && vip in n.vips && n.vips[vip].lb == lb && n.vips[vip].networkID in {"", subnet}
    && Fitting(n.vips[vip], subnet) && Up(n.vips[vip], strict)
  }

  function AddressNow(n: Net, vip: Id, currentAddress: string): string {
    if vip in n.vips && n.vips[vip].address != "" then n.vips[vip].address else currentAddress
  }

  /** The VIP is not among those of the load balancer in the subnet. */
  predicate Unlisted(n: Net, lb: Id, subnet: string, vip: Id) {
    vip in n.vips && n.vips[vip].lb == lb ==> n.vips[vip].networkID !in {"", subnet}
  }

  /** A VIP that did not exist before. */
  predicate Allocates(n0: Net, n: Net, lb: Id, subnet: string, currentID: Id, a: Allocated) {
    && a.id != NO_ID && a.id !in n0.issued && a.id in n.issued && a.changed
    && (a.id in n.vips ==> n.vips[a.id].lb == lb && n.vips[a.id].networkID == subnet && (a.address == "" || a.address == n.vips[a.id].address))
    && (currentID != NO_ID && currentID != a.id ==> Unlisted(n, lb, subnet, currentID))
  }

  lemma UnlistedStays(actor: string, n0: Net, l0: seq<Event>, n: Net, l: seq<Event>, lb: Id, subnet: string, vip: Id)
    requires WellFormed(n0) && Span(actor, n0, l0, [], n, l) && Unlisted(n0, lb, subnet, vip)
    ensures Unlisted(n, lb, subnet, vip)
  {
  }

  lemma CreationListsOne(n: Net, m: Net, lb: Id, id: Id, subnet: string, vip: Id)
    requires CreatesVIP(n, m, lb, id) && Unlisted(n, lb, subnet, vip) && vip != id
    ensures Unlisted(m, lb, subnet, vip)
    ensures id != NO_ID && id !in n.issued && id in m.issued && id in m.vips && m.vips[id].lb == lb
  {
  }

  /** The allocation as it is where nothing gets in the way: the address is known. */
  predicate Allotted(n: Net, a: Allocated) {
    a.id in n.vips && a.address == n.vips[a.id].address
  }

  lemma AllocationStays(actor: string, n0: Net, m: Net, l0: seq<Event>, n: Net, l: seq<Event>, lb: Id, subnet: string,
                        currentID: Id, a: Allocated)
    requires WellFormed(m) && Allocates(n0, m, lb, subnet, currentID, a) && Span(actor, m, l0, [], n, l)
    ensures Allocates(n0, n, lb, subnet, currentID, a)
  {
  }

  /** The tail of Ensure: a fresh VIP, whose address is looked up when the provider did not tell it. */
  method Allocate(c: Client, lb: Id, subnet: string, ghost currentID: Id)
    returns (r: Result<Allocated, Problem>)
    requires c.Valid() && ControllerGuard(c.naming, c.net, c.actor, Call.CreateVIP(lb))
    requires currentID != NO_ID ==> Unlisted(c.net, lb, subnet, currentID)
    modifies c
    ensures c.Valid() && c.faults <= old(c.faults)
    ensures Span(c.actor, old(c.net), old(c.log), [Call.CreateVIP(lb)], c.net, c.log)
    ensures match r
            case Ok(a) => Allocates(old(c.net), c.net, lb, subnet, currentID, a) && c.net.vips.Keys <= old(c.net).vips.Keys + {a.id}
            case Err(e) => e.CallFailed?
    ensures c.quiet && old(c.faults) == 0 && old(!Vacant(c.net, lb)) ==> r.Ok? && Allotted(c.net, r.value)
  {
    hide Inv, Run, Span, WellFormed, Unique, ControllerGuard, CreatesVIP, Unlisted, Vacant;
    ghost var n0, l0 := c.net, c.log;
    InvIsWellFormed(c.naming, n0);
    var made := c.CreateVIP(lb, subnet);
    if made.Err? {
      AllocatingLeavesLBs(c.actor, c.log[|l0|], lb);
      return Err(CallFailed(made.error));
    }
    ghost var pre := c.log[|l0|].pre;
    SpanKeepsServices(c.actor, n0, l0, [], pre, l0);
    if currentID != NO_ID {
      UnlistedStays(c.actor, n0, l0, pre, l0, lb, subnet, currentID);
    }
    CreationIsNew(pre, c.net, lb, made.value.id);
    SpanAddsNoVIPs(c.actor, n0, l0, [], pre, l0);
    if currentID != NO_ID && currentID != made.value.id {
      CreationListsOne(pre, c.net, lb, made.value.id, subnet, currentID);
    }
    var address := made.value.address;
    ghost var n1, l1 := c.net, c.log;
    InvIsWellFormed(c.naming, n1);
    if address == "" {
      var listed := c.ListVIPs(lb, subnet);
      SpanThenReads(c.actor, n0, l0, [Call.CreateVIP(lb)], n1, l1, c.net, c.log);
      SpanAddsNoVIPs(c.actor, n1, l1, [], c.net, c.log);
      AllocationStays(c.actor, n0, n1, l1, c.net, c.log, lb, subnet, currentID, Allocated(made.value.id, "", true));
      if listed.Ok? {
        for i := 0 to |listed.value|
          invariant address == "" && forall j | 0 <= j < i && listed.value[j].id == made.value.id :: listed.value[j].address == ""
        {
          if listed.value[i].id == made.value.id && listed.value[i].address != "" {
            address := listed.value[i].address;
            break;
          }
        }
      }
    }
    return Ok(Allocated(made.value.id, address, true));
  }

  lemma CreationIsNew(n: Net, m: Net, lb: Id, id: Id)
    requires CreatesVIP(n, m, lb, id)
    ensures id != NO_ID && id !in n.issued && id in m.issued && id in m.vips && m.vips[id].lb == lb && m.vips.Keys == n.vips.Keys + {id}
  {
  }

  lemma AllocatingLeavesLBs(actor: string, e: Event, lb: Id)
    requires e.post == e.pre || Effect(e.pre, Controller(actor), Call.CreateVIP(lb), e.post)
    ensures Vacant(e.post, lb) <==> Vacant(e.pre, lb)
  {
  }

  predicate IsFailed(n: Net, lb: Id, subnet: string, strict: bool, vip: Id) {
    && vip in n.vips && n.vips[vip].lb == lb
    && Fitting(n.vips[vip], subnet) && Down(n.vips[vip])
  }

  /** What is done about the recorded VIP, where it is listed. */
  predicate Judged(v: Vip, lb: Id, subnet: string, id: Id, address: string, strict: bool, r: Result<Allocated, Problem>, calls: seq<Call>) {
    if !Fitting(v, subnet) || (strict && v.status == "") then r == Err(Refused) && calls == []
    else if Down(v) then
      if strict then r == Err(Terminal(VIPKind, id)) && calls == []
      else r == Err(Pending(VIPKind, id)) && calls == [Call.DeleteVIP(lb, id, Repair(InSubnet(subnet)))]
    else if Up(v, strict) then
      && calls == []
      && r == Ok(if v.address != "" then Allocated(id, v.address, v.address != address) else Allocated(id, address, false))
    else r == Err(Pending(VIPKind, id)) && calls == []
  }

  /** The recorded VIP was listed as failed. */
  ghost predicate SeenBroken(actor: string, n0: Net, l0: seq<Event>, lb: Id, subnet: string, strict: bool, vip: Id) {
    exists seen :: Span(actor, n0, l0, [], seen, l0) && IsFailed(seen, lb, subnet, strict, vip)
  }

  /** It was not on the list. */
  ghost predicate SeenUnlisted(actor: string, n0: Net, l0: seq<Event>, lb: Id, subnet: string, vip: Id) {
    exists seen :: Span(actor, n0, l0, [], seen, l0) && Unlisted(seen, lb, subnet, vip)
  }

  /** At most one call is made: a fresh allocation, or the deletion of a failed managed VIP. A VIP that the user provided
      is left alone. */
  method Ensure(c: Client, lb: Id, subnet: string, currentID: Id, currentAddress: string, strict: bool)
    returns (r: Result<Allocated, Problem>, ghost calls: seq<Call>)
    requires c.Valid() && c.actor in c.net.services && c.net.services[c.actor].finalizer && RecordsParent(c.net, c.actor, lb)
    requires Provided(c.net.services[c.actor].vipMode, c.net.services[c.actor].vipID) ==> strict
    requires currentID != NO_ID && !strict ==> MayRepairVIP(c.naming, c.net, c.actor, lb, subnet, currentID)
    modifies c
    ensures c.Valid() && c.faults <= old(c.faults) && Span(c.actor, old(c.net), old(c.log), calls, c.net, c.log)
    ensures calls == [] || calls == [Call.CreateVIP(lb)] || calls == [Call.DeleteVIP(lb, currentID, Repair(InSubnet(subnet)))]
    ensures calls == [Call.DeleteVIP(lb, currentID, Repair(InSubnet(subnet)))] ==> SeenBroken(c.actor, old(c.net), old(c.log), lb, subnet, strict, currentID)
    ensures calls == [Call.CreateVIP(lb)] ==> currentID == NO_ID || SeenUnlisted(c.actor, old(c.net), old(c.log), lb, subnet, currentID)
    ensures strict ==> calls == []
    ensures old(LastingVIP(c.net, lb, subnet, currentID)) ==>
              calls != [Call.CreateVIP(lb)] && (r.Ok? ==> calls == [] && r.value.id == currentID)
    ensures match r
            case Ok(a) =>
              if calls == [] then currentID != NO_ID && Kept(c.net, lb, subnet, strict, currentID, currentAddress, a)
              else calls == [Call.CreateVIP(lb)] && Allocates(old(c.net), c.net, lb, subnet, currentID, a)
                   && c.net.vips.Keys <= old(c.net).vips.Keys + {a.id}
            case Err(e) => e.Pending? ==> e == Pending(VIPKind, currentID)
    ensures c.quiet && old(Healthy(c.net, lb, subnet, strict, currentID)) ==>
              calls == [] && c.net == old(c.net) && (old(c.faults) == 0 ==> r.Ok?)
              && (r.Ok? ==> r.value == Allocated(currentID, AddressNow(c.net, currentID, currentAddress), AddressNow(c.net, currentID, currentAddress) != currentAddress))
    ensures c.quiet && old(c.faults) == 0 && (currentID in old(c.net).vips ==> old(c.net).vips[currentID].networkID in {"", subnet}) ==>
              (calls == [Call.DeleteVIP(lb, currentID, Repair(InSubnet(subnet)))]
               <==> currentID != NO_ID && !strict && IsFailed(old(c.net), lb, subnet, strict, currentID))
    ensures c.quiet && old(c.faults) == 0 && (currentID in old(c.net).vips ==> old(c.net).vips[currentID].networkID in {"", subnet}) ==>
              if currentID in old(c.net).vips && old(c.net).vips[currentID].lb == lb
              then Judged(old(c.net).vips[currentID], lb, subnet, currentID, currentAddress, strict, r, calls)
              else if strict then r == Err(Refused) && calls == []
              else calls == [Call.CreateVIP(lb)] && (old(!Vacant(c.net, lb)) ==> r.Ok? && Allotted(c.net, r.value))
  {
    hide Inv, Run, Span, WellFormed, Unique, Validate, RecordsParent, Unlisted, MayRepairVIP, LastingVIP, Lasting, Fitting, Up, Down,
      Vacant, Allotted;
    ghost var n0, l0 := c.net, c.log;
    calls := [];
    InvIsWellFormed(c.naming, n0);
    LastingIsListed(n0, lb, subnet, currentID);
    if currentID != NO_ID {
      var listed := c.ListVIPs(lb, subnet);
      InvIsWellFormed(c.naming, c.net);
      ReadsLeaveParents(c.actor, n0, l0, c.net, c.log, lb);
      LastingIsListed(c.net, lb, subnet, currentID);
      ghost var n1, l1 := c.net, c.log;
      SpanKeepsServices(c.actor, n0, l0, [], n1, l1);
      RecordsParentIsAnnotation(n0, n1, c.actor, lb);
      if listed.Err? {
        return Err(CallFailed(listed.error)), calls;
      }
      for i := 0 to |listed.value|
        invariant forall j | 0 <= j < i :: listed.value[j].id != currentID
        invariant c.net == n1 && c.log == l1 && c.Valid() && c.faults <= old(c.faults)
      {
        var vip := listed.value[i];
        if vip.id == currentID {
          ValidateMeans(currentID, n1.vips[currentID], subnet, strict);
          var bad := Validate(vip, subnet, strict);
          if bad.Some? {
            if bad.value.Terminal? && !strict {
              ReadsKeepLog(c.actor, n0, l0, n1, l1);
              assert IsFailed(n1, lb, subnet, strict, currentID);
              SpanKeepsSeats(c.actor, n0, l0, [], n1, l1);
              RepairStays(c.naming, c.actor, n0, l0, n1, l1, lb, subnet, currentID);
              FailedIsPlaced(n1, lb, subnet, strict, currentID);
              var why := Repair(InSubnet(subnet));
              var deleted := c.DeleteVIP(lb, currentID, why);
              calls := [Call.DeleteVIP(lb, currentID, why)];
              ReadsThenSpan(c.actor, n0, l0, n1, l1, calls, c.net, c.log);
              if deleted.Err? && deleted.error != NotFound {
                return Err(CallFailed(deleted.error)), calls;
              }
              return Err(Pending(VIPKind, currentID)), calls;
            }
            return Err(bad.value), calls;
          }
          var address := if vip.address == "" then currentAddress else vip.address;
          return Ok(Allocated(currentID, address, address != currentAddress)), calls;
        }
      }
      if strict {
        return Err(Refused), calls;
      }
      NotListed(n1, lb, subnet, listed.value, currentID);
      ReadsKeepLog(c.actor, n0, l0, n1, l1);
      assert SeenUnlisted(c.actor, n0, l0, lb, subnet, currentID);
    }
    ghost var n1, l1 := c.net, c.log;
    if currentID == NO_ID {
      SpanNothing(c.actor, n0, l0);
    }
    if strict {
      return Err(Refused), calls;
    }
    SpanKeepsServices(c.actor, n0, l0, [], n1, l1);
    RecordsParentIsAnnotation(n0, n1, c.actor, lb);
    SpanAddsNoVIPs(c.actor, n0, l0, [], n1, l1);
    r := Allocate(c, lb, subnet, currentID);
    calls := [Call.CreateVIP(lb)];
    ReadsThenSpan(c.actor, n0, l0, n1, l1, calls, c.net, c.log);
  }

  lemma LastingIsListed(n: Net, lb: Id, subnet: string, vip: Id)
    requires WellFormed(n)
    ensures LastingVIP(n, lb, subnet, vip) ==> vip != NO_ID && !Unlisted(n, lb, subnet, vip)
  {
  }

  lemma FailedIsPlaced(n: Net, lb: Id, subnet: string, strict: bool, vip: Id)
    requires IsFailed(n, lb, subnet, strict, vip)
    ensures VIPAsPlaced(n, lb, subnet, vip)
  {
    hide Lower, EqualFold;
  }

  /** Reading changes nothing about which VIP a pass works with. */
  lemma RepairStays(nm: Naming, actor: string, n0: Net, l0: seq<Event>, n: Net, l: seq<Event>, lb: Id, subnet: string, vip: Id)
    requires WellFormed(n0) && Span(actor, n0, l0, [], n, l) && MayRepairVIP(nm, n0, actor, lb, subnet, vip)
    ensures MayRepairVIP(nm, n, actor, lb, subnet, vip)
  {
    hide OwnName, Strict, Span, WellFormed, Listed, ReachesVIP;
    SpanKeepsServices(actor, n0, l0, [], n, l);
    RecordsParentIsAnnotation(n0, n, actor, lb);
    ReachStays(nm, actor, n0, l0, n, l, lb, subnet, vip);
  }

  lemma ReachStays(nm: Naming, actor: string, n0: Net, l0: seq<Event>, n: Net, l: seq<Event>, lb: Id, subnet: string, vip: Id)
    requires WellFormed(n0) && Span(actor, n0, l0, [], n, l) && ReachesVIP(nm, n0, actor, lb, subnet, vip)
    ensures ReachesVIP(nm, n, actor, lb, subnet, vip)
  {
    hide OwnName, Span, WellFormed, Listed;
    SpanKeepsServices(actor, n0, l0, [], n, l);
    SpanKeepsSeats(actor, n0, l0, [], n, l);
    if RecoveredFrom(nm, n0, actor, lb, subnet, vip) {
      var seat :| seat in n0.seats && seat.lb == lb && OwnName(nm, actor, seat.name) && (seat.vip == vip || !Listed(n0, lb, subnet, seat.vip));
      if Listed(n, lb, subnet, seat.vip) {
        ListedBefore(actor, n0, l0, [], n, l, lb, subnet, seat.vip);
      }
    }
  }

  lemma NotListed(n: Net, lb: Id, subnet: string, list: seq<VIPInfo>, vip: Id)
    requires ListsVIPs(n, lb, subnet, list) && forall i | 0 <= i < |list| :: list[i].id != vip
    ensures Unlisted(n, lb, subnet, vip)
  {
  }
}
