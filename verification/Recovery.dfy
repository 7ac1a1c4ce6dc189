/** recoverVirtualServersByName (pkg/deploy/lbaas/deployer.go): after a crash, the listeners of a stack are found by
    their deterministic names, and the VIP is taken only where they prove it. */
module Recovery {
  import opened Common
  import opened Model
  import opened Cluster
  import opened Protocol
  import opened Safety
  import opened Progress
  import opened Provider
  import VirtualServers

  datatype Recovered = Recovered(found: map<string, VSInfo>, vip: Id, address: string)

  function Names(desired: seq<VirtualServer>): set<string> {
    set i | 0 <= i < |desired| :: desired[i].name
  }

  /** `found` holds, for every wanted name that a listener of the load balancer bears, that listener's list entry. */
  ghost predicate FindsAll(n: Net, lb: Id, desired: seq<VirtualServer>, found: map<string, VSInfo>) {
    && found.Keys <= Names(desired)
    && (forall name | name in found ::
          Summary(n, found[name]) && n.listeners[found[name].id].lb == lb && found[name].name == name)
    && (forall id | id in n.listeners && n.listeners[id].lb == lb && n.listeners[id].name in Names(desired) ::
          n.listeners[id].name in found && found[n.listeners[id].name].id == id)
  }

  /** All recovered listeners answer on one VIP. */
  ghost predicate OnOneVIP(n: Net, found: map<string, VSInfo>, vip: Id) {
    forall name | name in found :: found[name].id in n.listeners && n.listeners[found[name].id].vip == vip
  }

  /** The first loop: unique names only. */
  method FindByNames(listed: seq<VSInfo>, desired: seq<VirtualServer>, ghost n: Net, ghost lb: Id)
    returns (r: Result<map<string, VSInfo>, Problem>)
    requires ListsListeners(n, lb, listed) && forall i | 0 <= i < |listed| :: listed[i].id != NO_ID
    requires forall i | 0 <= i < |desired| :: desired[i].name != ""
    ensures r.Ok? ==> FindsAll(n, lb, desired, r.value)
    ensures r.Err? ==> r.error == Refused
  {
    hide Summary;
    var found: map<string, VSInfo> := map[];
    for k := 0 to |desired|
      invariant found.Keys <= Names(desired[..k])
      invariant forall name | name in found :: found[name] in listed && found[name].name == name
      invariant forall i | 0 <= i < |listed| && listed[i].name in Names(desired[..k]) ::
          listed[i].name in found && found[listed[i].name] == listed[i]
    {
      var want := desired[k].name;
      NamesGrow(desired, k);
      var named := VirtualServers.FindUnique(listed, want);
      if named.None? {
        return Err(Refused);
      }
      if named.value != NO_ID {
        for i := 0 to |listed|
          invariant forall j | 0 <= j < i :: listed[j].id != named.value
        {
          if listed[i].id == named.value {
            found := found[want := listed[i]];
            break;
          }
        }
      }
    }
    assert desired[..|desired|] == desired;
    ListingFindsAll(n, lb, listed, desired, found);
    return Ok(found);
  }

  lemma NamesGrow(desired: seq<VirtualServer>, k: nat)
    requires k < |desired|
    ensures Names(desired[..k + 1]) == Names(desired[..k]) + {desired[k].name}
  {
    var more := desired[..k + 1];
    assert forall i | 0 <= i < k :: more[i] == desired[..k][i];
    assert more[k] == desired[k];
    forall name | name in Names(desired[..k]) ensures name in Names(more) {
      var i :| 0 <= i < k && desired[..k][i].name == name;
      assert more[i].name == name;
    }
  }

  lemma ListingFindsAll(n: Net, lb: Id, listed: seq<VSInfo>, desired: seq<VirtualServer>, found: map<string, VSInfo>)
    requires ListsListeners(n, lb, listed) && found.Keys <= Names(desired)
    requires forall name | name in found :: found[name] in listed && found[name].name == name
    requires forall i | 0 <= i < |listed| && listed[i].name in Names(desired) ::
               listed[i].name in found && found[listed[i].name] == listed[i]
    ensures FindsAll(n, lb, desired, found)
  {
    forall id | id in n.listeners && n.listeners[id].lb == lb && n.listeners[id].name in Names(desired)
      ensures n.listeners[id].name in found && found[n.listeners[id].name].id == id
    {
      var i :| 0 <= i < |listed| && listed[i].id == id;
      assert Summary(n, listed[i]);
    }
  }

  /** Some recovered listener answers on the VIP, or on none that is listed. */
  ghost predicate Told(seen: Net, n: Net, lb: Id, subnet: string, found: map<string, VSInfo>, vip: Id) {
    exists name | name in found :: found[name].id in seen.listeners
      && (seen.listeners[found[name].id].vip == vip || !Listed(n, lb, subnet, seen.listeners[found[name].id].vip))
  }

  /** The result of recovery, seen from the listing `seen` and the present state `n`. */
  ghost predicate Proven(seen: Net, n: Net, lb: Id, subnet: string, desired: seq<VirtualServer>, r: Recovered) {
    && FindsAll(seen, lb, desired, r.found)
    && (r.found == map[] ==> r.vip == NO_ID && r.address == "")
    && (r.found != map[] ==> r.vip in n.vips && n.vips[r.vip].lb == lb && r.address == n.vips[r.vip].address)
    && (r.found != map[] ==> forall w | OnOneVIP(seen, r.found, w) && Listed(n, lb, subnet, w) :: r.vip == w)
    && (r.found != map[] ==> Told(seen, n, lb, subnet, r.found, r.vip))
  }

  lemma DirectProof(seen: Net, n: Net, lb: Id, subnet: string, found: map<string, VSInfo>, name: string)
    requires name in found && Summary(seen, found[name]) && found[name].vip != NO_ID
    ensures forall w | OnOneVIP(seen, found, w) && Listed(n, lb, subnet, w) :: found[name].vip == w
    ensures Told(seen, n, lb, subnet, found, found[name].vip)
  {
  }

  lemma AddressProof(actor: string, seen: Net, n: Net, l: seq<Event>, lb: Id, subnet: string, found: map<string, VSInfo>, name: string,
                     vips: seq<VIPInfo>, at: nat)
    requires WellFormed(seen) && Span(actor, seen, l, [], n, l) && ListsVIPs(n, lb, subnet, vips) && at < |vips|
    requires name in found && Summary(seen, found[name]) && found[name].address != ""
    requires vips[at].address == found[name].address
    requires forall j | 0 <= j < |vips| && vips[j].address == found[name].address :: j == at
    ensures forall w | OnOneVIP(seen, found, w) && Listed(n, lb, subnet, w) :: vips[at].id == w
    ensures Told(seen, n, lb, subnet, found, vips[at].id)
  {
    var w := seen.listeners[found[name].id].vip;
    if Listed(n, lb, subnet, w) {
      var j :| 0 <= j < |vips| && vips[j].id == w;
      assert vips[j].address == n.vips[w].address == seen.vips[w].address;
    }
    forall w | OnOneVIP(seen, found, w) && Listed(n, lb, subnet, w) ensures vips[at].id == w {
      var j :| 0 <= j < |vips| && vips[j].id == w;
      assert vips[j].address == n.vips[w].address == seen.vips[w].address;
    }
  }

  lemma SoleProof(seen: Net, n: Net, lb: Id, subnet: string, found: map<string, VSInfo>, vips: seq<VIPInfo>)
    requires ListsVIPs(n, lb, subnet, vips) && |vips| == 1
    requires found != map[] && forall name | name in found :: found[name].id in seen.listeners
    ensures forall w | OnOneVIP(seen, found, w) && Listed(n, lb, subnet, w) :: vips[0].id == w
    ensures Told(seen, n, lb, subnet, found, vips[0].id)
  {
    var name :| name in found;
    if Listed(n, lb, subnet, seen.listeners[found[name].id].vip) {
      var j :| 0 <= j < |vips| && vips[j].id == seen.listeners[found[name].id].vip;
    }
    forall w | OnOneVIP(seen, found, w) && Listed(n, lb, subnet, w) ensures vips[0].id == w {
      var j :| 0 <= j < |vips| && vips[j].id == w;
    }
  }

  lemma FoundExist(n: Net, lb: Id, desired: seq<VirtualServer>, found: map<string, VSInfo>)
    requires FindsAll(n, lb, desired, found)
    ensures forall name | name in found :: found[name].id in n.listeners
  {
    forall name | name in found ensures found[name].id in n.listeners {
      assert Summary(n, found[name]);
    }
  }

  /** The VIP of the recovered listeners: the one that some listener names, else the one with their common address, else
      the only one there is. Never one that is not listed. */
  method ResolveVIP(c: Client, lb: Id, subnet: string, found: map<string, VSInfo>, ghost desired: seq<VirtualServer>)
    returns (r: Result<Recovered, Problem>)
    requires c.Valid() && found != map[] && FindsAll(c.net, lb, desired, found)
    modifies c`net, c`faults
    ensures c.Valid() && c.faults <= old(c.faults) && c.Only(old(c.net), old(c.log))
    ensures r.Ok? ==> r.value.found == found && Proven(old(c.net), c.net, lb, subnet, desired, r.value)
    ensures r.Err? ==> r.error == Refused || r.error.CallFailed?
  {
    hide Inv, Run, Span, WellFormed, Unique, Summary, Listed, OnOneVIP, Told;
    ghost var n0 := c.net;
    InvIsWellFormed(c.naming, n0);
    SpanNothing(c.actor, n0, c.log);
    var left := found.Keys;
    while left != {}
      invariant left <= found.Keys && c.net == n0 && c.log == old(c.log) && c.faults == old(c.faults) && c.Valid()
      decreases left
    {
      var name :| name in left;
      left := left - {name};
      var vip := found[name].vip;
      if vip != NO_ID {
        var vips := c.ListVIPs(lb, subnet);
        if vips.Err? {
          return Err(CallFailed(vips.error));
        }
        for i := 0 to |vips.value| {
          if vips.value[i].id == vip {
            DirectProof(n0, c.net, lb, subnet, found, name);
            return Ok(Recovered(found, vip, vips.value[i].address));
          }
        }
        return Err(Refused);
      }
    }
    r := ResolveByAddress(c, lb, subnet, found, desired);
  }

  method ResolveByAddress(c: Client, lb: Id, subnet: string, found: map<string, VSInfo>, ghost desired: seq<VirtualServer>)
    returns (r: Result<Recovered, Problem>)
    requires c.Valid() && found != map[] && FindsAll(c.net, lb, desired, found)
    modifies c`net, c`faults
    ensures c.Valid() && c.faults <= old(c.faults) && c.Only(old(c.net), old(c.log))
    ensures r.Ok? ==> r.value.found == found && Proven(old(c.net), c.net, lb, subnet, desired, r.value)
    ensures r.Err? ==> r.error == Refused || r.error.CallFailed?
  {
    hide Inv, Run, Span, WellFormed, Unique, Summary, Listed, OnOneVIP, Told;
    ghost var n0, l0 := c.net, c.log;
    InvIsWellFormed(c.naming, n0);
    SpanNothing(c.actor, n0, l0);
    var addresses := set name | name in found && found[name].address != "" :: found[name].address;
    if addresses != {} {
      var address :| address in addresses;
      if addresses != {address} {
        return Err(Refused);
      }
      var vips := c.ListVIPs(lb, subnet);
      ReadsKeepLog(c.actor, n0, l0, c.net, c.log);
      if vips.Err? {
        return Err(CallFailed(vips.error));
      }
      var at := -1;
      for i := 0 to |vips.value|
        invariant at == -1 || (0 <= at < i && vips.value[at].address == address)
        invariant forall j | 0 <= j < i && vips.value[j].address == address :: j == at
      {
        if vips.value[i].address == address {
          if at != -1 {
            return Err(Refused);
          }
          at := i;
        }
      }
      if at != -1 {
        ghost var name :| name in found && found[name].address == address && address != "";
        AddressProof(c.actor, n0, c.net, l0, lb, subnet, found, name, vips.value, at);
        return Ok(Recovered(found, vips.value[at].id, vips.value[at].address));
      }
    }
    ghost var n1 := c.net;
    InvIsWellFormed(c.naming, n1);
    var vips := c.ListVIPs(lb, subnet);
    ReadsKeepLog(c.actor, n1, l0, c.net, c.log);
    SpanThenReads(c.actor, n0, l0, [], n1, l0, c.net, c.log);
    if vips.Err? {
      return Err(CallFailed(vips.error));
    }
    if |vips.value| == 1 {
      FoundExist(n0, lb, desired, found);
      SoleProof(n0, c.net, lb, subnet, found, vips.value);
      return Ok(Recovered(found, vips.value[0].id, vips.value[0].address));
    }
    return Err(Refused);
  }

  /** Recovery reads only. Where all recovered listeners answer on one listed VIP, it is that VIP or an error, whatever
      order the listeners are looked at in. */
  method Recover(c: Client, lb: Id, subnet: string, desired: seq<VirtualServer>)
    returns (r: Result<Recovered, Problem>, ghost seen: Net)
    requires c.Valid() && forall i | 0 <= i < |desired| :: desired[i].name != ""
    modifies c`net, c`faults
    ensures c.Valid() && c.faults <= old(c.faults) && c.Only(old(c.net), old(c.log))
    ensures WellFormed(seen) && Span(c.actor, old(c.net), old(c.log), [], seen, old(c.log))
    ensures Span(c.actor, seen, old(c.log), [], c.net, c.log)
    ensures match r
            case Ok(found) => Proven(seen, c.net, lb, subnet, desired, found)
            case Err(e) => e == Refused || e.CallFailed?
  {
    hide Inv, Run, Span, WellFormed, Unique, FindsAll, OnOneVIP, Listed, Told;
    ghost var n0, l0 := c.net, c.log;
    InvIsWellFormed(c.naming, n0);
    var listed := c.ListVirtualServers(lb);
    seen := c.net;
    InvIsWellFormed(c.naming, seen);
    ReadsKeepLog(c.actor, n0, l0, seen, c.log);
    SpanNothing(c.actor, seen, l0);
    if listed.Err? {
      return Err(CallFailed(listed.error)), seen;
    }
    VirtualServers.ListedAreIssued(seen, lb, listed.value);
    var found := FindByNames(listed.value, desired, seen, lb);
    if found.Err? {
      return Err(found.error), seen;
    }
    if found.value == map[] {
      return Ok(Recovered(map[], NO_ID, "")), seen;
    }
    r := ResolveVIP(c, lb, subnet, found.value, desired);
    SpanThenReads(c.actor, n0, l0, [], seen, l0, c.net, c.log);
  }
}
