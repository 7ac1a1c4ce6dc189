/** The provider client of one pass, for load balancers, VIPs and listeners, together with the Kubernetes calls that
    persist a Service's state. Any call may fail, with or without having taken effect, as long as the adversary has
    faults left to spend. What a call requires is the guard of the protocol; what it does is logged as a protocol event. */
module Provider {
  import opened Common
  import opened Model
  import opened Cluster
  import opened Protocol
  import opened Safety
  import opened Progress
  import Ids

  datatype Failure = NotFound | AlreadyExists | Failed

  datatype Kind = LBServiceKind | VIPKind | VirtualServerKind

  /** Errors of the managers: a resource that is not ready yet, one that will never be, a call that failed, and
      everything the code itself refuses to do. */
  datatype Problem = Pending(kind: Kind, id: Id) | Terminal(kind: Kind, id: Id) | CallFailed(failure: Failure) | Refused

  datatype LBInfo = LBInfo(
    id: Id, name: string, status: string, operatingStatus: string, vpcID: string, networkID: string, region: string)

  datatype VIPInfo = VIPInfo(id: Id, address: string, networkID: string, ipVersion: string, status: string)

  datatype VSInfo = VSInfo(
    id: Id, name: string, vip: Id, address: string, protocol: string, port: int, status: string)

  function LBDetail(id: Id, l: LB): LBInfo {
    LBInfo(id, l.name, l.status, l.operatingStatus, l.vpcID, l.networkID, l.region)
  }

  function VIPDetail(id: Id, v: Vip): VIPInfo {
    VIPInfo(id, v.address, v.networkID, v.ipVersion, v.status)
  }

  function AddressOf(n: Net, vip: Id): string {
    if vip in n.vips then n.vips[vip].address else ""
  }

  function VSDetail(n: Net, id: Id): VSInfo
    requires id in n.listeners
  {
    var v := n.listeners[id];
    VSInfo(id, v.name, v.vip, AddressOf(n, v.vip), v.protocol, v.port, v.status)
  }

  /** A list entry shows the name, and of VIP, address, protocol and port either the truth or nothing. */
  predicate Summary(n: Net, s: VSInfo) {
    && s.id in n.listeners
    && var d := VSDetail(n, s.id);
    && s.name == d.name
    && (s.vip == NO_ID || s.vip == d.vip) && (s.address == "" || s.address == d.address)
    && (s.protocol == "" || s.protocol == d.protocol) && (s.port == 0 || s.port == d.port)
  }

  /** The complete list of listeners of a load balancer, each once. */
  ghost predicate ListsListeners(n: Net, lb: Id, list: seq<VSInfo>) {
    && (forall i | 0 <= i < |list| :: Summary(n, list[i]) && n.listeners[list[i].id].lb == lb)
    && (forall i, j | 0 <= i < |list| && 0 <= j < |list| && list[i].id == list[j].id :: i == j)
    && (forall id | id in n.listeners && n.listeners[id].lb == lb :: exists i :: 0 <= i < |list| && list[i].id == id)
  }

  ghost predicate ListsLBs(n: Net, list: seq<LBInfo>) {
    && (forall i | 0 <= i < |list| :: list[i].id in n.lbs && list[i] == LBDetail(list[i].id, n.lbs[list[i].id]))
    && (forall i, j | 0 <= i < |list| && 0 <= j < |list| && list[i].id == list[j].id :: i == j)
    && (forall id | id in n.lbs :: exists i :: 0 <= i < |list| && list[i].id == id)
  }

  /** The VIPs of a load balancer. One in another subnet than the one asked for may be missing. */
  ghost predicate ListsVIPs(n: Net, lb: Id, subnet: string, list: seq<VIPInfo>) {
    && (forall i | 0 <= i < |list| ::
          list[i].id in n.vips && n.vips[list[i].id].lb == lb && list[i] == VIPDetail(list[i].id, n.vips[list[i].id]))
    && (forall i, j | 0 <= i < |list| && 0 <= j < |list| && list[i].id == list[j].id :: i == j)
    && (forall id | id in n.vips && n.vips[id].lb == lb && n.vips[id].networkID in {"", subnet} ::
          exists i :: 0 <= i < |list| && list[i].id == id)
  }

  class Client {
    const naming: Naming
    /** The Service that the pass is about. */
    const actor: string
    /** A provider without background activity: nothing changes between calls. */
    const quiet: bool
    ghost const init: Net
    var net: Net
    var faults: nat
    ghost var log: seq<Event>

    ghost predicate Valid()
      reads this
    {
      Inv(naming, init) && Run(naming, init, log, net) && Inv(naming, net)
    }

    constructor (naming: Naming, actor: string, quiet: bool, net: Net, faults: nat)
      requires Inv(naming, net)
      ensures Valid() && this.naming == naming && this.actor == actor && this.quiet == quiet && this.net == net && this.faults == faults
      ensures init == net && log == []
    {
      this.naming := naming;
      this.actor := actor;
      this.quiet := quiet;
      this.init := net;
      this.net := net;
      this.faults := faults;
      this.log := [];
      EvolvesIsReflexive(net);
    }

    /** The last call, issued after `n0` and `l0`. */
    ghost predicate Issued(n0: Net, l0: seq<Event>, call: Call)
      reads this
    {
      && |log| == |l0| + 1 && log[..|l0|] == l0
      && (OnProvider(call) ==> Span(actor, n0, l0, [call], net, log))
      && var e := log[|l0|];
      && e.actor == Controller(actor) && e.call == call && e.post == net
      && Span(actor, n0, l0, [], e.pre, l0) && (quiet ==> e.pre == n0)
      && (e.post == e.pre || Effect(e.pre, e.actor, call, e.post))
    }

    ghost predicate Only(n0: Net, l0: seq<Event>)
      reads this
    {
      Span(actor, n0, l0, [], net, log) && (quiet ==> net == n0)
    }

    /** The provider makes progress between two calls. */
    method Settle()
      requires Valid()
      modifies this`net
      ensures Valid() && Only(old(net), old(log)) && Evolves(old(net), net) && log == old(log)
    {
      hide Inv, Run, Evolves, Later, Span, AddsOnly;
      InvIsWellFormed(naming, net);
      EvolvesIsReflexive(net);
      EvolvesIsLater(net, net);
      EvolvesAddsNothing(net, net);
      SpanReads(actor, net, log, net);
      if !quiet {
        var later: Net := *;
        if Evolves(net, later) {
          EvolvesIsLater(net, later);
          EvolvesAddsNothing(net, later);
          SpanReads(actor, net, log, later);
          InvEvolves(naming, net, later);
          RunDrifts(naming, init, log, net, later);
          net := later;
        }
      }
    }

    ghost method Record(call: Call, n0: Net, mid: Net)
      requires Inv(naming, init) && Run(naming, init, log, mid) && Inv(naming, mid)
      requires Guard(naming, mid, Controller(actor), call)
      requires WellFormed(n0) && Evolves(n0, mid) && (quiet ==> mid == n0)
      requires net == mid || Effect(mid, Controller(actor), call, net)
      modifies this`log
      ensures Valid() && Issued(n0, old(log), call) && log[|old(log)|].pre == mid
    {
      hide Inv, Run, Guard, Effect, Later, WellFormed, Span, AddsOnly, OnProvider, Doomed;
      var e := Event(Controller(actor), call, mid, net);
      LegalKeepsInv(naming, e);
      InvIsWellFormed(naming, mid);
      InvIsWellFormed(naming, net);
      EvolvesIsReflexive(net);
      EvolvesIsLater(n0, mid);
      EvolvesAddsNothing(n0, mid);
      SpanReads(actor, n0, log, mid);
      CallAddsOnly(n0, e, actor);
      if OnProvider(call) {
        CallIsLater(naming, e, actor);
        LaterIsTransitive(n0, mid, net, NO_DOOM, Doomed(call));
        PlusIsAssociative(Doomed(call), NO_DOOM, NO_DOOM);
        SpanCall(actor, n0, log, e, net);
      }
      RunGrows(naming, init, log, e, net);
      log := log + [e];
    }

    /** Time passes until the provider has done what a caller waits for; it may do more. */
    method Await(p: Problem)
      requires Valid() && (p.Pending? ==> UnderWay(net, p))
      modifies this`net
      ensures Valid() && Evolves(old(net), net) && Span(actor, old(net), old(log), [], net, log)
      ensures p.Pending? ==> Over(net, p)
    {
      hide Inv, Run, Evolves, Later, Span, AddsOnly;
      InvIsWellFormed(naming, net);
      CompletedEvolves(net);
      CompletedIsOver(net, p);
      var later: Net := *;
      if !(Evolves(net, later) && (p.Pending? ==> Over(later, p))) {
        later := Completed(net);
      }
      EvolvesIsLater(net, later);
      EvolvesAddsNothing(net, later);
      SpanReads(actor, net, log, later);
      InvEvolves(naming, net, later);
      RunDrifts(naming, init, log, net, later);
      net := later;
    }

    /** The adversary may spend a fault on this call. */
    method Strikes() returns (hit: bool)
      modifies this`faults
      ensures faults <= old(faults) && (hit ==> faults < old(faults)) && (!hit ==> faults == old(faults))
    {
      hit := *;
      hit := hit && faults > 0;
      if hit {
        faults := faults - 1;
      }
    }

    // ----- Reading -----

    method GetLBService(id: Id) returns (r: Result<LBInfo, Failure>)
      requires Valid()
      modifies this`net, this`faults
      ensures Valid() && Only(old(net), old(log)) && faults <= old(faults)
      ensures r.Ok? ==> id in net.lbs && net.lbs[id].readable && r.value == LBDetail(id, net.lbs[id])
      ensures r == Err(NotFound) ==> Vacant(net, id)
      ensures r.Err? && r.error != NotFound ==> faults < old(faults)
    {
      hide Inv, Run, Evolves, Span;
      Settle();
      var hit := Strikes();
      if hit {
        return Err(Failed);
      }
      if id in net.lbs && net.lbs[id].readable {
        return Ok(LBDetail(id, net.lbs[id]));
      }
      return Err(NotFound);
    }

    method ListLBServices() returns (r: Result<seq<LBInfo>, Failure>)
      requires Valid()
      modifies this`net, this`faults
      ensures Valid() && Only(old(net), old(log)) && faults <= old(faults)
      ensures r.Ok? ==> ListsLBs(net, r.value)
      ensures r.Err? ==> faults < old(faults)
    {
      hide Inv, Run, Evolves, Span;
      Settle();
      var hit := Strikes();
      if hit {
        return Err(Failed);
      }
      var left := net.lbs.Keys;
      var list: seq<LBInfo> := [];
      while left != {}
        invariant left <= net.lbs.Keys
        invariant forall i | 0 <= i < |list| ::
            list[i].id in net.lbs && list[i].id !in left && list[i] == LBDetail(list[i].id, net.lbs[list[i].id])
        invariant forall i, j | 0 <= i < |list| && 0 <= j < |list| && list[i].id == list[j].id :: i == j
        invariant forall id | id in net.lbs && id !in left :: exists i :: 0 <= i < |list| && list[i].id == id
        decreases left
      {
        var id :| id in left;
        ghost var before := list;
        list := list + [LBDetail(id, net.lbs[id])];
        left := left - {id};
        assert list[|before|].id == id;
        assert forall i | 0 <= i < |before| :: list[i] == before[i];
      }
      return Ok(list);
    }

    method ListVIPs(lb: Id, subnet: string) returns (r: Result<seq<VIPInfo>, Failure>)
      requires Valid()
      modifies this`net, this`faults
      ensures Valid() && Only(old(net), old(log)) && faults <= old(faults)
      ensures r.Ok? ==> ListsVIPs(net, lb, subnet, r.value)
      ensures r.Err? ==> faults < old(faults)
    {
      hide Inv, Run, Evolves, Span;
      Settle();
      var hit := Strikes();
      if hit {
        return Err(Failed);
      }
      var left := net.vips.Keys;
      var list: seq<VIPInfo> := [];
      while left != {}
        invariant left <= net.vips.Keys
        invariant forall i | 0 <= i < |list| ::
            && list[i].id in net.vips && list[i].id !in left && net.vips[list[i].id].lb == lb
            && list[i] == VIPDetail(list[i].id, net.vips[list[i].id])
        invariant forall i, j | 0 <= i < |list| && 0 <= j < |list| && list[i].id == list[j].id :: i == j
        invariant forall id | id in net.vips && id !in left && net.vips[id].lb == lb && net.vips[id].networkID in {"", subnet} ::
            exists i :: 0 <= i < |list| && list[i].id == id
        decreases left
      {
        var id :| id in left;
        left := left - {id};
        var elsewhere := *;
        if net.vips[id].lb == lb && (net.vips[id].networkID in {"", subnet} || elsewhere) {
          ghost var before := list;
          list := list + [VIPDetail(id, net.vips[id])];
          assert list[|before|].id == id;
          assert forall i | 0 <= i < |before| :: list[i] == before[i];
        }
      }
      return Ok(list);
    }

    /** One entry of a listener list, with what the provider chooses to leave out. */
    method Summarize(id: Id) returns (s: VSInfo)
      requires id in net.listeners
      ensures s.id == id && Summary(net, s)
    {
      s := VSDetail(net, id);
      var noVip, noAddress, noProtocol, noPort := *, *, *, *;
      if noVip { s := s.(vip := NO_ID); }
      if noAddress { s := s.(address := ""); }
      if noProtocol { s := s.(protocol := ""); }
      if noPort { s := s.(port := 0); }
    }

    method ListVirtualServers(lb: Id) returns (r: Result<seq<VSInfo>, Failure>)
      requires Valid()
      modifies this`net, this`faults
      ensures Valid() && Only(old(net), old(log)) && faults <= old(faults)
      ensures r.Ok? ==> ListsListeners(net, lb, r.value)
      ensures r.Err? ==> faults < old(faults)
    {
      hide Inv, Run, Evolves, Span;
      Settle();
      var hit := Strikes();
      if hit {
        return Err(Failed);
      }
      var left := net.listeners.Keys;
      var list: seq<VSInfo> := [];
      while left != {}
        invariant left <= net.listeners.Keys
        invariant forall i | 0 <= i < |list| ::
            Summary(net, list[i]) && list[i].id !in left && net.listeners[list[i].id].lb == lb
        invariant forall i, j | 0 <= i < |list| && 0 <= j < |list| && list[i].id == list[j].id :: i == j
        invariant forall id | id in net.listeners && id !in left && net.listeners[id].lb == lb ::
            exists i :: 0 <= i < |list| && list[i].id == id
        modifies {}
        decreases left
      {
        var id :| id in left;
        left := left - {id};
        if net.listeners[id].lb == lb {
          var entry := Summarize(id);
          ghost var before := list;
          list := list + [entry];
          assert list[|before|].id == id;
          assert forall i | 0 <= i < |before| :: list[i] == before[i];
        }
      }
      return Ok(list);
    }

    method GetVirtualServer(lb: Id, id: Id) returns (r: Result<VSInfo, Failure>)
      requires Valid()
      modifies this`net, this`faults
      ensures Valid() && Only(old(net), old(log)) && faults <= old(faults)
      ensures r.Ok? ==> id in net.listeners && net.listeners[id].lb == lb && net.listeners[id].readable && r.value == VSDetail(net, id)
      ensures r == Err(NotFound) ==> id in net.listeners && net.listeners[id].lb == lb ==> !net.listeners[id].readable
      ensures r.Err? && r.error != NotFound ==> faults < old(faults)
    {
      hide Inv, Run, Evolves, Span;
      Settle();
      var hit := Strikes();
      if hit {
        return Err(Failed);
      }
      if id in net.listeners && net.listeners[id].lb == lb && net.listeners[id].readable {
        return Ok(VSDetail(net, id));
      }
      return Err(NotFound);
    }

    // ----- Changing the provider -----

    /** What a create call may answer when it did not succeed. */
    method Refusal() returns (f: Failure)
      ensures f != NotFound
    {
      var conflict := *;
      f := if conflict then AlreadyExists else Failed;
    }

    method CreateLBService(name: string, networkID: string, vpcID: string) returns (r: Result<Id, Failure>)
      requires Valid() && ControllerGuard(naming, net, actor, CreateLB(name))
      modifies this
      ensures Valid() && Issued(old(net), old(log), CreateLB(name)) && faults <= old(faults)
      ensures r.Ok? ==> r.value != NO_ID && CreatesLB(log[|old(log)|].pre, net, name, r.value)
      ensures r.Ok? ==> net.lbs[r.value].networkID == networkID && net.lbs[r.value].vpcID == vpcID
      ensures r.Err? ==> r.error != NotFound && faults < old(faults)
    {
      hide Inv, Run, Evolves, Span, WellFormed, Doomed, ControllerGuard, Created;
      InvIsWellFormed(naming, net);
      ghost var n0, call := net, CreateLB(name);
      Settle();
      ghost var mid := net;
      GuardEvolves(naming, n0, mid, actor, call);
      GuardKnowsActor(naming, mid, actor, call);
      var hit := Strikes();
      var lost := *;
      var id := Ids.Issue(net.issued);
      if !hit || lost {
        var l: LB := *;
        l := l.(name := name, networkID := networkID, vpcID := vpcID);
        net := net.(lbs := net.lbs[id := l], issued := net.issued + {id});
        CreatedIntro(mid.lbs, id, l, mid.issued);
        assert CreatesLB(mid, net, name, id);
      }
      Record(call, n0, mid);
      if hit {
        var f := Refusal();
        return Err(f);
      }
      return Ok(id);
    }

    method DeleteLBService(lb: Id, why: Why) returns (r: Result<(), Failure>)
      requires Valid() && ControllerGuard(naming, net, actor, DeleteLB(lb, why))
      modifies this
      ensures Valid() && Issued(old(net), old(log), DeleteLB(lb, why)) && faults <= old(faults)
      ensures r.Ok? || r.error == NotFound ==> lb in net.lbs ==> net.lbs[lb].status == DELETING
      ensures r.Err? && r.error != NotFound ==> faults < old(faults)
    {
      hide Inv, Run, Evolves, Span, WellFormed, Doomed, ControllerGuard;
      InvIsWellFormed(naming, net);
      ghost var n0, call := net, DeleteLB(lb, why);
      Settle();
      ghost var mid := net;
      GuardEvolves(naming, n0, mid, actor, call);
      GuardKnowsActor(naming, mid, actor, call);
      var hit := Strikes();
      var lost := *;
      if lb in net.lbs && (!hit || lost) {
        net := net.(lbs := net.lbs[lb := net.lbs[lb].(status := DELETING)]);
      }
      Record(call, n0, mid);
      var absent := *;
      return if hit then Err(Failed) else if lb !in net.lbs && absent then Err(NotFound) else Ok(());
    }

    method CreateVIP(lb: Id, subnet: string) returns (r: Result<VIPInfo, Failure>)
      requires Valid() && ControllerGuard(naming, net, actor, Call.CreateVIP(lb))
      modifies this
      ensures Valid() && Issued(old(net), old(log), Call.CreateVIP(lb)) && faults <= old(faults)
      ensures r.Ok? ==> CreatesVIP(log[|old(log)|].pre, net, lb, r.value.id)
      ensures r.Ok? ==> net.vips[r.value.id].networkID == subnet
      ensures r.Ok? ==> r.value.address == "" || r.value.address == net.vips[r.value.id].address
      ensures r.Err? ==> faults < old(faults) || Vacant(net, lb)
    {
      hide Inv, Run, Evolves, Span, WellFormed, Doomed, ControllerGuard, Created;
      InvIsWellFormed(naming, net);
      ghost var n0, call := net, Call.CreateVIP(lb);
      Settle();
      ghost var mid := net;
      GuardEvolves(naming, n0, mid, actor, call);
      GuardKnowsActor(naming, mid, actor, call);
      var hit := Strikes();
      var lost, silent := *, *;
      var id := Ids.Issue(net.issued);
      var able := lb in net.lbs && net.lbs[lb].readable;
      var v: Vip := *;
      v := v.(lb := lb, networkID := subnet);
      if able && (!hit || lost) {
        net := net.(vips := net.vips[id := v], issued := net.issued + {id});
        CreatedIntro(mid.vips, id, v, mid.issued);
        assert CreatesVIP(mid, net, lb, id);
      }
      Record(call, n0, mid);
      if hit {
        var f := Refusal();
        return Err(f);
      }
      if !able {
        return Err(NotFound);
      }
      return Ok(if silent then VIPDetail(id, v).(address := "") else VIPDetail(id, v));
    }

    method DeleteVIP(lb: Id, vip: Id, why: Why) returns (r: Result<(), Failure>)
      requires Valid() && ControllerGuard(naming, net, actor, Call.DeleteVIP(lb, vip, why))
      modifies this
      ensures Valid() && Issued(old(net), old(log), Call.DeleteVIP(lb, vip, why)) && faults <= old(faults)
      ensures r.Ok? || r.error == NotFound ==> vip in net.vips && net.vips[vip].lb == lb ==> net.vips[vip].status == DELETING
      ensures r.Err? && r.error != NotFound ==> faults < old(faults)
    {
      hide Inv, Run, Evolves, Span, WellFormed, Doomed, ControllerGuard;
      InvIsWellFormed(naming, net);
      ghost var n0, call := net, Call.DeleteVIP(lb, vip, why);
      Settle();
      ghost var mid := net;
      GuardEvolves(naming, n0, mid, actor, call);
      GuardKnowsActor(naming, mid, actor, call);
      var hit := Strikes();
      var lost := *;
      var able := vip in net.vips && net.vips[vip].lb == lb;
      if able && (!hit || lost) {
        net := net.(vips := net.vips[vip := net.vips[vip].(status := DELETING)]);
      }
      Record(call, n0, mid);
      var absent := *;
      return if hit then Err(Failed) else if !able && absent then Err(NotFound) else Ok(());
    }

    /** `front` only serves to state the guard. */
    method CreateVirtualServer(lb: Id, name: string, vip: Id, protocol: string, port: int, ghost front: Frontend)
      returns (r: Result<Id, Failure>)
      requires Valid() && ControllerGuard(naming, net, actor, CreateListener(lb, name, vip, protocol, port, front))
      modifies this
      ensures Valid() && Issued(old(net), old(log), CreateListener(lb, name, vip, protocol, port, front)) && faults <= old(faults)
      ensures r.Ok? ==> actor in net.services
                        && CreatesListener(log[|old(log)|].pre, net, net.services[actor].uid,
                                           CreateListener(lb, name, vip, protocol, port, front), r.value)
      ensures r.Err? ==> faults < old(faults) || Vacant(net, lb)
    {
      hide Inv, Run, Evolves, Span, WellFormed, Doomed, ControllerGuard, Created;
      InvIsWellFormed(naming, net);
      ghost var n0, call := net, CreateListener(lb, name, vip, protocol, port, front);
      Settle();
      ghost var mid := net;
      GuardEvolves(naming, n0, mid, actor, call);
      GuardKnowsActor(naming, mid, actor, call);
      var hit := Strikes();
      var lost := *;
      var id := Ids.Issue(net.issued);
      var able := lb in net.lbs && net.lbs[lb].readable && actor in net.services;
      if able && (!hit || lost) {
        var v: Listener := *;
        v := Listener(lb, name, vip, protocol, port, v.status, v.readable, net.services[actor].uid);
        net := net.(listeners := net.listeners[id := v], issued := net.issued + {id}, seats := net.seats + {SeatOf(v)});
        CreatedIntro(mid.listeners, id, v, mid.issued);
        assert CreatesListener(mid, net, net.services[actor].uid, call, id);
      }
      Record(call, n0, mid);
      if hit {
        var f := Refusal();
        return Err(f);
      }
      return if able then Ok(id) else Err(NotFound);
    }

    method DeleteVirtualServer(lb: Id, id: Id) returns (r: Result<(), Failure>)
      requires Valid() && ControllerGuard(naming, net, actor, DeleteListener(lb, id))
      modifies this
      ensures Valid() && Issued(old(net), old(log), DeleteListener(lb, id)) && faults <= old(faults)
      ensures r.Ok? || r.error == NotFound ==>
                id in net.listeners && net.listeners[id].lb == lb ==> net.listeners[id].status == DELETING
      ensures r.Err? && r.error != NotFound ==> faults < old(faults)
    {
      hide Inv, Run, Evolves, Span, WellFormed, Doomed, ControllerGuard;
      InvIsWellFormed(naming, net);
      ghost var n0, call := net, DeleteListener(lb, id);
      Settle();
      ghost var mid := net;
      GuardEvolves(naming, n0, mid, actor, call);
      GuardKnowsActor(naming, mid, actor, call);
      var hit := Strikes();
      var lost := *;
      var able := id in net.listeners && net.listeners[id].lb == lb;
      if able && (!hit || lost) {
        net := net.(listeners := net.listeners[id := net.listeners[id].(status := DELETING)]);
      }
      Record(call, n0, mid);
      var absent := *;
      return if hit then Err(Failed) else if !able && absent then Err(NotFound) else Ok(());
    }

    // ----- Persisting a Service's state -----

    /** A Kubernetes write to the Service of this pass: it succeeds, or it fails with or without having taken effect. */
    method WriteService(ghost call: Call, to: Service) returns (ok: bool)
      requires Valid() && ControllerGuard(naming, net, actor, call) && actor in net.services
      requires match call
               case AddFinalizer => to == net.services[actor].(finalizer := true)
               case RemoveFinalizer => to == net.services[actor].(finalizer := false)
               case Patch(p, _) => to == p
               case _ => false
      modifies this
      ensures Valid() && Issued(old(net), old(log), call) && faults <= old(faults)
      ensures ok ==> net == log[|old(log)|].pre.(services := old(net).services[actor := to])
      ensures net == log[|old(log)|].pre.(services := net.services)
      ensures net.namespace == old(net).namespace && (net.services == old(net).services || net.services == old(net).services[actor := to])
      ensures !ok ==> faults < old(faults)
    {
      hide Inv, Run, Evolves, Span, WellFormed, Doomed, ControllerGuard;
      InvIsWellFormed(naming, net);
      ghost var n0 := net;
      Settle();
      ghost var mid := net;
      EvolvesKeepsServices(n0, mid);
      GuardEvolves(naming, n0, mid, actor, call);
      var hit := Strikes();
      var lost := *;
      if !hit || lost {
        net := net.(services := net.services[actor := to]);
      }
      Record(call, n0, mid);
      return !hit;
    }
  }

  // ----- Waiting -----

  /** The deletion that a caller waits for has been accepted. */
  predicate UnderWay(n: Net, p: Problem)
    requires p.Pending?
  {
    match p.kind
    case LBServiceKind => p.id in n.lbs ==> n.lbs[p.id].status == DELETING
    case VIPKind => p.id in n.vips ==> n.vips[p.id].status == DELETING
    case VirtualServerKind => p.id in n.listeners ==> n.listeners[p.id].status == DELETING
  }

  /** It is done. */
  predicate Over(n: Net, p: Problem)
    requires p.Pending?
  {
    match p.kind
    case LBServiceKind => p.id !in n.lbs
    case VIPKind => p.id !in n.vips
    case VirtualServerKind => Gone(n, p.id)
  }

  /** The provider has completed all deletions. */
  function Completed(n: Net): Net {
    var lbs := map id | id in n.lbs && n.lbs[id].status != DELETING :: n.lbs[id];
    n.(lbs := lbs,
       vips := map id | id in n.vips && n.vips[id].status != DELETING && n.vips[id].lb in lbs :: n.vips[id],
       listeners := map id | id in n.listeners && n.listeners[id].status != DELETING && n.listeners[id].lb in lbs :: n.listeners[id])
  }

  lemma CompletedEvolves(n: Net)
    requires WellFormed(n)
    ensures Evolves(n, Completed(n))
  {
  }

  lemma CompletedIsOver(n: Net, p: Problem)
    requires p.Pending? ==> UnderWay(n, p)
    ensures p.Pending? ==> Over(Completed(n), p)
  {
  }

  lemma GuardKnowsActor(nm: Naming, n: Net, name: string, call: Call)
    requires ControllerGuard(nm, n, name, call)
    ensures name in n.services
  {
  }

  lemma EvolvesKeepsServices(a: Net, b: Net)
    requires Evolves(a, b)
    ensures b.services == a.services && b.namespace == a.namespace && b.issued == a.issued
  {
  }

  lemma CreatedIntro<T>(before: map<Id, T>, id: Id, v: T, issued: set<Id>)
    requires id != NO_ID && id !in issued
    ensures Created(before, before[id := v], id, issued)
  {
  }

  lemma InvIsWellFormed(nm: Naming, n: Net)
    requires Inv(nm, n)
    ensures WellFormed(n) && Unique(n)
  {
  }
}
