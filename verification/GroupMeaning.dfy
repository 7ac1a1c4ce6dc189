/** What a compiled Ingress group is, said of the Ingresses themselves: their rules, paths and default backends. */
module GroupMeaning {
  import opened Common
  import opened Text
  import opened IngressShape
  import opened IngressGroup
  import opened RoutingTable
  import M = Model

  // ----- What the members ask for -----

  /** A path of a rule: its host in lower case without surrounding space, its match type, its path, and its backend. */
  predicate IsLine(rule: Rule, p: Path, host: string, match_: string, path: string, ref: ServiceRef) {
    && host == Lower(TrimSpace(rule.host)) && path == p.path && p.backend.service == Some(ref)
    && p.pathType.Some? && match_ == (if p.pathType.value == PathType.Exact then "exact" else "prefix")
  }

  ghost predicate RuleAsks(rule: Rule, host: string, match_: string, path: string, ref: ServiceRef) {
    rule.http.Some? && exists p :: p in rule.http.value && IsLine(rule, p, host, match_, path, ref)
  }

  ghost predicate RulesAsk(rules: seq<Rule>, host: string, match_: string, path: string, ref: ServiceRef) {
    exists rule :: rule in rules && RuleAsks(rule, host, match_, path, ref)
  }

  ghost predicate Asks(members: seq<Ingress>, host: string, match_: string, path: string, ref: ServiceRef) {
    exists m :: m in members && RulesAsk(m.rules, host, match_, path, ref)
  }

  predicate HasDefault(m: Ingress, ref: ServiceRef) {
    m.defaultBackend.Some? && m.defaultBackend.value.service == Some(ref)
  }

  ghost predicate AsksDefault(members: seq<Ingress>, ref: ServiceRef) {
    exists m :: m in members && HasDefault(m, ref)
  }

  /** Some path or default backend goes there. */
  ghost predicate Uses(members: seq<Ingress>, ref: ServiceRef) {
    AsksDefault(members, ref) || exists host, match_, path :: Asks(members, host, match_, path, ref)
  }

  function PoolNamed(namespace: string, ref: ServiceRef): string {
    SafeName("ing-pool-" + namespace + "-" + ref.name + "-" + ref.portName + "-" + Itoa(ref.portNumber))
  }

  /** Every backend that is used has a node port. */
  ghost predicate Reachable(members: seq<Ingress>, namespace: string, resolver: Resolver) {
    forall ref | Uses(members, ref) :: resolver(namespace, ref).Ok? && resolver(namespace, ref).value.nodePort != 0
  }

  /** No host, match and path goes to two pools, and there are no two default pools. */
  ghost predicate Unambiguous(members: seq<Ingress>, namespace: string) {
    && (forall host, match_, path, a, b | Asks(members, host, match_, path, a) && Asks(members, host, match_, path, b) ::
          PoolNamed(namespace, a) == PoolNamed(namespace, b))
    && (forall a, b | AsksDefault(members, a) && AsksDefault(members, b) :: PoolNamed(namespace, a) == PoolNamed(namespace, b))
  }

  /** Hosts contain no bar; names of Services and ports no colon. */
  ghost predicate Plain(members: seq<Ingress>) {
    && (forall m, rule | m in members && rule in m.rules :: '|' !in Lower(TrimSpace(rule.host)))
    && (forall ref | Uses(members, ref) :: ':' !in ref.name && ':' !in ref.portName)
  }

  // ----- What the stack has -----

  /** The pool of a backend: a member per node, on the node port, and the monitor that the group is configured for. */
  predicate IsPool(p: M.Pool, namespace: string, cfg: LBConfig, ref: ServiceRef, targets: BackendSet) {
    && p.name == PoolNamed(namespace, ref) && p.service == ref.name && p.portName == ref.portName && p.port == ref.portNumber
    && |p.members| == |targets.nodes|
    && (forall i | 0 <= i < |p.members| ::
          p.members[i].ip == targets.nodes[i].ip && p.members[i].port == targets.nodePort && p.members[i].weight == targets.nodes[i].weight)
    && p.monitor.Some? && p.monitor.value.kind == cfg.healthType && p.monitor.value.path == cfg.healthPath
    && p.monitor.value.interval == cfg.healthInterval
  }

  predicate IsRule(rule: M.RoutingRule, host: string, match_: string, path: string, pool: string) {
    rule.host == host && rule.matchType == match_ && rule.path == path && rule.poolName == pool
  }

  /** One listener for HTTP, and one for HTTPS if and only if some member has TLS, on the configured ports or the usual ones. */
  predicate ListenersFit(stack: M.Stack, members: seq<Ingress>, cfg: LBConfig, opts: Options) {
    && |stack.virtualServers| == (if exists m | m in members :: m.tls != [] then 2 else 1)
    && (forall i | 0 <= i < |stack.virtualServers| ::
          var vs := stack.virtualServers[i];
          && vs.protocol == (if i == 0 then "HTTP" else "HTTPS")
          && vs.frontendPort == (if i == 0 then (if opts.httpPort == 0 then 80 else opts.httpPort)
                                 else if opts.httpsPort == 0 then 443 else opts.httpsPort)
          && vs.routingAlgorithm == cfg.routingAlgorithm && vs.persistenceType == cfg.persistenceType
          && vs.drainingTimeout == cfg.drainingTimeout && vs.sourceRanges == cfg.sourceRanges)
  }

  /** The routing table has a rule for every host, match and path that is asked for, to the pool of its backend, and no other; each
      once, in order of priority. The pools are exactly those of the backends in use. The listeners' default pool is that of the
      default backend, or none. */
  ghost predicate Compiled(stack: M.Stack, members: seq<Ingress>, namespace: string, cfg: LBConfig, opts: Options, resolver: Resolver) {
    && (forall host, match_, path, pool ::
          HasRule(stack.routingRules, host, match_, path, pool) <==> AsksPool(members, namespace, host, match_, path, pool))
    && RulesAreFunctional(stack.routingRules)
    && (forall n | 0 <= n < |stack.routingRules| :: stack.routingRules[n].priority == n + 1)
    && (forall ref | Uses(members, ref) :: HasPool(stack.pools, namespace, cfg, ref, resolver))
    && (forall p | p in stack.pools :: IsUsed(p, members, namespace, cfg, resolver))
    && (forall m, n | 0 <= m < n < |stack.pools| :: !SamePort(stack.pools[m], stack.pools[n]))
    && ListenersFit(stack, members, cfg, opts) && CertificatesFit(stack.certificates, members)
    && (forall vs | vs in stack.virtualServers :: IsDefaultPool(vs.defaultPoolName, members, namespace))
  }

  /** One certificate per TLS entry of a member, for its secret and hosts. */
  ghost predicate CertificatesFit(certificates: seq<M.Certificate>, members: seq<Ingress>) {
    && (forall m, t | m in members && t in m.tls :: HasCertificate(certificates, t))
    && (forall c | c in certificates :: exists m :: m in members && TLS(c.hosts, c.secretName) in m.tls)
  }

  predicate HasCertificate(certificates: seq<M.Certificate>, t: TLS) {
    exists c :: c in certificates && c.secretName == t.secretName && c.hosts == t.hosts
  }

  ghost predicate HasRule(rules: seq<M.RoutingRule>, host: string, match_: string, path: string, pool: string) {
    exists rule :: rule in rules && IsRule(rule, host, match_, path, pool)
  }

  ghost predicate AsksPool(members: seq<Ingress>, namespace: string, host: string, match_: string, path: string, pool: string) {
    exists ref :: Asks(members, host, match_, path, ref) && pool == PoolNamed(namespace, ref)
  }

  ghost predicate HasPool(pools: seq<M.Pool>, namespace: string, cfg: LBConfig, ref: ServiceRef, resolver: Resolver) {
    resolver(namespace, ref).Ok? && exists p :: p in pools && IsPool(p, namespace, cfg, ref, resolver(namespace, ref).value)
  }

  ghost predicate IsUsed(p: M.Pool, members: seq<Ingress>, namespace: string, cfg: LBConfig, resolver: Resolver) {
    exists ref :: Uses(members, ref) && resolver(namespace, ref).Ok? && IsPool(p, namespace, cfg, ref, resolver(namespace, ref).value)
  }

  /** The pool of the default backend, or none without one. */
  ghost predicate IsDefaultPool(pool: string, members: seq<Ingress>, namespace: string) {
    && (forall ref | AsksDefault(members, ref) :: pool == PoolNamed(namespace, ref))
    && ((forall ref :: !AsksDefault(members, ref)) ==> pool == "")
  }

  // ----- Routes are what the members ask for -----

  /** The compiler's route for a path, or for a default backend. */
  predicate Shows(r: Route, host: string, match_: string, path: string, ref: ServiceRef) {
    !r.isDefault && r.host == host && r.match_ == match_ && r.path == path && r.backend == ref
  }

  ghost predicate HasRoute(rs: seq<Route>, host: string, match_: string, path: string, ref: ServiceRef) {
    exists r :: r in rs && Shows(r, host, match_, path, ref)
  }

  ghost predicate HasDefaultRoute(rs: seq<Route>, ref: ServiceRef) {
    exists r :: r in rs && r.isDefault && r.backend == ref
  }

  lemma PathRoutesMean(namespace: string, rule: Rule)
    requires GoodRule(rule)
    ensures forall host, match_, path, ref ::
              HasRoute(PathRoutes(namespace, rule.host, rule.http.value), host, match_, path, ref) <==> RuleAsks(rule, host, match_, path, ref)
    ensures forall ref :: !HasDefaultRoute(PathRoutes(namespace, rule.host, rule.http.value), ref)
  {
    hide BackendKey, PoolName, Lower, TrimSpace;
    var paths := rule.http.value;
    var rs := PathRoutes(namespace, rule.host, paths);
    forall i | 0 <= i < |paths|
      ensures GoodPath(paths[i]) && rs[i] == PathRoute(namespace, rule.host, paths[i])
    {
      assert paths[i] in paths;
    }
    forall host, match_, path, ref
      ensures HasRoute(rs, host, match_, path, ref) <==> RuleAsks(rule, host, match_, path, ref)
    {
      if HasRoute(rs, host, match_, path, ref) {
        var i :| 0 <= i < |rs| && Shows(rs[i], host, match_, path, ref);
        assert paths[i] in paths && IsLine(rule, paths[i], host, match_, path, ref);
      }
      if RuleAsks(rule, host, match_, path, ref) {
        var p :| p in paths && IsLine(rule, p, host, match_, path, ref);
        var i :| 0 <= i < |paths| && paths[i] == p;
        assert rs[i] in rs && Shows(rs[i], host, match_, path, ref);
      }
    }
  }

  lemma BothHaveRoutes(a: seq<Route>, b: seq<Route>)
    ensures forall host, match_, path, ref ::
              HasRoute(a + b, host, match_, path, ref) <==> HasRoute(a, host, match_, path, ref) || HasRoute(b, host, match_, path, ref)
    ensures forall ref :: HasDefaultRoute(a + b, ref) <==> HasDefaultRoute(a, ref) || HasDefaultRoute(b, ref)
  {
    assert forall r :: r in a + b <==> r in a || r in b;
  }

  lemma OneMoreRuleAsks(rules: seq<Rule>, host: string, match_: string, path: string, ref: ServiceRef)
    requires rules != []
    ensures RulesAsk(rules, host, match_, path, ref)
            <==> RulesAsk(rules[..|rules| - 1], host, match_, path, ref) || RuleAsks(rules[|rules| - 1], host, match_, path, ref)
  {
    hide RuleAsks;
    assert rules == rules[..|rules| - 1] + [rules[|rules| - 1]];
  }

  lemma {:induction false} RuleRoutesMean(namespace: string, rules: seq<Rule>)
    requires forall r | r in rules :: GoodRule(r)
    ensures forall host, match_, path, ref ::
              HasRoute(RuleRoutes(namespace, rules), host, match_, path, ref) <==> RulesAsk(rules, host, match_, path, ref)
    ensures forall ref :: !HasDefaultRoute(RuleRoutes(namespace, rules), ref)
    decreases |rules|
  {
    hide RuleAsks, HasRoute, HasDefaultRoute;
    if rules == [] {
      NoRoutes();
    } else {
      var n := |rules| - 1;
      assert GoodRule(rules[n]);
      hide GoodRule, PathRoutes;
      RuleRoutesMean(namespace, rules[..n]);
      PathRoutesMean(namespace, rules[n]);
      BothHaveRoutes(RuleRoutes(namespace, rules[..n]), PathRoutes(namespace, rules[n].host, rules[n].http.value));
      forall host, match_, path, ref
        ensures HasRoute(RuleRoutes(namespace, rules), host, match_, path, ref) <==> RulesAsk(rules, host, match_, path, ref)
      {
        OneMoreRuleAsks(rules, host, match_, path, ref);
      }
    }
  }

  lemma NoRoutes()
    ensures forall host, match_, path, ref :: !HasRoute([], host, match_, path, ref)
    ensures forall ref :: !HasDefaultRoute([], ref)
  {
  }

  lemma DefaultRoutesMean(m: Ingress)
    requires Usable(m)
    ensures forall host, match_, path, ref :: !HasRoute(DefaultRoutes(m.namespace, m.defaultBackend), host, match_, path, ref)
    ensures forall ref :: HasDefaultRoute(DefaultRoutes(m.namespace, m.defaultBackend), ref) <==> HasDefault(m, ref)
  {
    hide BackendKey, PoolName, NormalHost;
    if m.defaultBackend.Some? {
      var r := DefaultRoute(m.namespace, m.defaultBackend.value.service.value);
      assert r in DefaultRoutes(m.namespace, m.defaultBackend) && r.isDefault;
    }
  }

  lemma MemberRoutesMean(m: Ingress)
    requires Usable(m)
    ensures forall host, match_, path, ref :: HasRoute(Routes(m), host, match_, path, ref) <==> RulesAsk(m.rules, host, match_, path, ref)
    ensures forall ref :: HasDefaultRoute(Routes(m), ref) <==> HasDefault(m, ref)
  {
    hide RulesAsk, HasRoute, HasDefaultRoute, HasDefault, RuleRoutes, DefaultRoutes, GoodRule;
    DefaultRoutesMean(m);
    RuleRoutesMean(m.namespace, m.rules);
    BothHaveRoutes(DefaultRoutes(m.namespace, m.defaultBackend), RuleRoutes(m.namespace, m.rules));
  }

  lemma OneMoreAsks(members: seq<Ingress>, host: string, match_: string, path: string, ref: ServiceRef)
    requires members != []
    ensures var n := |members| - 1;
            Asks(members, host, match_, path, ref) <==> Asks(members[..n], host, match_, path, ref) || RulesAsk(members[n].rules, host, match_, path, ref)
    ensures var n := |members| - 1; AsksDefault(members, ref) <==> AsksDefault(members[..n], ref) || HasDefault(members[n], ref)
  {
    hide RulesAsk, HasDefault;
    assert members == members[..|members| - 1] + [members[|members| - 1]];
  }

  lemma {:induction false} AllRoutesMean(members: seq<Ingress>)
    requires forall m | m in members :: Usable(m)
    ensures forall host, match_, path, ref :: HasRoute(AllRoutes(members), host, match_, path, ref) <==> Asks(members, host, match_, path, ref)
    ensures forall ref :: HasDefaultRoute(AllRoutes(members), ref) <==> AsksDefault(members, ref)
    decreases |members|
  {
    hide RulesAsk, HasRoute, HasDefaultRoute, HasDefault, Routes;
    if members == [] {
      NoRoutes();
    } else {
      var n := |members| - 1;
      assert Usable(members[n]);
      hide Usable;
      AllRoutesMean(members[..n]);
      MemberRoutesMean(members[n]);
      BothHaveRoutes(AllRoutes(members[..n]), Routes(members[n]));
      forall host, match_, path, ref
        ensures HasRoute(AllRoutes(members), host, match_, path, ref) <==> Asks(members, host, match_, path, ref)
        ensures HasDefaultRoute(AllRoutes(members), ref) <==> AsksDefault(members, ref)
      {
        OneMoreAsks(members, host, match_, path, ref);
      }
    }
  }

  // ----- Compilation -----

  lemma RouteIsAsked(rs: seq<Route>, members: seq<Ingress>, r: Route)
    requires r in rs
    requires forall host, match_, path, ref :: HasRoute(rs, host, match_, path, ref) <==> Asks(members, host, match_, path, ref)
    requires forall ref :: HasDefaultRoute(rs, ref) <==> AsksDefault(members, ref)
    ensures if r.isDefault then AsksDefault(members, r.backend) else Asks(members, r.host, r.match_, r.path, r.backend)
    ensures Uses(members, r.backend)
  {
    hide Asks, AsksDefault;
    if r.isDefault {
      assert HasDefaultRoute(rs, r.backend);
    } else {
      assert Shows(r, r.host, r.match_, r.path, r.backend);
      assert HasRoute(rs, r.host, r.match_, r.path, r.backend);
    }
  }

  /** The routes are those asked for, and are printed as the compiler prints them. */
  ghost predicate Faithful(rs: seq<Route>, members: seq<Ingress>, namespace: string) {
    && (forall host, match_, path, ref :: HasRoute(rs, host, match_, path, ref) <==> Asks(members, host, match_, path, ref))
    && (forall ref :: HasDefaultRoute(rs, ref) <==> AsksDefault(members, ref))
    && (forall r | r in rs :: Printed(namespace, r) && PlainRoute(r))
  }

  lemma AskedHostsArePlain(members: seq<Ingress>, host: string, match_: string, path: string, ref: ServiceRef)
    requires Plain(members) && Asks(members, host, match_, path, ref)
    ensures '|' !in host
  {
    hide Uses, Lower, TrimSpace;
  }

  lemma RoutesAreFaithful(members: seq<Ingress>, namespace: string)
    requires (forall m | m in members :: Usable(m) && m.namespace == namespace) && Plain(members)
    ensures Faithful(AllRoutes(members), members, namespace)
  {
    hide HasRoute, HasDefaultRoute, Asks, AsksDefault, BackendKey, PoolName, Usable, Uses;
    AllRoutesMean(members);
    AllRoutesArePrinted(namespace, members);
    var rs := AllRoutes(members);
    forall r | r in rs ensures PlainRoute(r) {
      RouteIsAsked(rs, members, r);
      assert Printed(namespace, r);
      if !r.isDefault {
        AskedHostsArePlain(members, r.host, r.match_, r.path, r.backend);
      }
    }
  }

  lemma UsedHasRoute(rs: seq<Route>, members: seq<Ingress>, namespace: string, ref: ServiceRef) returns (r: Route)
    requires Faithful(rs, members, namespace) && Uses(members, ref)
    ensures r in rs && r.backend == ref
  {
    hide Asks, AsksDefault, Printed, PlainRoute;
    if AsksDefault(members, ref) {
      assert HasDefaultRoute(rs, ref);
      r :| r in rs && r.isDefault && r.backend == ref;
    } else {
      var host, match_, path :| Asks(members, host, match_, path, ref);
      assert HasRoute(rs, host, match_, path, ref);
      r :| r in rs && Shows(r, host, match_, path, ref);
    }
  }

  lemma ResolvingIsReachable(cx: Context, rs: seq<Route>, members: seq<Ingress>)
    requires Faithful(rs, members, cx.namespace)
    ensures AllResolve(cx, rs) <==> Reachable(members, cx.namespace, cx.resolver)
  {
    hide Uses, HasRoute, HasDefaultRoute, Asks, AsksDefault, Printed, PlainRoute;
    if AllResolve(cx, rs) {
      forall ref | Uses(members, ref) ensures cx.resolver(cx.namespace, ref).Ok? && cx.resolver(cx.namespace, ref).value.nodePort != 0 {
        var r := UsedHasRoute(rs, members, cx.namespace, ref);
        assert Resolves(cx, r);
      }
    }
    if Reachable(members, cx.namespace, cx.resolver) {
      forall r | r in rs ensures Resolves(cx, r) {
        RouteIsAsked(rs, members, r);
      }
    }
  }

  lemma PrintedPool(namespace: string, r: Route)
    requires Printed(namespace, r)
    ensures r.poolName == PoolNamed(namespace, r.backend)
    ensures r.isDefault ==> r.key == "|default|/"
  {
    hide SafeName, BackendKey, Itoa;
  }

  lemma ConsistentIsUnambiguous(rs: seq<Route>, members: seq<Ingress>, namespace: string)
    requires Faithful(rs, members, namespace)
    ensures Consistent(rs) <==> Unambiguous(members, namespace)
  {
    hide Asks, AsksDefault, Printed, PlainRoute, PoolNamed;
    if Consistent(rs) {
      forall host, match_, path, a, b | Asks(members, host, match_, path, a) && Asks(members, host, match_, path, b)
        ensures PoolNamed(namespace, a) == PoolNamed(namespace, b)
      {
        assert HasRoute(rs, host, match_, path, a) && HasRoute(rs, host, match_, path, b);
        var q :| q in rs && Shows(q, host, match_, path, a);
        var r :| r in rs && Shows(r, host, match_, path, b);
        SameLineSamePool(rs, namespace, q, r);
      }
      forall a, b | AsksDefault(members, a) && AsksDefault(members, b) ensures PoolNamed(namespace, a) == PoolNamed(namespace, b) {
        assert HasDefaultRoute(rs, a) && HasDefaultRoute(rs, b);
        var q :| q in rs && q.isDefault && q.backend == a;
        var r :| r in rs && r.isDefault && r.backend == b;
        PrintedPool(namespace, q);
        PrintedPool(namespace, r);
      }
    }
    if Unambiguous(members, namespace) {
      forall q, r | q in rs && r in rs && q.key == r.key ensures q.poolName == r.poolName {
        SameKeySameLine(namespace, q, r);
        RouteIsAsked(rs, members, q);
        RouteIsAsked(rs, members, r);
        PrintedPool(namespace, q);
        PrintedPool(namespace, r);
      }
    }
  }

  lemma SameLineSamePool(rs: seq<Route>, namespace: string, q: Route, r: Route)
    requires Consistent(rs) && q in rs && r in rs && Printed(namespace, q) && Printed(namespace, r)
    requires q.host == r.host && q.match_ == r.match_ && q.path == r.path
    ensures PoolNamed(namespace, q.backend) == PoolNamed(namespace, r.backend)
  {
    hide PoolName, PoolNamed, BackendKey;
    PrintedPool(namespace, q);
    PrintedPool(namespace, r);
  }

  lemma SameKeySameLine(namespace: string, q: Route, r: Route)
    requires Printed(namespace, q) && Printed(namespace, r) && PlainRoute(q) && PlainRoute(r) && q.key == r.key
    ensures q.host == r.host && q.match_ == r.match_ && q.path == r.path && q.isDefault == r.isDefault
  {
    RouteKeyReadsBack(namespace, q, r);
    hide BackendKey, PoolName;
  }

  lemma RulesMean(rules: seq<M.RoutingRule>, rs: seq<Route>, members: seq<Ingress>, namespace: string)
    requires Table(rules) == Requested(rs) && Faithful(rs, members, namespace)
    ensures forall host, match_, path, pool ::
              HasRule(rules, host, match_, path, pool) <==> AsksPool(members, namespace, host, match_, path, pool)
  {
    hide Asks, AsksDefault, Printed, PlainRoute, PoolNamed, HasDefaultRoute;
    forall host, match_, path, pool
      ensures HasRule(rules, host, match_, path, pool) <==> AsksPool(members, namespace, host, match_, path, pool)
    {
      if HasRule(rules, host, match_, path, pool) {
        var rule :| rule in rules && IsRule(rule, host, match_, path, pool);
        assert EntryOf(rule) in Requested(rs);
        var r :| r in rs && !r.isDefault && Asked(r) == EntryOf(rule);
        PrintedPool(namespace, r);
        assert Shows(r, host, match_, path, r.backend);
        assert HasRoute(rs, host, match_, path, r.backend);
      }
      if AsksPool(members, namespace, host, match_, path, pool) {
        var ref :| Asks(members, host, match_, path, ref) && pool == PoolNamed(namespace, ref);
        assert HasRoute(rs, host, match_, path, ref);
        var r :| r in rs && Shows(r, host, match_, path, ref);
        PrintedPool(namespace, r);
        assert Asked(r) in Table(rules);
        var rule :| rule in rules && EntryOf(rule) == Asked(r);
        assert IsRule(rule, host, match_, path, pool);
      }
    }
  }

  lemma PoolForMeans(cx: Context, p: M.Pool, r: Route)
    requires Printed(cx.namespace, r)
    ensures IsPoolFor(cx, p, r) ==> IsPool(p, cx.namespace, cx.config, r.backend, cx.resolver(cx.namespace, r.backend).value)
  {
    hide SafeName, BackendKey, Itoa;
  }

  lemma PoolsMean(cx: Context, pools: seq<M.Pool>, rs: seq<Route>, members: seq<Ingress>)
    requires PoolsMatch(cx, pools, rs) && Faithful(rs, members, cx.namespace)
    ensures forall ref | Uses(members, ref) :: HasPool(pools, cx.namespace, cx.config, ref, cx.resolver)
    ensures forall p | p in pools :: IsUsed(p, members, cx.namespace, cx.config, cx.resolver)
  {
    hide Uses, HasRoute, HasDefaultRoute, Asks, AsksDefault, Printed, PlainRoute, IsPool, IsPoolFor;
    forall ref | Uses(members, ref) ensures HasPool(pools, cx.namespace, cx.config, ref, cx.resolver) {
      var r := UsedHasRoute(rs, members, cx.namespace, ref);
      var p :| p in pools && IsPoolFor(cx, p, r);
      PoolForResolves(cx, p, r);
      PoolForMeans(cx, p, r);
    }
    forall p | p in pools ensures IsUsed(p, members, cx.namespace, cx.config, cx.resolver) {
      var r :| r in rs && IsPoolFor(cx, p, r);
      PoolForResolves(cx, p, r);
      PoolForMeans(cx, p, r);
      RouteIsAsked(rs, members, r);
    }
  }

  lemma PoolForResolves(cx: Context, p: M.Pool, r: Route)
    requires IsPoolFor(cx, p, r)
    ensures cx.resolver(cx.namespace, r.backend).Ok?
  {
  }

  lemma DefaultMeans(pool: string, rs: seq<Route>, members: seq<Ingress>, namespace: string)
    requires IsDefaultOf(pool, rs) && Faithful(rs, members, namespace)
    ensures IsDefaultPool(pool, members, namespace)
  {
    hide HasRoute, Asks, AsksDefault, Printed, PlainRoute, PoolNamed;
    forall ref | AsksDefault(members, ref) ensures pool == PoolNamed(namespace, ref) {
      assert HasDefaultRoute(rs, ref);
      var r :| r in rs && r.isDefault && r.backend == ref;
      PrintedPool(namespace, r);
    }
    if forall ref :: !AsksDefault(members, ref) {
      forall r | r in rs ensures !r.isDefault {
        RouteIsAsked(rs, members, r);
      }
    }
  }

  lemma ListenersMean(cx: Context, ordered: seq<Ingress>, certificates: seq<M.Certificate>, opts: Options, t: Tables)
    requires ordered != []
    ensures ListenersFit(StackOf(cx, ordered[0], NeedsTLS(ordered), certificates, opts, t), ordered, cx.config, opts)
  {
    hide SafeName, LBServiceName, Slashless, Lower;
  }

  lemma {:induction false} CertificatesMean(cx: Context, members: seq<Ingress>)
    ensures CertificatesFit(AllCertificates(cx, members), members)
    decreases |members|
  {
    hide SafeName;
    if members != [] {
      var n := |members| - 1;
      CertificatesMean(cx, members[..n]);
      var before, last := AllCertificates(cx, members[..n]), CertificatesOf(cx, members[n].tls);
      assert members == members[..n] + [members[n]];
      forall m, t | m in members && t in m.tls ensures HasCertificate(before + last, t) {
        if m in members[..n] {
          assert HasCertificate(before, t);
          var c :| c in before && c.secretName == t.secretName && c.hosts == t.hosts;
          assert c in before + last;
        } else {
          var i :| 0 <= i < |m.tls| && m.tls[i] == t;
          assert last[i] in before + last;
        }
      }
      forall c | c in before + last ensures exists m :: m in members && TLS(c.hosts, c.secretName) in m.tls {
        if c in before {
          var m :| m in members[..n] && TLS(c.hosts, c.secretName) in m.tls;
          assert m in members;
        } else {
          var i :| 0 <= i < |last| && last[i] == c;
          assert members[n].tls[i] == TLS(c.hosts, c.secretName);
          assert members[n] in members;
        }
      }
    }
  }

  lemma CompiledListeners(ordered: seq<Ingress>, cfg: LBConfig, opts: Options)
    requires ordered != [] && opts.resolver.Some? && Compile(ordered, cfg, opts).Ok?
    ensures ListenersFit(Compile(ordered, cfg, opts).value, ordered, cfg, opts)
    ensures CertificatesFit(Compile(ordered, cfg, opts).value.certificates, ordered)
  {
    hide AddRoutes, AllRoutes, MemberError, ListenersFit, CertificatesFit, LBServiceName, SafeName, Slashless;
    AcceptedMembersAreUsable(ordered[0], ordered);
    var cx := ContextOf(ordered[0], cfg, opts.resolver.value);
    CertificatesMean(cx, ordered);
    ListenersMean(cx, ordered, AllCertificates(cx, ordered), opts, AddRoutes(cx, EMPTY_TABLES, AllRoutes(ordered)).value);
  }

  lemma ContextIs(anchor: Ingress, cfg: LBConfig, resolver: Resolver)
    ensures var cx := ContextOf(anchor, cfg, resolver); cx.namespace == anchor.namespace && cx.config == cfg && cx.resolver == resolver
  {
    hide TrimSpace;
  }

  /** For members that fit together, compilation succeeds exactly if every backend in use has a node port and the members are
      unambiguous; and then the stack is what they ask for. */
  lemma CompilationMeans(ordered: seq<Ingress>, cfg: LBConfig, opts: Options)
    requires ordered != [] && opts.resolver.Some? && MemberError(ordered[0], ordered).None? && Plain(ordered)
    ensures var namespace, resolver := ordered[0].namespace, opts.resolver.value;
            match Compile(ordered, cfg, opts)
            case Ok(stack) =>
              Reachable(ordered, namespace, resolver) && Unambiguous(ordered, namespace)
              && Compiled(stack, ordered, namespace, cfg, opts, resolver)
            case Err(e) =>
              !(Reachable(ordered, namespace, resolver) && Unambiguous(ordered, namespace))
              && (e.ResolverFailed? || e.BackendNodePortRequired? || e.RouteConflict?)
  {
    hide Reachable, Unambiguous, Faithful, MemberError, ContextOf, AllResolve, Consistent, Plain, Compile, Usable, ListenersFit, CertificatesFit,
      IsDefaultPool, IsDefaultOf, HasRule, AsksPool, HasPool, IsUsed, Uses, PoolsMatch, RulesAreFunctional, SamePort, Table, Requested;
    AcceptedMembersAreUsable(ordered[0], ordered);
    var namespace, rs, cx := ordered[0].namespace, AllRoutes(ordered), ContextOf(ordered[0], cfg, opts.resolver.value);
    ContextIs(ordered[0], cfg, opts.resolver.value);
    RoutesAreFaithful(ordered, namespace);
    FaithfulIsPlain(rs, ordered, namespace);
    ResolvingIsReachable(cx, rs, ordered);
    ConsistentIsUnambiguous(rs, ordered, namespace);
    CompilationIsExact(ordered, cfg, opts);
    if Compile(ordered, cfg, opts).Ok? {
      var stack := Compile(ordered, cfg, opts).value;
      RulesMean(stack.routingRules, rs, ordered, namespace);
      PoolsMean(cx, stack.pools, rs, ordered);
      CompiledListeners(ordered, cfg, opts);
      forall vs | vs in stack.virtualServers ensures IsDefaultPool(vs.defaultPoolName, ordered, namespace) {
        DefaultMeans(vs.defaultPoolName, rs, ordered, namespace);
      }
    }
  }

  lemma FaithfulIsPlain(rs: seq<Route>, members: seq<Ingress>, namespace: string)
    requires Faithful(rs, members, namespace)
    ensures forall r | r in rs :: PlainRoute(r)
  {
    hide PlainRoute;
  }

  // ----- Which members are accepted -----

  /** Every backend is a Service with a port, every rule one for HTTP, every path typed as exact or prefix, and every certificate
      named; there is some backend; and no host, match and path goes to two backends. */
  ghost predicate Acceptable(m: Ingress) {
    && (forall rule | rule in m.rules :: GoodRule(rule))
    && (m.defaultBackend.Some? ==> GoodBackend(m.defaultBackend.value))
    && (forall t | t in m.tls :: TrimSpace(t.secretName) != "")
    && (m.defaultBackend.Some? || exists host, match_, path, ref :: RulesAsk(m.rules, host, match_, path, ref))
    && (forall host, match_, path, a, b | RulesAsk(m.rules, host, match_, path, a) && RulesAsk(m.rules, host, match_, path, b) :: a == b)
  }

  ghost predicate PlainHosts(rules: seq<Rule>) {
    forall rule | rule in rules :: '|' !in Lower(TrimSpace(rule.host))
  }

  /** What the validation records for a path. */
  predicate IsUse(rule: Rule, p: Path, key: string, ref: ServiceRef) {
    p.pathType.Some? && key == RouteKey(rule.host, p.path, p.pathType.value) && p.backend.service == Some(ref)
  }

  ghost predicate RuleHasUse(rule: Rule, key: string, ref: ServiceRef) {
    rule.http.Some? && exists p :: p in rule.http.value && IsUse(rule, p, key, ref)
  }

  ghost predicate RulesHaveUse(rules: seq<Rule>, key: string, ref: ServiceRef) {
    exists rule :: rule in rules && RuleHasUse(rule, key, ref)
  }

  lemma PathUsesMean(rule: Rule)
    requires GoodRule(rule)
    ensures forall key, ref :: (key, ref) in PathUses(rule.host, rule.http.value) <==> RuleHasUse(rule, key, ref)
  {
    hide RouteKey;
    var paths := rule.http.value;
    var us := PathUses(rule.host, paths);
    forall i | 0 <= i < |paths|
      ensures GoodPath(paths[i]) && us[i] == (RouteKey(rule.host, paths[i].path, paths[i].pathType.value), paths[i].backend.service.value)
    {
      assert paths[i] in paths;
    }
    forall key, ref ensures (key, ref) in us <==> RuleHasUse(rule, key, ref) {
      if (key, ref) in us {
        var i :| 0 <= i < |us| && us[i] == (key, ref);
        assert paths[i] in paths && IsUse(rule, paths[i], key, ref);
      }
      if RuleHasUse(rule, key, ref) {
        var p :| p in paths && IsUse(rule, p, key, ref);
        var i :| 0 <= i < |paths| && paths[i] == p;
        assert us[i] == (key, ref);
      }
    }
  }

  lemma OneMoreHasUse(rules: seq<Rule>, key: string, ref: ServiceRef)
    requires rules != []
    ensures RulesHaveUse(rules, key, ref) <==> RulesHaveUse(rules[..|rules| - 1], key, ref) || RuleHasUse(rules[|rules| - 1], key, ref)
  {
    hide RuleHasUse;
    assert rules == rules[..|rules| - 1] + [rules[|rules| - 1]];
  }

  lemma {:induction false} RuleUsesMean(rules: seq<Rule>)
    requires forall r | r in rules :: GoodRule(r)
    ensures forall key, ref :: (key, ref) in RuleUses(rules) <==> RulesHaveUse(rules, key, ref)
    decreases |rules|
  {
    hide RuleHasUse, PathUses;
    if rules != [] {
      var n := |rules| - 1;
      assert GoodRule(rules[n]);
      hide GoodRule;
      RuleUsesMean(rules[..n]);
      PathUsesMean(rules[n]);
      forall key, ref ensures (key, ref) in RuleUses(rules) <==> RulesHaveUse(rules, key, ref) {
        OneMoreHasUse(rules, key, ref);
        assert (key, ref) in RuleUses(rules)
               <==> (key, ref) in RuleUses(rules[..n]) || (key, ref) in PathUses(rules[n].host, rules[n].http.value);
      }
    }
  }

  /** Without bars in hosts the validation's key stands for host, type and path. */
  lemma RouteKeyMeans(h: string, p: string, t: PathType, h2: string, p2: string, t2: PathType)
    requires (t.Exact? || t.Prefix?) && (t2.Exact? || t2.Prefix?) && '|' !in Lower(TrimSpace(h)) && '|' !in Lower(TrimSpace(h2))
    ensures RouteKey(h, p, t) == RouteKey(h2, p2, t2) <==> Lower(TrimSpace(h)) == Lower(TrimSpace(h2)) && t == t2 && p == p2
    ensures RouteKey(h, p, t) != "<default>"
  {
    hide Lower, TrimSpace;
    var a, b := Lower(TrimSpace(h)), Lower(TrimSpace(h2));
    assert RouteKey(h, p, t) == a + ['|'] + (PathTypeName(t) + ['|'] + p);
    assert RouteKey(h2, p2, t2) == b + ['|'] + (PathTypeName(t2) + ['|'] + p2);
    assert RouteKey(h, p, t)[|a|] == '|' && '|' !in "<default>";
    if RouteKey(h, p, t) == RouteKey(h2, p2, t2) {
      FirstSeparator(a, PathTypeName(t) + ['|'] + p, b, PathTypeName(t2) + ['|'] + p2, '|');
      FirstSeparator(PathTypeName(t), p, PathTypeName(t2), p2, '|');
      assert PathTypeName(t)[0] == PathTypeName(t2)[0];
    }
  }

  /** A path is used under one key, and asked for as one line. */
  lemma LineOfUse(rules: seq<Rule>, key: string, ref: ServiceRef) returns (rule: Rule, p: Path, host: string, match_: string)
    requires (forall r | r in rules :: GoodRule(r)) && RulesHaveUse(rules, key, ref)
    ensures rule in rules && rule.http.Some? && p in rule.http.value && GoodPath(p) && IsUse(rule, p, key, ref)
    ensures host == Lower(TrimSpace(rule.host)) && match_ == (if p.pathType.value.Exact? then "exact" else "prefix")
    ensures RulesAsk(rules, host, match_, p.path, ref)
  {
    hide RouteKey, Lower, TrimSpace, GoodBackend;
    rule :| rule in rules && RuleHasUse(rule, key, ref);
    p :| p in rule.http.value && IsUse(rule, p, key, ref);
    assert GoodRule(rule);
    host, match_ := Lower(TrimSpace(rule.host)), if p.pathType.value.Exact? then "exact" else "prefix";
    assert IsLine(rule, p, host, match_, p.path, ref);
    assert RuleAsks(rule, host, match_, p.path, ref);
  }

  lemma UseOfLine(rules: seq<Rule>, host: string, match_: string, path: string, ref: ServiceRef) returns (rule: Rule, p: Path, key: string)
    requires (forall r | r in rules :: GoodRule(r)) && RulesAsk(rules, host, match_, path, ref)
    ensures rule in rules && rule.http.Some? && p in rule.http.value && GoodPath(p) && IsUse(rule, p, key, ref)
    ensures IsLine(rule, p, host, match_, path, ref) && RulesHaveUse(rules, key, ref)
  {
    hide RouteKey, Lower, TrimSpace, GoodBackend;
    rule :| rule in rules && RuleAsks(rule, host, match_, path, ref);
    p :| p in rule.http.value && IsLine(rule, p, host, match_, path, ref);
    assert GoodRule(rule);
    key := RouteKey(rule.host, p.path, p.pathType.value);
    assert IsUse(rule, p, key, ref);
    assert RuleHasUse(rule, key, ref);
  }

  /** One backend per key is one backend per line. */
  lemma FunctionalMeans(rules: seq<Rule>)
    requires (forall r | r in rules :: GoodRule(r)) && PlainHosts(rules)
    ensures (forall key, a, b | RulesHaveUse(rules, key, a) && RulesHaveUse(rules, key, b) :: a == b)
            <==> (forall host, match_, path, a, b | RulesAsk(rules, host, match_, path, a) && RulesAsk(rules, host, match_, path, b) :: a == b)
    ensures forall ref :: !RulesHaveUse(rules, "<default>", ref)
    ensures (exists key, ref :: RulesHaveUse(rules, key, ref)) <==> exists host, match_, path, ref :: RulesAsk(rules, host, match_, path, ref)
  {
    hide RouteKey, Lower, TrimSpace, RulesHaveUse, RulesAsk, GoodBackend, GoodRule;
    if forall key, a, b | RulesHaveUse(rules, key, a) && RulesHaveUse(rules, key, b) :: a == b {
      forall host, match_, path, a, b | RulesAsk(rules, host, match_, path, a) && RulesAsk(rules, host, match_, path, b) ensures a == b {
        var r1, p1, k1 := UseOfLine(rules, host, match_, path, a);
        var r2, p2, k2 := UseOfLine(rules, host, match_, path, b);
        RouteKeyMeans(r1.host, p1.path, p1.pathType.value, r2.host, p2.path, p2.pathType.value);
      }
    }
    if forall host, match_, path, a, b | RulesAsk(rules, host, match_, path, a) && RulesAsk(rules, host, match_, path, b) :: a == b {
      forall key, a, b | RulesHaveUse(rules, key, a) && RulesHaveUse(rules, key, b) ensures a == b {
        var r1, p1, h1, m1 := LineOfUse(rules, key, a);
        var r2, p2, h2, m2 := LineOfUse(rules, key, b);
        RouteKeyMeans(r1.host, p1.path, p1.pathType.value, r2.host, p2.path, p2.pathType.value);
      }
    }
    forall ref ensures !RulesHaveUse(rules, "<default>", ref) {
      if RulesHaveUse(rules, "<default>", ref) {
        var r, p, h, m := LineOfUse(rules, "<default>", ref);
        RouteKeyMeans(r.host, p.path, p.pathType.value, r.host, p.path, p.pathType.value);
      }
    }
    if key, ref :| RulesHaveUse(rules, key, ref) {
      var r, p, h, m := LineOfUse(rules, key, ref);
    }
    if host, match_, path, ref :| RulesAsk(rules, host, match_, path, ref) {
      var r, p, k := UseOfLine(rules, host, match_, path, ref);
    }
  }

  type Used = seq<(string, ServiceRef)>

  lemma FunctionalIs(u: Used)
    ensures Functional(u) <==> forall key, a, b | (key, a) in u && (key, b) in u :: a == b
  {
    if Functional(u) {
      forall key, a, b | (key, a) in u && (key, b) in u ensures a == b {
        var i :| 0 <= i < |u| && u[i] == (key, a);
        var j :| 0 <= j < |u| && u[j] == (key, b);
        if i < j {
          assert u[i].0 == u[j].0;
        } else if j < i {
          assert u[j].0 == u[i].0;
        }
      }
    }
    if forall key, a, b | (key, a) in u && (key, b) in u :: a == b {
      forall i, j | 0 <= i < j < |u| && u[i].0 == u[j].0 ensures u[i].1 == u[j].1 {
        assert (u[i].0, u[i].1) in u && (u[i].0, u[j].1) in u;
      }
    }
  }

  /** The validation accepts exactly these, where hosts contain no bar. */
  lemma ShapeMeans(m: Ingress)
    requires PlainHosts(m.rules)
    ensures ErrorOf(m).None? <==> Acceptable(m)
  {
    hide RouteKey, Lower, TrimSpace, RulesHaveUse, RulesAsk, GoodBackend, GoodRule, ErrorOf, RuleUses, Functional;
    AcceptsExactlyWellShaped(m);
    if (forall r | r in m.rules :: GoodRule(r)) && (m.defaultBackend.Some? ==> GoodBackend(m.defaultBackend.value)) {
      RuleUsesMean(m.rules);
      FunctionalMeans(m.rules);
      var rules, all := RuleUses(m.rules), RuleUses(m.rules) + DefaultUses(m.defaultBackend);
      FunctionalIs(rules);
      FunctionalIs(all);
      DefaultKeepsFunctional(m, rules, all);
    }
  }

  lemma DefaultKeepsFunctional(m: Ingress, rules: Used, all: Used)
    requires (m.defaultBackend.Some? ==> GoodBackend(m.defaultBackend.value)) && all == rules + DefaultUses(m.defaultBackend)
    requires forall ref :: ("<default>", ref) !in rules
    ensures (forall key, a, b | (key, a) in all && (key, b) in all :: a == b) <==> (forall key, a, b | (key, a) in rules && (key, b) in rules :: a == b)
    ensures all != [] <==> m.defaultBackend.Some? || exists key, ref :: (key, ref) in rules
  {
    hide TrimSpace;
    assert forall x :: x in all <==> x in rules || x in DefaultUses(m.defaultBackend);
    if rules != [] {
      assert (rules[0].0, rules[0].1) in rules;
    }
    if all != [] {
      assert all[0] in all;
    }
  }

  /** Members of one namespace and one group, each of them acceptable. */
  ghost predicate FitTogether(members: seq<Ingress>) {
    && (forall a, b | a in members && b in members :: a.namespace == b.namespace && TrimSpace(a.groupAnnotation) == TrimSpace(b.groupAnnotation))
    && (forall m | m in members :: Acceptable(m))
  }

  lemma {:induction false} MemberErrorMeans(anchor: Ingress, members: seq<Ingress>)
    requires forall m | m in members :: PlainHosts(m.rules)
    ensures MemberError(anchor, members).None? <==>
            forall m | m in members ::
              m.namespace == anchor.namespace && TrimSpace(m.groupAnnotation) == TrimSpace(anchor.groupAnnotation) && Acceptable(m)
    ensures MemberError(anchor, members).Some? ==> MemberError(anchor, members).value.MixedGroup? || MemberError(anchor, members).value.InvalidIngress?
    decreases |members|
  {
    hide TrimSpace, Acceptable, ErrorOf, PlainHosts;
    if members != [] {
      var n := |members| - 1;
      MemberErrorMeans(anchor, members[..n]);
      ShapeMeans(members[n]);
      assert members == members[..n] + [members[n]];
    }
  }

  lemma SameMembers(a: seq<Ingress>, b: seq<Ingress>)
    requires multiset(a) == multiset(b)
    ensures forall m :: m in a <==> m in b
    ensures forall host, match_, path, ref :: Asks(a, host, match_, path, ref) <==> Asks(b, host, match_, path, ref)
    ensures forall ref :: (AsksDefault(a, ref) <==> AsksDefault(b, ref)) && (Uses(a, ref) <==> Uses(b, ref))
    ensures Plain(a) <==> Plain(b)
    ensures FitTogether(a) <==> FitTogether(b)
  {
    hide RulesAsk, HasDefault, Acceptable, Lower, TrimSpace;
    forall m ensures m in a <==> m in b {
      assert m in multiset(a) <==> m in multiset(b);
    }
  }

  /** What BuildGroupLoadBalancerStack returns, in whatever order the sort leaves the members: a stack if and only if they fit
      together, every backend in use has a node port, and they are unambiguous; and then what they ask for. */
  lemma OutcomeMeans(members: seq<Option<Ingress>>, ordered: seq<Ingress>, cfg: LBConfig, opts: Options)
    requires IsSortOf(ordered, members) && members != [] && opts.resolver.Some? && None !in members && Plain(Present(members))
    ensures var all, resolver := Present(members), opts.resolver.value;
            match Outcome(members, ordered, cfg, opts)
            case Ok(stack) =>
              FitTogether(all) && Reachable(all, all[0].namespace, resolver) && Unambiguous(all, all[0].namespace)
              && Compiled(stack, all, all[0].namespace, cfg, opts, resolver)
            case Err(e) =>
              || (!FitTogether(all) && (e.MixedGroup? || e.InvalidIngress?))
              || (!(Reachable(all, all[0].namespace, resolver) && Unambiguous(all, all[0].namespace))
                  && (e.ResolverFailed? || e.BackendNodePortRequired? || e.RouteConflict?))
  {
    hide MemberLess, Compile, TrimSpace, Acceptable, Lower, HasRule, HasPool, IsPool, Asks, AsksDefault, Uses;
    var all, resolver := Present(members), opts.resolver.value;
    SameMembers(ordered, all);
    assert all[0] in all && ordered[0] in ordered;
    MemberErrorMeans(ordered[0], ordered);
    if MemberError(ordered[0], ordered).None? {
      CompilationMeans(ordered, cfg, opts);
      SameDemand(ordered, all, all[0].namespace, cfg, opts, resolver);
    } else {
      CompileRefuses(ordered, cfg, opts);
    }
  }

  lemma CompileRefuses(ordered: seq<Ingress>, cfg: LBConfig, opts: Options)
    requires ordered != [] && opts.resolver.Some? && MemberError(ordered[0], ordered).Some?
    ensures Compile(ordered, cfg, opts) == Err(MemberError(ordered[0], ordered).value)
  {
    hide MemberError;
  }

  /** What is asked for does not depend on the order of the members. */
  lemma SameDemand(a: seq<Ingress>, b: seq<Ingress>, namespace: string, cfg: LBConfig, opts: Options, resolver: Resolver)
    requires forall m :: m in a <==> m in b
    requires forall host, match_, path, ref :: Asks(a, host, match_, path, ref) <==> Asks(b, host, match_, path, ref)
    requires forall ref :: (AsksDefault(a, ref) <==> AsksDefault(b, ref)) && (Uses(a, ref) <==> Uses(b, ref))
    ensures Reachable(a, namespace, resolver) <==> Reachable(b, namespace, resolver)
    ensures Unambiguous(a, namespace) <==> Unambiguous(b, namespace)
    ensures forall stack :: Compiled(stack, a, namespace, cfg, opts, resolver) ==> Compiled(stack, b, namespace, cfg, opts, resolver)
  {
    hide Asks, AsksDefault, Uses, PoolNamed, IsPool, HasRule, HasPool, SamePort, RulesAreFunctional;
    forall stack | Compiled(stack, a, namespace, cfg, opts, resolver) ensures Compiled(stack, b, namespace, cfg, opts, resolver) {
      forall host, match_, path, pool
        ensures AsksPool(a, namespace, host, match_, path, pool) <==> AsksPool(b, namespace, host, match_, path, pool) {}
      forall p | p in stack.pools ensures IsUsed(p, b, namespace, cfg, resolver) {
        assert IsUsed(p, a, namespace, cfg, resolver);
      }
    }
  }

  // ----- Whose the stack is -----

  /** The group of the Ingress, or the Ingress itself without one. */
  predicate IsOwner(o: M.Ownership, anchor: Ingress) {
    var group := TrimSpace(anchor.groupAnnotation);
    && o.sourceKind == "IngressGroup" && o.sourceNamespace == anchor.namespace && o.sourceUID == "" && o.sharedGroup == group
    && o.sourceName == if group == "" then "ingress/" + anchor.namespace + "/" + anchor.name else "ingress-group/" + anchor.namespace + "/" + group
  }

  lemma {:induction false} TablesAreOwned(cx: Context, t: Tables, rs: seq<Route>)
    requires (forall p | p in t.pools :: p.ownership == Owner(cx)) && forall r | r in t.rules :: r.ownership == Owner(cx)
    ensures AddRoutes(cx, t, rs).Ok? ==>
              && (forall p | p in AddRoutes(cx, t, rs).value.pools :: p.ownership == Owner(cx))
              && forall r | r in AddRoutes(cx, t, rs).value.rules :: r.ownership == Owner(cx)
    decreases |rs|
  {
    hide SafeName, MembersOf, Owner;
    if rs != [] {
      TablesAreOwned(cx, t, rs[..|rs| - 1]);
    }
  }

  /** Everything in a compiled stack belongs to the group, or without a group to the first Ingress. */
  lemma StacksAreOwned(ordered: seq<Ingress>, cfg: LBConfig, opts: Options)
    requires ordered != [] && opts.resolver.Some? && Compile(ordered, cfg, opts).Ok?
    ensures var stack := Compile(ordered, cfg, opts).value;
            && IsOwner(stack.lbService.ownership, ordered[0]) && IsOwner(stack.vip.ownership, ordered[0])
            && (forall vs | vs in stack.virtualServers :: IsOwner(vs.ownership, ordered[0]))
            && (forall p | p in stack.pools :: IsOwner(p.ownership, ordered[0]))
            && (forall r | r in stack.routingRules :: IsOwner(r.ownership, ordered[0]))
  {
    hide SafeName, AddRoutes, AllRoutes, MemberError, Slashless, LBServiceName, TrimSpace, AllCertificates, NeedsTLS, Usable;
    AcceptedMembersAreUsable(ordered[0], ordered);
    TrimTwice(ordered[0].groupAnnotation);
    TablesAreOwned(ContextOf(ordered[0], cfg, opts.resolver.value), EMPTY_TABLES, AllRoutes(ordered));
  }

  /** Whichever Ingresses make up a group, and whatever they ask for, its load balancer, its VIP and its listeners keep their names and
      its resources their owner. */
  lemma GroupsKeepTheirNames(a: seq<Ingress>, b: seq<Ingress>, cfg: LBConfig, cfg2: LBConfig, opts: Options, opts2: Options)
    requires a != [] && opts.resolver.Some? && Compile(a, cfg, opts).Ok?
    requires b != [] && opts2.resolver.Some? && Compile(b, cfg2, opts2).Ok?
    requires a[0].namespace == b[0].namespace && TrimSpace(a[0].groupAnnotation) == TrimSpace(b[0].groupAnnotation) != ""
    ensures var s, t := Compile(a, cfg, opts).value, Compile(b, cfg2, opts2).value;
            && s.lbService.name == t.lbService.name && s.vip.name == t.vip.name && s.lbService.ownership == t.lbService.ownership
            && forall i | 0 <= i < |s.virtualServers| && i < |t.virtualServers| :: s.virtualServers[i].name == t.virtualServers[i].name
  {
    hide SafeName, AddRoutes, AllRoutes, MemberError, Slashless, AllCertificates, NeedsTLS, Usable, Lower, TrimSpace;
    AcceptedMembersAreUsable(a[0], a);
    AcceptedMembersAreUsable(b[0], b);
    TrimTwice(a[0].groupAnnotation);
  }
}
