/** What the compiled routing table of an Ingress group means. */
module RoutingTable {
  import opened Common
  import opened Text
  import opened Sorting
  import opened IngressShape
  import opened IngressGroup
  import M = Model

  // ----- The invariant of the tables. It needs of the printed strings only what Readable says. -----

  /** Backend keys stand for one backend, default routes keep to a key of their own, and pools have names. */
  ghost predicate Readable(rs: seq<Route>) {
    && (forall r | r in rs :: r.poolName != "")
    && (forall q, r | q in rs && r in rs && q.backendKey == r.backendKey :: q.backend == r.backend && q.poolName == r.poolName)
    && (forall q, r | q in rs && r in rs && (q.backend.name, q.backend.portName, q.backend.portNumber) == (r.backend.name, r.backend.portName, r.backend.portNumber) :: q.backendKey == r.backendKey)
    && (forall q, r | q in rs && r in rs && q.key == r.key :: q.isDefault == r.isDefault)
    && (forall q, r | q in rs && r in rs && q.isDefault && r.isDefault :: q.key == r.key)
  }

  predicate Resolves(cx: Context, r: Route) {
    var s := cx.resolver(cx.namespace, r.backend);
    s.Ok? && s.value.nodePort != 0
  }

  /** The pool a route's backend gets: named for it, with the resolved targets as members. */
  predicate IsPoolFor(cx: Context, p: M.Pool, r: Route) {
    && Resolves(cx, r)
    && p.name == r.poolName
    && p.service == r.backend.name && p.portName == r.backend.portName && p.port == r.backend.portNumber
    && p.members == MembersOf(cx.resolver(cx.namespace, r.backend).value)
    && p.monitor.Some? && p.monitor.value.kind == cx.config.healthType && p.monitor.value.path == cx.config.healthPath
    && p.monitor.value.interval == cx.config.healthInterval
  }

  predicate IsRuleFor(rule: M.RoutingRule, r: Route, priority: int) {
    && !r.isDefault
    && rule.host == r.host && rule.path == r.path && rule.matchType == r.match_
    && rule.poolName == r.poolName && rule.priority == priority
  }

  predicate SamePort(p: M.Pool, q: M.Pool) {
    p.service == q.service && p.portName == q.portName && p.port == q.port
  }

  /** Where each table entry comes from: the route that made a pool, a rule or a key, and where to find them. */
  datatype Origins = Origins(
    pools: seq<Route>, poolAt: map<string, nat>, keys: map<string, Route>, rules: seq<Route>, ruleAt: map<string, nat>)

  const NO_ORIGINS := Origins([], map[], map[], [], map[])

  ghost predicate PoolsGood(cx: Context, t: Tables, rs: seq<Route>, o: Origins) {
    && |o.pools| == |t.pools|
    && (forall n | 0 <= n < |t.pools| :: o.pools[n] in rs && IsPoolFor(cx, t.pools[n], o.pools[n]))
    && (forall m, n | 0 <= m < n < |t.pools| :: !SamePort(t.pools[m], t.pools[n]))
    && (forall k | k in t.poolByBackend :: k in o.poolAt && o.poolAt[k] < |t.pools| && o.pools[o.poolAt[k]].backendKey == k)
    && (forall r | r in rs :: r.backendKey in t.poolByBackend && t.poolByBackend[r.backendKey] == r.poolName)
  }

  ghost predicate RoutesGood(t: Tables, rs: seq<Route>, o: Origins) {
    && (forall k | k in t.routes :: k in o.keys && o.keys[k] in rs && o.keys[k].key == k)
    && (forall r | r in rs :: r.key in t.routes && t.routes[r.key] == r.poolName)
  }

  ghost predicate RulesGood(t: Tables, rs: seq<Route>, o: Origins) {
    && t.priority == |t.rules| + 1
    && |o.rules| == |t.rules|
    && (forall n | 0 <= n < |t.rules| :: o.rules[n] in rs && IsRuleFor(t.rules[n], o.rules[n], n + 1))
    && (forall m, n | 0 <= m < n < |t.rules| :: o.rules[m].key != o.rules[n].key)
    && (forall r | r in rs && !r.isDefault :: r.key in o.ruleAt && o.ruleAt[r.key] < |t.rules| && o.rules[o.ruleAt[r.key]].key == r.key)
  }

  ghost predicate DefaultGood(t: Tables, rs: seq<Route>) {
    && (forall r | r in rs && r.isDefault :: t.defaultPool == r.poolName)
    && ((forall r | r in rs :: !r.isDefault) ==> t.defaultPool == "")
  }

  ghost predicate Good(cx: Context, t: Tables, rs: seq<Route>, o: Origins) {
    PoolsGood(cx, t, rs, o) && RoutesGood(t, rs, o) && RulesGood(t, rs, o) && DefaultGood(t, rs)
  }

  // ----- One route keeps the invariant -----

  lemma KnownBackend(cx: Context, t: Tables, rs: seq<Route>, r: Route, o: Origins)
    requires Readable(rs + [r]) && PoolsGood(cx, t, rs, o) && r.backendKey in t.poolByBackend
    ensures PoolFor(cx, t, r) == Ok((t, r.poolName)) && Resolves(cx, r)
    ensures PoolsGood(cx, t, rs + [r], o)
  {
    hide PoolOf, MembersOf;
    var all := rs + [r];
    var q := o.pools[o.poolAt[r.backendKey]];
    assert r in all && q in all;
  }

  lemma NewBackend(cx: Context, t: Tables, rs: seq<Route>, r: Route, o: Origins) returns (p: Origins)
    requires Readable(rs + [r]) && PoolsGood(cx, t, rs, o) && r.backendKey !in t.poolByBackend && Resolves(cx, r)
    ensures PoolFor(cx, t, r).Ok? && PoolFor(cx, t, r).value.1 == r.poolName
    ensures PoolsGood(cx, PoolFor(cx, t, r).value.0, rs + [r], p)
    ensures p == o.(pools := p.pools, poolAt := p.poolAt)
  {
    hide SafeName, MembersOf;
    var u := PoolFor(cx, t, r).value.0;
    var all := rs + [r];
    var pool := PoolOf(cx, r.poolName, r.backend, cx.resolver(cx.namespace, r.backend).value);
    assert u.pools == t.pools + [pool] && IsPoolFor(cx, pool, r);
    p := o.(pools := o.pools + [r], poolAt := o.poolAt[r.backendKey := |t.pools|]);
    assert r in all;
    forall n | 0 <= n < |t.pools| ensures !SamePort(t.pools[n], pool) {
      assert o.pools[n] in all && o.pools[n].backendKey in t.poolByBackend;
    }
  }

  lemma RepeatedRoute(t: Tables, rs: seq<Route>, r: Route, o: Origins)
    requires RoutesGood(t, rs, o) && RulesGood(t, rs, o) && DefaultGood(t, rs) && Readable(rs + [r])
    requires r.key in t.routes && t.routes[r.key] == r.poolName
    ensures RoutesGood(t, rs + [r], o) && RulesGood(t, rs + [r], o) && DefaultGood(t, rs + [r])
  {
    var all := rs + [r];
    var q := o.keys[r.key];
    assert r in all && q in all && q in rs;
  }

  lemma NewDefault(t: Tables, rs: seq<Route>, r: Route, o: Origins)
    requires RoutesGood(t, rs, o) && RulesGood(t, rs, o) && DefaultGood(t, rs) && Readable(rs + [r])
    requires r.key !in t.routes && r.isDefault
    ensures t.defaultPool == ""
    ensures
      var u, p := t.(routes := t.routes[r.key := r.poolName], defaultPool := r.poolName), o.(keys := o.keys[r.key := r]);
      RoutesGood(u, rs + [r], p) && RulesGood(u, rs + [r], p) && DefaultGood(u, rs + [r])
  {
    hide IsRuleFor;
    var all := rs + [r];
    assert r in all;
    forall q | q in rs ensures q in all && !q.isDefault {
      assert q in all && q.key in t.routes;
    }
  }

  lemma NewRule(t: Tables, rs: seq<Route>, r: Route, rule: M.RoutingRule, o: Origins)
    requires RoutesGood(t, rs, o) && RulesGood(t, rs, o) && DefaultGood(t, rs)
    requires r.key !in t.routes && IsRuleFor(rule, r, t.priority)
    ensures
      var u := t.(routes := t.routes[r.key := r.poolName], rules := t.rules + [rule], priority := t.priority + 1);
      var p := o.(keys := o.keys[r.key := r], rules := o.rules + [r], ruleAt := o.ruleAt[r.key := |t.rules|]);
      RoutesGood(u, rs + [r], p) && RulesGood(u, rs + [r], p) && DefaultGood(u, rs + [r])
  {
    hide IsRuleFor;
    assert r in rs + [r];
    assert forall q | q in rs :: q in rs + [r];
    RuleIsNoDefault(rule, r, t.priority);
    OneMoreRule(t, rs, r, rule, o);
  }

  lemma OneMoreRule(t: Tables, rs: seq<Route>, r: Route, rule: M.RoutingRule, o: Origins)
    requires RoutesGood(t, rs, o) && RulesGood(t, rs, o) && r.key !in t.routes && IsRuleFor(rule, r, t.priority)
    ensures
      var u := t.(routes := t.routes[r.key := r.poolName], rules := t.rules + [rule], priority := t.priority + 1);
      RulesGood(u, rs + [r], o.(keys := o.keys[r.key := r], rules := o.rules + [r], ruleAt := o.ruleAt[r.key := |t.rules|]))
  {
    hide IsRuleFor;
    assert r in rs + [r];
    forall n | 0 <= n < |t.rules| ensures o.rules[n].key != r.key && o.rules[n] in rs + [r] {
      assert o.rules[n] in rs;
    }
  }

  lemma RuleIsNoDefault(rule: M.RoutingRule, r: Route, priority: int)
    ensures IsRuleFor(rule, r, priority) ==> !r.isDefault
  {
  }

  lemma AddKeyKeepsTables(cx: Context, t: Tables, rs: seq<Route>, r: Route, o: Origins) returns (p: Origins)
    requires RoutesGood(t, rs, o) && RulesGood(t, rs, o) && DefaultGood(t, rs) && Readable(rs + [r])
    ensures var a := AddKey(cx, t, r.poolName, r);
      if r.key in t.routes && t.routes[r.key] != r.poolName then
        a == Err(RouteConflict(r.key, t.routes[r.key], r.poolName))
      else
        && a.Ok? && a.value.pools == t.pools && a.value.poolByBackend == t.poolByBackend
        && RoutesGood(a.value, rs + [r], p) && RulesGood(a.value, rs + [r], p) && DefaultGood(a.value, rs + [r])
    ensures p == o.(keys := p.keys, rules := p.rules, ruleAt := p.ruleAt)
  {
    hide SafeName, RoutesGood, RulesGood, DefaultGood, Readable;
    p := o;
    if r.key in t.routes {
      if t.routes[r.key] == r.poolName {
        RepeatedRoute(t, rs, r, o);
      }
    } else if r.isDefault {
      NewDefault(t, rs, r, o);
      p := p.(keys := p.keys[r.key := r]);
    } else {
      var rule := RuleOf(cx, r, r.poolName, t.priority);
      NewRule(t, rs, r, rule, o);
      p := o.(keys := o.keys[r.key := r], rules := o.rules + [r], ruleAt := o.ruleAt[r.key := |t.rules|]);
    }
  }

  lemma PoolsDoNotMatter(t: Tables, u: Tables, rs: seq<Route>, o: Origins, p: Origins)
    requires u == t.(pools := u.pools, poolByBackend := u.poolByBackend) && p == o.(pools := p.pools, poolAt := p.poolAt)
    requires RoutesGood(t, rs, o) && RulesGood(t, rs, o) && DefaultGood(t, rs)
    ensures RoutesGood(u, rs, p) && RulesGood(u, rs, p) && DefaultGood(u, rs)
  {
  }

  lemma PoolForKeepsTables(cx: Context, t: Tables, rs: seq<Route>, r: Route, o: Origins) returns (p: Origins)
    requires Readable(rs + [r]) && Good(cx, t, rs, o)
    ensures var a := PoolFor(cx, t, r);
      if Resolves(cx, r) then
        && a.Ok? && a.value.1 == r.poolName && a.value.0.routes == t.routes
        && PoolsGood(cx, a.value.0, rs + [r], p)
        && RoutesGood(a.value.0, rs, p) && RulesGood(a.value.0, rs, p) && DefaultGood(a.value.0, rs)
      else a.Err? && (a.error.ResolverFailed? || a.error.BackendNodePortRequired?)
  {
    hide SafeName, PoolOf, PoolsGood, RoutesGood, RulesGood, DefaultGood, Readable;
    p := o;
    if r.backendKey in t.poolByBackend {
      KnownBackend(cx, t, rs, r, o);
    } else if Resolves(cx, r) {
      p := NewBackend(cx, t, rs, r, o);
      PoolsDoNotMatter(t, PoolFor(cx, t, r).value.0, rs, o, p);
    }
  }

  /** AddRoute fails exactly on an unresolved backend or a conflicting route; the check for two default backends
      can never be the one that fails. */
  lemma AddRouteKeepsTables(cx: Context, t: Tables, rs: seq<Route>, r: Route, o: Origins) returns (p: Origins)
    requires Readable(rs + [r]) && Good(cx, t, rs, o)
    ensures var a := AddRoute(cx, t, r);
      if !Resolves(cx, r) then a.Err? && (a.error.ResolverFailed? || a.error.BackendNodePortRequired?)
      else if r.key in t.routes && t.routes[r.key] != r.poolName then
        a == Err(RouteConflict(r.key, t.routes[r.key], r.poolName))
      else a.Ok? && Good(cx, a.value, rs + [r], p)
  {
    hide PoolFor, AddKey, RoutesGood, RulesGood, DefaultGood, Readable;
    p := PoolForKeepsTables(cx, t, rs, r, o);
    if Resolves(cx, r) {
      p := AddKeyKeepsTables(cx, PoolFor(cx, t, r).value.0, rs, r, p);
    }
  }

  // ----- All routes -----

  /** No two routes ask for the same key with different pools. */
  ghost predicate Consistent(rs: seq<Route>) {
    forall q, r | q in rs && r in rs && q.key == r.key :: q.poolName == r.poolName
  }

  ghost predicate AllResolve(cx: Context, rs: seq<Route>) {
    forall r | r in rs :: Resolves(cx, r)
  }

  ghost predicate IsConflictOf(e: GroupError, rs: seq<Route>) {
    e.RouteConflict? && e.previous != e.current
    && exists q, r | q in rs && r in rs :: q.key == r.key == e.key && q.poolName == e.previous && r.poolName == e.current
  }

  lemma PrefixFacts(rs: seq<Route>, r: Route)
    ensures Readable(rs + [r]) ==> Readable(rs)
    ensures Consistent(rs + [r]) ==> Consistent(rs)
    ensures forall e :: IsConflictOf(e, rs) ==> IsConflictOf(e, rs + [r])
    ensures forall cx :: AllResolve(cx, rs + [r]) <==> AllResolve(cx, rs) && Resolves(cx, r)
  {
    hide Resolves;
    assert forall q | q in rs :: q in rs + [r];
    assert r in rs + [r];
  }

  /** Compiling succeeds exactly when every backend resolves and no two routes conflict, whatever their order; a
      reported conflict is a real one; and two default backends are always reported as a route conflict. */
  lemma {:induction false} CompilesExactlyConsistentRoutes(cx: Context, rs: seq<Route>) returns (o: Origins)
    requires Readable(rs)
    ensures AddRoutes(cx, EMPTY_TABLES, rs).Ok? <==> AllResolve(cx, rs) && Consistent(rs)
    ensures AddRoutes(cx, EMPTY_TABLES, rs).Ok? ==> Good(cx, AddRoutes(cx, EMPTY_TABLES, rs).value, rs, o)
    ensures AddRoutes(cx, EMPTY_TABLES, rs).Err? ==>
      var e := AddRoutes(cx, EMPTY_TABLES, rs).error;
      e.ResolverFailed? || e.BackendNodePortRequired? || IsConflictOf(e, rs)
    decreases |rs|
  {
    o := NO_ORIGINS;
    if rs != [] {
      hide AddRoute, Readable, Consistent, IsConflictOf, Good, Resolves, AllResolve;
      var n := |rs| - 1;
      var before, r := rs[..n], rs[n];
      assert rs == before + [r];
      PrefixFacts(before, r);
      o := CompilesExactlyConsistentRoutes(cx, before);
      if AddRoutes(cx, EMPTY_TABLES, before).Ok? {
        var t := AddRoutes(cx, EMPTY_TABLES, before).value;
        ConflictsShow(cx, t, before, r, o);
        o := AddRouteKeepsTables(cx, t, before, r, o);
      }
    }
  }

  lemma ConflictsShow(cx: Context, t: Tables, rs: seq<Route>, r: Route, o: Origins)
    requires Good(cx, t, rs, o) && Consistent(rs)
    ensures Consistent(rs + [r]) <==> (r.key in t.routes ==> t.routes[r.key] == r.poolName)
    ensures r.key in t.routes && t.routes[r.key] != r.poolName ==>
      IsConflictOf(RouteConflict(r.key, t.routes[r.key], r.poolName), rs + [r])
  {
    hide PoolsGood, RulesGood, DefaultGood;
    var all := rs + [r];
    assert r in all;
    assert forall q | q in rs :: q in all;
    if r.key in t.routes {
      var q := o.keys[r.key];
      assert q in all && q.key == r.key && q.poolName == t.routes[r.key];
    }
  }

  // ----- The printed strings -----

  ghost predicate Printed(namespace: string, r: Route) {
    && r.backendKey == BackendKey(r.backend)
    && r.poolName == PoolName(namespace, r.backend)
    && r.key == r.host + "|" + r.match_ + "|" + r.path
    && (if r.isDefault then r.host == "" && r.match_ == "default" && r.path == "/" else r.match_ == "exact" || r.match_ == "prefix")
  }

  /** Kubernetes object and port names contain no colon, and host names no bar. */
  predicate PlainRoute(r: Route) {
    ':' !in r.backend.name && ':' !in r.backend.portName && '|' !in r.host
  }

  lemma BackendKeyReadsBack(a: ServiceRef, b: ServiceRef)
    requires ':' !in a.name && ':' !in a.portName && ':' !in b.name && ':' !in b.portName
    requires BackendKey(a) == BackendKey(b)
    ensures a == b
  {
    hide Itoa;
    var x, y := a.portName + [':'] + Itoa(a.portNumber), b.portName + [':'] + Itoa(b.portNumber);
    assert BackendKey(a) == a.name + [':'] + x;
    assert BackendKey(b) == b.name + [':'] + y;
    FirstSeparator(a.name, x, b.name, y, ':');
    FirstSeparator(a.portName, Itoa(a.portNumber), b.portName, Itoa(b.portNumber), ':');
    ItoaInjective(a.portNumber, b.portNumber);
  }

  /** Without a bar in a host, a key stands for one host, match and path. */
  lemma RouteKeyReadsBack(namespace: string, a: Route, b: Route)
    requires Printed(namespace, a) && Printed(namespace, b) && '|' !in a.host && '|' !in b.host
    ensures a.key == b.key <==> a.host == b.host && a.match_ == b.match_ && a.path == b.path
  {
    hide BackendKey, PoolName;
    if a.key == b.key {
      assert a.key == a.host + ['|'] + (a.match_ + ['|'] + a.path);
      assert b.key == b.host + ['|'] + (b.match_ + ['|'] + b.path);
      FirstSeparator(a.host, a.match_ + ['|'] + a.path, b.host, b.match_ + ['|'] + b.path, '|');
      FirstSeparator(a.match_, a.path, b.match_, b.path, '|');
    }
  }

  /** With a bar in a host, two different routes can share a key. */
  lemma ABarInAHostConfusesKeys(h: string, p: string)
    ensures (h + "|prefix|/b") + "|" + "exact" + "|" + p == h + "|" + "prefix" + "|" + ("/b|exact|" + p)
    ensures h + "|prefix|/b" != h
  {
    assert |h + "|prefix|/b"| > |h|;
  }

  lemma PoolNamesAreNonEmpty(namespace: string, ref: ServiceRef)
    ensures PoolName(namespace, ref) != ""
  {
    SafeNamesAreSafe("ing-pool-" + namespace + "-" + ref.name + "-" + ref.portName + "-" + Itoa(ref.portNumber));
  }

  lemma PrintedRoutesAreReadable(namespace: string, rs: seq<Route>)
    requires forall r | r in rs :: Printed(namespace, r) && PlainRoute(r)
    ensures Readable(rs)
  {
    forall r | r in rs ensures r.poolName != "" {
      assert Printed(namespace, r);
      PoolNamesAreNonEmpty(namespace, r.backend);
    }
    forall q, r | q in rs && r in rs && q.backendKey == r.backendKey
      ensures q.backend == r.backend && q.poolName == r.poolName
    {
      assert Printed(namespace, q) && Printed(namespace, r) && PlainRoute(q) && PlainRoute(r);
      BackendKeyReadsBack(q.backend, r.backend);
    }
    forall q, r | q in rs && r in rs && q.key == r.key
      ensures q.isDefault == r.isDefault
    {
      assert Printed(namespace, q) && Printed(namespace, r) && PlainRoute(q) && PlainRoute(r);
      RouteKeyReadsBack(namespace, q, r);
    }
    hide BackendKey, PoolName;
    forall q, r | q in rs && r in rs
      ensures (q.backend.name, q.backend.portName, q.backend.portNumber) == (r.backend.name, r.backend.portName, r.backend.portNumber)
              ==> q.backendKey == r.backendKey
      ensures q.isDefault && r.isDefault ==> q.key == r.key
    {
      assert Printed(namespace, q) && Printed(namespace, r);
    }
  }

  lemma PathRoutesArePrinted(namespace: string, host: string, paths: seq<Path>)
    requires forall p | p in paths :: GoodPath(p)
    ensures forall r | r in PathRoutes(namespace, host, paths) :: Printed(namespace, r)
  {
    hide BackendKey, PoolName, NormalHost;
  }

  lemma {:induction false} RuleRoutesArePrinted(namespace: string, rules: seq<Rule>)
    requires forall r | r in rules :: GoodRule(r)
    ensures forall r | r in RuleRoutes(namespace, rules) :: Printed(namespace, r)
    decreases |rules|
  {
    hide Printed, PathRoutes;
    if rules != [] {
      assert GoodRule(rules[|rules| - 1]);
      RuleRoutesArePrinted(namespace, rules[..|rules| - 1]);
      PathRoutesArePrinted(namespace, rules[|rules| - 1].host, rules[|rules| - 1].http.value);
    }
  }

  lemma DefaultRouteIsPrinted(namespace: string, be: ServiceRef)
    ensures Printed(namespace, DefaultRoute(namespace, be))
  {
    hide BackendKey, PoolName;
    assert TrimSpace("") == "" && Lower("") == "";
  }

  lemma {:induction false} AllRoutesArePrinted(namespace: string, members: seq<Ingress>)
    requires forall m | m in members :: Usable(m) && m.namespace == namespace
    ensures forall r | r in AllRoutes(members) :: Printed(namespace, r)
    decreases |members|
  {
    hide Printed, RuleRoutes, DefaultRoute;
    if members != [] {
      var m := members[|members| - 1];
      assert Usable(m);
      AllRoutesArePrinted(namespace, members[..|members| - 1]);
      RuleRoutesArePrinted(namespace, m.rules);
      if m.defaultBackend.Some? {
        DefaultRouteIsPrinted(namespace, m.defaultBackend.value.service.value);
      }
    }
  }

  // ----- The main results -----

  /** One line of the routing table. */
  datatype Entry = Entry(host: string, match_: string, path: string, pool: string)

  function EntryOf(rule: M.RoutingRule): Entry {
    Entry(rule.host, rule.matchType, rule.path, rule.poolName)
  }

  function Asked(r: Route): Entry {
    Entry(r.host, r.match_, r.path, r.poolName)
  }

  ghost function Table(rules: seq<M.RoutingRule>): set<Entry> {
    set rule | rule in rules :: EntryOf(rule)
  }

  ghost function Requested(rs: seq<Route>): set<Entry> {
    set r | r in rs && !r.isDefault :: Asked(r)
  }

  /** Each entry stands for one host, match and path. */
  ghost predicate RulesAreFunctional(rules: seq<M.RoutingRule>) {
    forall m, n | 0 <= m < n < |rules| ::
      !(rules[m].host == rules[n].host && rules[m].matchType == rules[n].matchType && rules[m].path == rules[n].path)
  }

  /** The routing table is exactly the requested relation, functional, with consecutive priorities; the pools are exactly
      those of the requested backends, each once and filled with its backend's targets; and the listeners' default pool is
      that of the default backend, or none. */
  ghost predicate Exact(cx: Context, stack: M.Stack, rs: seq<Route>) {
    && Table(stack.routingRules) == Requested(rs)
    && RulesAreFunctional(stack.routingRules)
    && (forall n | 0 <= n < |stack.routingRules| :: stack.routingRules[n].priority == n + 1)
    && PoolsMatch(cx, stack.pools, rs)
    && (forall m, n | 0 <= m < n < |stack.pools| :: !SamePort(stack.pools[m], stack.pools[n]))
    && forall vs | vs in stack.virtualServers :: IsDefaultOf(vs.defaultPoolName, rs)
  }

  /** Every route has its pool, and every pool a route. */
  ghost predicate PoolsMatch(cx: Context, pools: seq<M.Pool>, rs: seq<Route>) {
    && (forall r | r in rs :: exists p | p in pools :: IsPoolFor(cx, p, r))
    && (forall p | p in pools :: exists r | r in rs :: IsPoolFor(cx, p, r))
  }

  /** The pool of every default backend, and none where there is no default backend. */
  ghost predicate IsDefaultOf(pool: string, rs: seq<Route>) {
    && (forall r | r in rs && r.isDefault :: pool == r.poolName)
    && ((forall r | r in rs :: !r.isDefault) ==> pool == "")
  }

  lemma TableIsRequested(namespace: string, t: Tables, rs: seq<Route>, o: Origins)
    requires RulesGood(t, rs, o) && Consistent(rs) && forall r | r in rs :: Printed(namespace, r) && PlainRoute(r)
    ensures Table(t.rules) == Requested(rs)
  {
    hide Printed, PlainRoute;
    forall rule | rule in t.rules
      ensures EntryOf(rule) in Requested(rs)
    {
      var n :| 0 <= n < |t.rules| && t.rules[n] == rule;
      assert o.rules[n] in rs && Asked(o.rules[n]) == EntryOf(rule);
    }
    forall r | r in rs && !r.isDefault
      ensures Asked(r) in Table(t.rules)
    {
      var n := o.ruleAt[r.key];
      assert o.rules[n] in rs && '|' !in r.host && '|' !in o.rules[n].host by {
        assert PlainRoute(r) && PlainRoute(o.rules[n]);
        PlainHosts(r);
        PlainHosts(o.rules[n]);
      }
      RouteKeyReadsBack(namespace, r, o.rules[n]);
      assert t.rules[n] in t.rules && EntryOf(t.rules[n]) == Asked(r);
    }
  }

  lemma PlainHosts(r: Route)
    requires PlainRoute(r)
    ensures '|' !in r.host
  {
  }

  lemma TableIsFunctional(namespace: string, t: Tables, rs: seq<Route>, o: Origins)
    requires RulesGood(t, rs, o) && forall r | r in rs :: Printed(namespace, r) && PlainRoute(r)
    ensures RulesAreFunctional(t.rules)
  {
    hide Printed, PlainRoute;
    forall m, n | 0 <= m < n < |t.rules|
      ensures !(t.rules[m].host == t.rules[n].host && t.rules[m].matchType == t.rules[n].matchType && t.rules[m].path == t.rules[n].path)
    {
      assert o.rules[m] in rs && o.rules[n] in rs;
      PlainHosts(o.rules[m]);
      PlainHosts(o.rules[n]);
      RouteKeyReadsBack(namespace, o.rules[m], o.rules[n]);
    }
  }

  lemma PoolsAreExact(cx: Context, t: Tables, rs: seq<Route>, o: Origins, r: Route)
    requires PoolsGood(cx, t, rs, o) && Readable(rs) && r in rs
    ensures exists p | p in t.pools :: IsPoolFor(cx, p, r)
  {
    hide MembersOf;
    var n := o.poolAt[r.backendKey];
    assert o.pools[n] in rs && IsPoolFor(cx, t.pools[n], o.pools[n]);
    assert t.pools[n] in t.pools && IsPoolFor(cx, t.pools[n], r);
  }

  /** Route compilation is exact: it fails on an invalid member, on a backend that does not resolve, or on a conflict
      between two routes, and otherwise yields exactly the relation the members ask for. */
  lemma CompilationIsExact(ordered: seq<Ingress>, cfg: LBConfig, opts: Options)
    requires ordered != [] && opts.resolver.Some? && MemberError(ordered[0], ordered).None?
    requires forall m | m in ordered :: Usable(m)
    requires forall r | r in AllRoutes(ordered) :: PlainRoute(r)
    ensures
      var rs, cx := AllRoutes(ordered), ContextOf(ordered[0], cfg, opts.resolver.value);
      match Compile(ordered, cfg, opts)
      case Ok(stack) => AllResolve(cx, rs) && Consistent(rs) && Exact(cx, stack, rs)
      case Err(e) =>
        && !(AllResolve(cx, rs) && Consistent(rs))
        && (e.ResolverFailed? || e.BackendNodePortRequired? || IsConflictOf(e, rs))
  {
    hide Printed, Readable, PlainRoute, MemberError, ContextOf, AllResolve, Consistent, IsConflictOf;
    AcceptedMembersAreUsable(ordered[0], ordered);
    var rs, cx := AllRoutes(ordered), ContextOf(ordered[0], cfg, opts.resolver.value);
    AllRoutesArePrinted(ordered[0].namespace, ordered);
    PrintedRoutesAreReadable(ordered[0].namespace, rs);
    var o := CompilesExactlyConsistentRoutes(cx, rs);
    if AddRoutes(cx, EMPTY_TABLES, rs).Ok? {
      var t := AddRoutes(cx, EMPTY_TABLES, rs).value;
      var tls, certificates := NeedsTLS(ordered), AllCertificates(cx, ordered);
      StackShowsTables(cx, ordered[0], tls, certificates, opts, t);
      TablesAreExact(cx, ordered[0].namespace, StackOf(cx, ordered[0], tls, certificates, opts, t), t, rs, o);
    }
  }

  lemma StackShowsTables(cx: Context, anchor: Ingress, tls: bool, certificates: seq<M.Certificate>, opts: Options, t: Tables)
    ensures
      var stack := StackOf(cx, anchor, tls, certificates, opts, t);
      && stack.routingRules == t.rules && stack.pools == t.pools
      && forall vs | vs in stack.virtualServers :: vs.defaultPoolName == t.defaultPool
  {
    hide SafeName, LBServiceName, Slashless, Lower;
  }

  lemma GoodShows(cx: Context, t: Tables, rs: seq<Route>, o: Origins)
    requires Good(cx, t, rs, o)
    ensures forall n | 0 <= n < |t.rules| :: t.rules[n].priority == n + 1
    ensures forall m, n | 0 <= m < n < |t.pools| :: !SamePort(t.pools[m], t.pools[n])
    ensures IsDefaultOf(t.defaultPool, rs)
  {
    hide IsPoolFor, SamePort;
    forall n | 0 <= n < |t.rules| ensures t.rules[n].priority == n + 1 {
      assert IsRuleFor(t.rules[n], o.rules[n], n + 1);
    }
  }

  lemma PoolHasRoute(cx: Context, t: Tables, rs: seq<Route>, o: Origins, p: M.Pool)
    requires PoolsGood(cx, t, rs, o) && p in t.pools
    ensures exists r | r in rs :: IsPoolFor(cx, p, r)
  {
    hide IsPoolFor, SamePort;
    var n :| 0 <= n < |t.pools| && t.pools[n] == p;
    assert o.pools[n] in rs && IsPoolFor(cx, p, o.pools[n]);
  }

  lemma PoolsPresent(cx: Context, t: Tables, rs: seq<Route>, o: Origins)
    requires PoolsGood(cx, t, rs, o) && Readable(rs)
    ensures PoolsMatch(cx, t.pools, rs)
  {
    hide PoolsGood, Readable, IsPoolFor;
    forall r | r in rs ensures exists p | p in t.pools :: IsPoolFor(cx, p, r) {
      PoolsAreExact(cx, t, rs, o, r);
    }
    forall p | p in t.pools ensures exists r | r in rs :: IsPoolFor(cx, p, r) {
      PoolHasRoute(cx, t, rs, o, p);
    }
  }

  lemma TablesAreExact(cx: Context, namespace: string, stack: M.Stack, t: Tables, rs: seq<Route>, o: Origins)
    requires Good(cx, t, rs, o) && Readable(rs) && Consistent(rs)
    requires forall r | r in rs :: Printed(namespace, r) && PlainRoute(r)
    requires stack.routingRules == t.rules && stack.pools == t.pools
    requires forall vs | vs in stack.virtualServers :: vs.defaultPoolName == t.defaultPool
    ensures Exact(cx, stack, rs)
  {
    hide Printed, Readable, PlainRoute, RoutesGood, PoolsGood, RulesGood, DefaultGood, IsPoolFor,
      RulesAreFunctional, Table, Requested, SamePort, Consistent, PoolsMatch, IsDefaultOf;
    TableIsRequested(namespace, t, rs, o);
    TableIsFunctional(namespace, t, rs, o);
    PoolsPresent(cx, t, rs, o);
    GoodShows(cx, t, rs, o);
  }

  // ----- Order independence -----

  lemma {:induction false} PresentCounts(members: seq<Option<Ingress>>, v: Ingress)
    requires None !in members
    ensures multiset(Present(members))[v] == multiset(members)[Some(v)]
    decreases |members|
  {
    if members != [] {
      var n := |members| - 1;
      var before, last := members[..n], members[n];
      assert members == before + [last] && last in members;
      PresentCounts(before, v);
      assert Present(members) == Present(before) + [last.value];
    }
  }

  lemma PresentPermutes(a: seq<Option<Ingress>>, b: seq<Option<Ingress>>)
    requires None !in a && None !in b && multiset(a) == multiset(b)
    ensures multiset(Present(a)) == multiset(Present(b))
  {
    forall v: Ingress ensures multiset(Present(a))[v] == multiset(Present(b))[v] {
      PresentCounts(a, v);
      PresentCounts(b, v);
    }
  }

  /** A namespace and a name identify one Ingress. */
  ghost predicate NamesIdentify(members: seq<Option<Ingress>>) {
    forall a, b | Some(a) in members && Some(b) in members && SortKey(a) == SortKey(b) :: a == b
  }

  lemma NamesSeparate(ordered: seq<Ingress>, members: seq<Option<Ingress>>)
    requires None !in members && IsSortOf(ordered, members) && NamesIdentify(members)
    ensures Separates(MemberLess, ordered)
  {
    hide Less, SortKey;
    forall x, y | x in ordered && y in ordered && !MemberLess(x, y) && !MemberLess(y, x)
      ensures x == y
    {
      LessIsTotal(SortKey(x), SortKey(y));
      assert x in multiset(ordered) && y in multiset(ordered);
      PresentCounts(members, x);
      PresentCounts(members, y);
      assert Some(x) in members && Some(y) in members;
    }
  }

  /** Whatever order informers deliver the members in, and however the sort breaks ties, the compiler returns the same
      stack or the same error. */
  lemma SameResultInAnyOrder(a: seq<Option<Ingress>>, aOrdered: seq<Ingress>, b: seq<Option<Ingress>>, bOrdered: seq<Ingress>,
                             cfg: LBConfig, opts: Options)
    requires multiset(a) == multiset(b) && NamesIdentify(a)
    requires IsSortOf(aOrdered, a) && IsSortOf(bOrdered, b)
    ensures Outcome(a, aOrdered, cfg, opts) == Outcome(b, bOrdered, cfg, opts)
  {
    hide Compile, MemberLess, SortKey;
    assert |a| == |multiset(a)| == |multiset(b)| == |b|;
    assert None in a <==> None in multiset(a);
    assert None in b <==> None in multiset(b);
    if None !in a {
      PresentPermutes(a, b);
      NamesSeparate(aOrdered, a);
      SortedIsUnique(MemberLess, aOrdered, bOrdered);
    }
  }

  // ----- Where the routing table is weaker than it looks -----

  /** Joining service and port names with a dash loses their boundary: two different backends get one pool name. */
  lemma PoolNamesCollide(namespace: string, a: string, b: string, c: string, n: int)
    ensures PoolName(namespace, ServiceRef(a + "-" + b, c, n)) == PoolName(namespace, ServiceRef(a, b + "-" + c, n))
    ensures ServiceRef(a + "-" + b, c, n) != ServiceRef(a, b + "-" + c, n)
  {
    hide SafeName, Itoa;
    var prefix := "ing-pool-" + namespace + "-";
    assert prefix + (a + "-" + b) + "-" + c + "-" + Itoa(n) == prefix + a + "-" + (b + "-" + c) + "-" + Itoa(n);
    assert |a + "-" + b| > |a|;
  }

  /** The compiler rejects two backends for one route exactly when their pool names differ, so the collision above is
      compiled without an error, and by CompilationIsExact both pools then carry the one name. */
  lemma ConflictsAreFoundByPoolName(cx: Context, q: Route, r: Route)
    requires Readable([q, r]) && q.key == r.key && Resolves(cx, q) && Resolves(cx, r)
    ensures AddRoutes(cx, EMPTY_TABLES, [q, r]).Err? <==> q.poolName != r.poolName
  {
    hide Readable, AddRoute;
    var rs := [q, r];
    assert q in rs && r in rs;
    var _ := CompilesExactlyConsistentRoutes(cx, rs);
  }
}
