/** The Ingress group compiler (pkg/ingress/group_builder.go): one routing table for all members of a group. */
module IngressGroup {
  import opened Common
  import opened Text
  import opened Sorting
  import opened IngressShape
  import M = Model

  datatype Node = Node(ip: string, weight: int)
  datatype BackendSet = BackendSet(nodePort: int, nodes: seq<Node>)

  type Resolver = (string, ServiceRef) -> Result<BackendSet, string>

  datatype LBConfig = LBConfig(
    routingAlgorithm: string, persistenceType: string, drainingTimeout: int, sourceRanges: seq<string>,
    healthType: string, healthPath: string, healthInterval: int)

  datatype Options = Options(httpPort: int, httpsPort: int, resolver: Option<Resolver>)

  datatype GroupError =
    | NoMembers | NoResolver | NilMember | MixedGroup
    | InvalidIngress(namespace: string, name: string, cause: ShapeError)
    | ResolverFailed(message: string)
    | BackendNodePortRequired(backend: string)
    | RouteConflict(key: string, previous: string, current: string)
    | DefaultBackendConflict

  // ----- Names -----

  function GroupName(ing: Ingress): string {
    TrimSpace(ing.groupAnnotation)
  }

  function Identity(namespace: string, group: string, fallback: string): string {
    if TrimSpace(group) == "" then "ingress/" + namespace + "/" + fallback
    else "ingress-group/" + namespace + "/" + group
  }

  /** strings.ReplaceAll(s, "/", "-") */
  function Slashless(s: string): string {
    seq(|s|, i requires 0 <= i < |s| => if s[i] == '/' then '-' else s[i])
  }

  function BackendKey(ref: ServiceRef): string {
    ref.name + ":" + ref.portName + ":" + Itoa(ref.portNumber)
  }

  function PoolName(namespace: string, ref: ServiceRef): string {
    SafeName("ing-pool-" + namespace + "-" + ref.name + "-" + ref.portName + "-" + Itoa(ref.portNumber))
  }

  function SortKey(ing: Ingress): string {
    ing.namespace + "/" + ing.name
  }

  predicate MemberLess(a: Ingress, b: Ingress) {
    Less(SortKey(a), SortKey(b))
  }

  // ----- The routes a group asks for -----

  /** One path or default backend, with the strings that addRoute and poolFor print for it: the normalised host, the
      route key, the backend key and the pool name. */
  datatype Route = Route(
    host: string, path: string, match_: string, backend: ServiceRef, isDefault: bool, key: string, backendKey: string,
    poolName: string)

  function NormalHost(host: string): string {
    Lower(TrimSpace(host))
  }

  function RouteOf(namespace: string, host: string, path: string, match_: string, be: ServiceRef, isDefault: bool): Route {
    Route(NormalHost(host), path, match_, be, isDefault, NormalHost(host) + "|" + match_ + "|" + path, BackendKey(be),
          PoolName(namespace, be))
  }

  function PathRoute(namespace: string, host: string, p: Path): Route
    requires GoodPath(p)
  {
    RouteOf(namespace, host, p.path, if p.pathType.value.Exact? then "exact" else "prefix", p.backend.service.value, false)
  }

  function DefaultRoute(namespace: string, be: ServiceRef): Route {
    RouteOf(namespace, "", "/", "default", be, true)
  }

  function PathRoutes(namespace: string, host: string, paths: seq<Path>): (rs: seq<Route>)
    requires forall p | p in paths :: GoodPath(p)
    ensures |rs| == |paths|
  {
    seq(|paths|, i requires 0 <= i < |paths| && GoodPath(paths[i]) => PathRoute(namespace, host, paths[i]))
  }

  function RuleRoutes(namespace: string, rules: seq<Rule>): seq<Route>
    requires forall r | r in rules :: GoodRule(r)
  {
    if rules == [] then []
    else
      assert GoodRule(rules[|rules| - 1]);
      RuleRoutes(namespace, rules[..|rules| - 1])
      + PathRoutes(namespace, rules[|rules| - 1].host, rules[|rules| - 1].http.value)
  }

  function DefaultRoutes(namespace: string, be: Option<Backend>): seq<Route>
    requires be.Some? ==> GoodBackend(be.value)
  {
    if be.Some? then [DefaultRoute(namespace, be.value.service.value)] else []
  }

  predicate Usable(ing: Ingress) {
    (forall r | r in ing.rules :: GoodRule(r)) && (ing.defaultBackend.Some? ==> GoodBackend(ing.defaultBackend.value))
  }

  function Routes(ing: Ingress): seq<Route>
    requires Usable(ing)
  {
    DefaultRoutes(ing.namespace, ing.defaultBackend) + RuleRoutes(ing.namespace, ing.rules)
  }

  function AllRoutes(members: seq<Ingress>): seq<Route>
    requires forall m | m in members :: Usable(m)
  {
    if members == [] then []
    else
      assert Usable(members[|members| - 1]);
      AllRoutes(members[..|members| - 1]) + Routes(members[|members| - 1])
  }

  // ----- The tables the compiler fills -----

  datatype Context = Context(
    namespace: string, group: string, identity: string, config: LBConfig, resolver: Resolver)

  datatype Tables = Tables(
    pools: seq<M.Pool>, rules: seq<M.RoutingRule>, poolByBackend: map<string, string>, routes: map<string, string>,
    defaultPool: string, priority: int)

  const EMPTY_TABLES := Tables([], [], map[], map[], "", 1)

  function Owner(cx: Context): M.Ownership {
    M.Ownership("IngressGroup", cx.namespace, cx.identity, "", cx.group)
  }

  function MembersOf(targets: BackendSet): seq<M.BackendMember> {
    seq(|targets.nodes|, i requires 0 <= i < |targets.nodes| =>
      M.BackendMember("", "", targets.nodes[i].ip, targets.nodePort, targets.nodes[i].weight))
  }

  function PoolOf(cx: Context, name: string, ref: ServiceRef, targets: BackendSet): M.Pool {
    M.Pool(
      name, ref.name, ref.portName, ref.portNumber, MembersOf(targets),
      Some(M.Monitor(SafeName("mon-" + name), cx.config.healthType, cx.config.healthPath, cx.config.healthInterval, 0, 0)),
      Owner(cx))
  }

  function RuleOf(cx: Context, r: Route, pool: string, priority: int): M.RoutingRule {
    M.RoutingRule(
      SafeName("ing-rule-" + Slashless(cx.identity) + "-" + Itoa(priority)),
      r.host, r.path, r.match_, pool, priority, Owner(cx))
  }

  function PoolFor(cx: Context, t: Tables, r: Route): Result<(Tables, string), GroupError> {
    if r.backendKey in t.poolByBackend && t.poolByBackend[r.backendKey] != "" then
      Ok((t, t.poolByBackend[r.backendKey]))
    else
      match cx.resolver(cx.namespace, r.backend)
      case Err(e) => Err(ResolverFailed(e))
      case Ok(targets) =>
        if targets.nodePort == 0 then Err(BackendNodePortRequired(r.backendKey))
        else
          Ok((t.(pools := t.pools + [PoolOf(cx, r.poolName, r.backend, targets)],
                 poolByBackend := t.poolByBackend[r.backendKey := r.poolName]), r.poolName))
  }

  /** The part of addRoute after the pool is known. */
  function AddKey(cx: Context, u: Tables, pool: string, r: Route): Result<Tables, GroupError> {
    if r.key in u.routes && u.routes[r.key] != pool then Err(RouteConflict(r.key, u.routes[r.key], pool))
    else if r.key in u.routes then Ok(u)
    else
      var v := u.(routes := u.routes[r.key := pool]);
      if r.isDefault then
        if v.defaultPool != "" && v.defaultPool != pool then Err(DefaultBackendConflict)
        else Ok(v.(defaultPool := pool))
      else
        Ok(v.(rules := v.rules + [RuleOf(cx, r, pool, v.priority)], priority := v.priority + 1))
  }

  function AddRoute(cx: Context, t: Tables, r: Route): Result<Tables, GroupError> {
    match PoolFor(cx, t, r)
    case Err(e) => Err(e)
    case Ok((u, pool)) => AddKey(cx, u, pool, r)
  }

  function AddRoutes(cx: Context, t: Tables, rs: seq<Route>): Result<Tables, GroupError> {
    if rs == [] then Ok(t)
    else
      match AddRoutes(cx, t, rs[..|rs| - 1])
      case Err(e) => Err(e)
      case Ok(u) => AddRoute(cx, u, rs[|rs| - 1])
  }

  // ----- The compiled stack -----

  function HTTPPort(o: Options): int { if o.httpPort == 0 then 80 else o.httpPort }

  function HTTPSPort(o: Options): int { if o.httpsPort == 0 then 443 else o.httpsPort }

  function LBServiceName(ing: Ingress): string {
    if GroupName(ing) != "" then SafeName("ing-group-" + ing.namespace + "-" + GroupName(ing))
    else SafeName("ing-" + ing.namespace + "-" + ing.name)
  }

  function GroupVirtualServer(cx: Context, protocol: string, port: int, defaultPool: string): M.VirtualServer {
    M.VirtualServer(
      SafeName("ing-vs-" + Slashless(cx.identity) + "-" + Lower(protocol)), port, 0, protocol,
      cx.config.routingAlgorithm, cx.config.persistenceType, cx.config.drainingTimeout, cx.config.sourceRanges, None,
      defaultPool, Owner(cx))
  }

  function CertificatesOf(cx: Context, tls: seq<TLS>): seq<M.Certificate> {
    seq(|tls|, i requires 0 <= i < |tls| =>
      M.Certificate(SafeName("ing-cert-" + cx.namespace + "-" + tls[i].secretName), tls[i].secretName, tls[i].hosts, Owner(cx)))
  }

  function AllCertificates(cx: Context, members: seq<Ingress>): seq<M.Certificate> {
    if members == [] then []
    else AllCertificates(cx, members[..|members| - 1]) + CertificatesOf(cx, members[|members| - 1].tls)
  }

  predicate NeedsTLS(members: seq<Ingress>) {
    exists m | m in members :: |m.tls| > 0
  }

  function StackOf(cx: Context, anchor: Ingress, needsTLS: bool, certificates: seq<M.Certificate>, opts: Options, t: Tables): M.Stack {
    M.Stack(
      M.LBService(LBServiceName(anchor), "Ingress group LB for " + cx.identity, "", "", "", Owner(cx)),
      M.VIP(SafeName("ing-vip-" + Slashless(cx.identity)), Owner(cx)),
      [GroupVirtualServer(cx, "HTTP", HTTPPort(opts), t.defaultPool)]
      + (if needsTLS then [GroupVirtualServer(cx, "HTTPS", HTTPSPort(opts), t.defaultPool)] else []),
      t.pools, t.rules, certificates, [])
  }

  /** The first member that does not belong to the anchor's group or has a bad shape. */
  function MemberError(anchor: Ingress, members: seq<Ingress>): Option<GroupError> {
    if members == [] then None
    else
      var n := |members| - 1;
      if MemberError(anchor, members[..n]).Some? then MemberError(anchor, members[..n])
      else if members[n].namespace != anchor.namespace || GroupName(members[n]) != GroupName(anchor) then Some(MixedGroup)
      else
        match ErrorOf(members[n])
        case Some(e) => Some(InvalidIngress(members[n].namespace, members[n].name, e))
        case None => None
  }

  function ContextOf(anchor: Ingress, cfg: LBConfig, resolver: Resolver): Context {
    var group := GroupName(anchor);
    Context(anchor.namespace, group, Identity(anchor.namespace, group, anchor.name), cfg, resolver)
  }

  lemma {:induction false} AcceptedMembersAreUsable(anchor: Ingress, members: seq<Ingress>)
    requires MemberError(anchor, members).None?
    ensures forall m | m in members :: Usable(m) && WellShaped(m) && m.namespace == anchor.namespace
  {
    if members != [] {
      var n := |members| - 1;
      AcceptedMembersAreUsable(anchor, members[..n]);
      AcceptsExactlyWellShaped(members[n]);
      assert members == members[..n] + [members[n]];
    }
  }

  /** What the compiler returns for its sorted members. */
  function Compile(ordered: seq<Ingress>, cfg: LBConfig, opts: Options): Result<M.Stack, GroupError>
    requires ordered != [] && opts.resolver.Some?
  {
    var anchor := ordered[0];
    var error := MemberError(anchor, ordered);
    if error.Some? then Err(error.value)
    else
      AcceptedMembersAreUsable(anchor, ordered);
      var cx := ContextOf(anchor, cfg, opts.resolver.value);
      match AddRoutes(cx, EMPTY_TABLES, AllRoutes(ordered))
      case Err(e) => Err(e)
      case Ok(t) => Ok(StackOf(cx, anchor, NeedsTLS(ordered), AllCertificates(cx, ordered), opts, t))
  }

  function Present(members: seq<Option<Ingress>>): seq<Ingress>
    requires None !in members
  {
    seq(|members|, i requires 0 <= i < |members| && members[i] in members => members[i].value)
  }

  /** The members as a sort may leave them. */
  ghost predicate IsSortOf(ordered: seq<Ingress>, members: seq<Option<Ingress>>) {
    && |ordered| == |members|
    && (None !in members ==> Sorted(MemberLess, ordered) && multiset(ordered) == multiset(Present(members)))
  }

  /** The whole result, given the order in which the sort left the members. */
  function Outcome(members: seq<Option<Ingress>>, ordered: seq<Ingress>, cfg: LBConfig, opts: Options)
    : Result<M.Stack, GroupError>
    requires |ordered| == |members|
  {
    if members == [] then Err(NoMembers)
    else if opts.resolver.None? then Err(NoResolver)
    else if None in members then Err(NilMember)
    else Compile(ordered, cfg, opts)
  }

  // ----- The program: closures over shared tables, called in nested loops -----

  class Compiler {
    const cx: Context
    var pools: seq<M.Pool>
    var rules: seq<M.RoutingRule>
    var poolByBackend: map<string, string>
    var routes: map<string, string>
    var defaultPool: string
    var priority: int

    function State(): Tables
      reads this
    {
      Tables(pools, rules, poolByBackend, routes, defaultPool, priority)
    }

    constructor (cx: Context)
      ensures this.cx == cx && State() == EMPTY_TABLES
    {
      this.cx := cx;
      pools, rules, poolByBackend, routes, defaultPool, priority := [], [], map[], map[], "", 1;
    }

    method PoolForRoute(r: Route) returns (pool: Result<string, GroupError>)
      modifies this
      ensures PoolFor(cx, old(State()), r) == (if pool.Err? then Err(pool.error) else Ok((State(), pool.value)))
      ensures pool.Err? ==> State() == old(State())
    {
      hide PoolOf;
      if r.backendKey in poolByBackend && poolByBackend[r.backendKey] != "" {
        return Ok(poolByBackend[r.backendKey]);
      }
      var targets := cx.resolver(cx.namespace, r.backend);
      if targets.Err? {
        return Err(ResolverFailed(targets.error));
      }
      if targets.value.nodePort == 0 {
        return Err(BackendNodePortRequired(r.backendKey));
      }
      pools := pools + [PoolOf(cx, r.poolName, r.backend, targets.value)];
      poolByBackend := poolByBackend[r.backendKey := r.poolName];
      return Ok(r.poolName);
    }

    /** addRoute; an error leaves the tables unused, since the whole compilation fails. */
    method Add(route: Route) returns (e: Option<GroupError>)
      modifies this
      ensures AddRoute(cx, old(State()), route) == (if e.Some? then Err(e.value) else Ok(State()))
    {
      hide PoolFor, RuleOf;
      var pool := PoolForRoute(route);
      if pool.Err? {
        return Some(pool.error);
      }
      if route.key in routes && routes[route.key] != pool.value {
        return Some(RouteConflict(route.key, routes[route.key], pool.value));
      }
      if route.key in routes {
        return None;
      }
      routes := routes[route.key := pool.value];
      if route.isDefault {
        if defaultPool != "" && defaultPool != pool.value {
          return Some(DefaultBackendConflict);
        }
        defaultPool := pool.value;
        return None;
      }
      rules := rules + [RuleOf(cx, route, pool.value, priority)];
      priority := priority + 1;
      return None;
    }

    method AddAll(ghost done: seq<Route>, namespace: string, host: string, paths: seq<Path>)
      returns (e: Option<GroupError>)
      requires AddRoutes(cx, EMPTY_TABLES, done) == Ok(State())
      requires forall p | p in paths :: GoodPath(p)
      modifies this
      ensures AddRoutes(cx, EMPTY_TABLES, done + PathRoutes(namespace, host, paths))
           == (if e.Some? then Err(e.value) else Ok(State()))
    {
      hide PathRoute, AddRoute;
      ghost var rs := PathRoutes(namespace, host, paths);
      assert done + rs[..0] == done;
      for j := 0 to |paths|
        invariant AddRoutes(cx, EMPTY_TABLES, done + rs[..j]) == Ok(State())
      {
        assert GoodPath(paths[j]);
        var route := PathRoute(namespace, host, paths[j]);
        ghost var next := done + rs[..j + 1];
        assert next[..|next| - 1] == done + rs[..j];
        e := Add(route);
        ErrorsStop(cx, EMPTY_TABLES, next, done + rs);
        if e.Some? {
          return;
        }
      }
      assert rs[..|paths|] == rs;
      e := None;
    }

    method AddDefault(ghost done: seq<Route>, namespace: string, be: Option<Backend>) returns (e: Option<GroupError>)
      requires AddRoutes(cx, EMPTY_TABLES, done) == Ok(State()) && (be.Some? ==> GoodBackend(be.value))
      modifies this
      ensures AddRoutes(cx, EMPTY_TABLES, done + DefaultRoutes(namespace, be)) == (if e.Some? then Err(e.value) else Ok(State()))
    {
      hide AddRoute, DefaultRoute;
      e := None;
      if be.Some? {
        e := Add(DefaultRoute(namespace, be.value.service.value));
        assert (done + DefaultRoutes(namespace, be))[..|done|] == done;
      } else {
        assert done + [] == done;
      }
    }

    method AddRules(ghost done: seq<Route>, namespace: string, rules: seq<Rule>) returns (e: Option<GroupError>)
      requires AddRoutes(cx, EMPTY_TABLES, done) == Ok(State()) && forall r | r in rules :: GoodRule(r)
      modifies this
      ensures AddRoutes(cx, EMPTY_TABLES, done + RuleRoutes(namespace, rules)) == (if e.Some? then Err(e.value) else Ok(State()))
    {
      hide AddRoutes, PathRoutes;
      assert done + RuleRoutes(namespace, rules[..0]) == done;
      for i := 0 to |rules|
        invariant AddRoutes(cx, EMPTY_TABLES, done + RuleRoutes(namespace, rules[..i])) == Ok(State())
      {
        assert GoodRule(rules[i]);
        ghost var before := done + RuleRoutes(namespace, rules[..i]);
        e := AddAll(before, namespace, rules[i].host, rules[i].http.value);
        assert rules[..i + 1][..i] == rules[..i];
        assert before + PathRoutes(namespace, rules[i].host, rules[i].http.value) == done + RuleRoutes(namespace, rules[..i + 1]);
        RuleRoutesStart(namespace, rules, i + 1);
        ErrorsStop(cx, EMPTY_TABLES, done + RuleRoutes(namespace, rules[..i + 1]), done + RuleRoutes(namespace, rules));
        if e.Some? {
          return;
        }
      }
      assert rules[..|rules|] == rules;
      e := None;
    }

    method AddMember(ghost done: seq<Route>, ing: Ingress) returns (e: Option<GroupError>)
      requires AddRoutes(cx, EMPTY_TABLES, done) == Ok(State()) && Usable(ing)
      modifies this
      ensures AddRoutes(cx, EMPTY_TABLES, done + Routes(ing)) == (if e.Some? then Err(e.value) else Ok(State()))
    {
      hide AddRoutes, RuleRoutes, DefaultRoutes;
      ghost var ds := done + DefaultRoutes(ing.namespace, ing.defaultBackend);
      assert ds + RuleRoutes(ing.namespace, ing.rules) == done + Routes(ing);
      ErrorsStop(cx, EMPTY_TABLES, ds, done + Routes(ing));
      e := AddDefault(done, ing.namespace, ing.defaultBackend);
      if e.None? {
        e := AddRules(ds, ing.namespace, ing.rules);
      }
    }
  }

  lemma {:induction false} ErrorsStop(cx: Context, t: Tables, some: seq<Route>, all: seq<Route>)
    requires some <= all
    ensures AddRoutes(cx, t, some).Err? ==> AddRoutes(cx, t, all) == AddRoutes(cx, t, some)
    decreases |all|
  {
    if |some| < |all| {
      ErrorsStop(cx, t, some, all[..|all| - 1]);
    } else {
      assert some == all;
    }
  }

  lemma {:induction false} RuleRoutesStart(namespace: string, rules: seq<Rule>, n: nat)
    requires n <= |rules| && forall r | r in rules :: GoodRule(r)
    ensures RuleRoutes(namespace, rules[..n]) <= RuleRoutes(namespace, rules)
    decreases |rules|
  {
    if n < |rules| {
      assert rules[..|rules| - 1][..n] == rules[..n];
      RuleRoutesStart(namespace, rules[..|rules| - 1], n);
      assert GoodRule(rules[|rules| - 1]);
    } else {
      assert rules[..n] == rules;
    }
  }

  lemma {:induction false} AllRoutesStart(members: seq<Ingress>, n: nat)
    requires n <= |members| && forall m | m in members :: Usable(m)
    ensures AllRoutes(members[..n]) <= AllRoutes(members)
    decreases |members|
  {
    if n < |members| {
      assert members[..|members| - 1][..n] == members[..n];
      AllRoutesStart(members[..|members| - 1], n);
      assert Usable(members[|members| - 1]);
    } else {
      assert members[..n] == members;
    }
  }

  lemma {:induction false} MemberErrorsStop(anchor: Ingress, members: seq<Ingress>, n: nat)
    requires n <= |members| && MemberError(anchor, members[..n]).Some?
    ensures MemberError(anchor, members) == MemberError(anchor, members[..n])
    decreases |members|
  {
    if n < |members| {
      assert members[..|members| - 1][..n] == members[..n];
      MemberErrorsStop(anchor, members[..|members| - 1], n);
    } else {
      assert members[..n] == members;
    }
  }

  method CheckMembers(anchor: Ingress, ordered: seq<Ingress>) returns (e: Option<GroupError>)
    ensures e == MemberError(anchor, ordered)
  {
    hide ErrorOf, GroupName;
    for i := 0 to |ordered|
      invariant MemberError(anchor, ordered[..i]).None?
    {
      assert ordered[..i + 1][..i] == ordered[..i];
      var ing := ordered[i];
      if ing.namespace != anchor.namespace || GroupName(ing) != GroupName(anchor) {
        MemberErrorsStop(anchor, ordered, i + 1);
        return Some(MixedGroup);
      }
      var shape := ValidateIngressShape(ing);
      if shape.Some? {
        MemberErrorsStop(anchor, ordered, i + 1);
        return Some(InvalidIngress(ing.namespace, ing.name, shape.value));
      }
    }
    assert ordered[..|ordered|] == ordered;
    e := None;
  }

  lemma MemberLessIsWeakOrder()
    ensures WeakOrder(MemberLess)
  {
    hide Less, SortKey;
    forall x: Ingress, y: Ingress | MemberLess(x, y) ensures !MemberLess(y, x) {
      LessIsAsymmetric(SortKey(x), SortKey(y));
    }
    forall x: Ingress, y: Ingress, z: Ingress | !MemberLess(y, x) && !MemberLess(z, y)
      ensures !MemberLess(z, x)
    {
      var a, b, c := SortKey(x), SortKey(y), SortKey(z);
      LessIsTotal(a, b);
      LessIsTotal(b, c);
      if a != b && b != c {
        LessIsTransitive(a, b, c);
        LessIsAsymmetric(a, c);
      }
    }
  }

  /** The routes and certificates of members that passed the checks. */
  method CompileMembers(anchor: Ingress, ordered: seq<Ingress>, cfg: LBConfig, opts: Options)
    returns (r: Result<M.Stack, GroupError>)
    requires ordered != [] && anchor == ordered[0] && opts.resolver.Some? && MemberError(anchor, ordered).None?
    ensures r == Compile(ordered, cfg, opts)
  {
    hide ErrorOf, Routes, StackOf, AddRoute, MemberError, CertificatesOf, ContextOf;
    AcceptedMembersAreUsable(anchor, ordered);
    var cx := ContextOf(anchor, cfg, opts.resolver.value);
    var tables := new Compiler(cx);
    var needsTLS := false;
    var certificates: seq<M.Certificate> := [];
    for i := 0 to |ordered|
      invariant tables.cx == cx && fresh(tables)
      invariant AddRoutes(cx, EMPTY_TABLES, AllRoutes(ordered[..i])) == Ok(tables.State())
      invariant needsTLS == NeedsTLS(ordered[..i])
      invariant certificates == AllCertificates(cx, ordered[..i])
    {
      var ing := ordered[i];
      assert Usable(ing);
      assert ordered[..i + 1][..i] == ordered[..i];
      assert ordered[..i + 1] == ordered[..i] + [ing];
      if |ing.tls| > 0 {
        needsTLS := true;
      }
      var e := tables.AddMember(AllRoutes(ordered[..i]), ing);
      AllRoutesStart(ordered, i + 1);
      ErrorsStop(cx, EMPTY_TABLES, AllRoutes(ordered[..i + 1]), AllRoutes(ordered));
      if e.Some? {
        return Err(e.value);
      }
      certificates := certificates + CertificatesOf(cx, ing.tls);
    }
    assert ordered[..|ordered|] == ordered;
    r := Ok(StackOf(cx, anchor, needsTLS, certificates, opts, tables.State()));
  }

  lemma SomeSort(members: seq<Option<Ingress>>) returns (ordered: seq<Ingress>)
    ensures IsSortOf(ordered, members)
  {
    hide MemberLess;
    if None in members {
      ordered := seq(|members|, i => Ingress("", "", "", None, [], []));
    } else {
      MemberLessIsWeakOrder();
      SortIsSorted(MemberLess, Present(members));
      ordered := Sort(MemberLess, Present(members));
      assert |ordered| == |multiset(ordered)| == |multiset(Present(members))| == |members|;
    }
  }

  /** BuildGroupLoadBalancerStack: the result for some order in which the sort may leave the members. */
  method BuildGroupLoadBalancerStack(members: seq<Option<Ingress>>, cfg: LBConfig, opts: Options)
    returns (r: Result<M.Stack, GroupError>)
    ensures exists ordered :: IsSortOf(ordered, members) && r == Outcome(members, ordered, cfg, opts)
  {
    hide MemberLess;
    ghost var some := SomeSort(members);
    assert IsSortOf(some, members);
    if members == [] {
      return Err(NoMembers);
    }
    if opts.resolver.None? {
      return Err(NoResolver);
    }
    if None in members {
      return Err(NilMember);
    }
    MemberLessIsWeakOrder();
    var inOrder := SortSlice(Present(members), MemberLess);
    assert |inOrder| == |multiset(inOrder)| == |multiset(Present(members))| == |members|;
    assert IsSortOf(inOrder, members);
    var anchor := inOrder[0];
    var memberError := CheckMembers(anchor, inOrder);
    if memberError.Some? {
      return Err(memberError.value);
    }
    r := CompileMembers(anchor, inOrder, cfg, opts);
  }
}
