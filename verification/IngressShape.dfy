/** The Kubernetes Ingress data and its shape validation (pkg/ingress/validation.go). Pointers that the source may
    find nil are options; reading one is only possible where it is known to be set. */
module IngressShape {
  import opened Common
  import opened Text

  datatype ServiceRef = ServiceRef(name: string, portName: string, portNumber: int)
  datatype Backend = Backend(isResource: bool, service: Option<ServiceRef>)
  datatype PathType = Exact | Prefix | ImplementationSpecific | Unknown(name: string)
  datatype Path = Path(path: string, pathType: Option<PathType>, backend: Backend)
  datatype Rule = Rule(host: string, http: Option<seq<Path>>)
  datatype TLS = TLS(hosts: seq<string>, secretName: string)
  datatype Ingress = Ingress(
    namespace: string, name: string, groupAnnotation: string, defaultBackend: Option<Backend>, rules: seq<Rule>,
    tls: seq<TLS>)

  datatype ShapeError =
    | ResourceBackend | NoServiceReference | NoServicePort | ConflictingBackends(key: string) | NonHTTPRule
    | EmptyPath | NoPathType | UnsupportedPathType | NoSecretName | NoBackend

  function PathTypeName(t: PathType): string {
    match t
    case Exact => "Exact"
    case Prefix => "Prefix"
    case ImplementationSpecific => "ImplementationSpecific"
    case Unknown(name) => name
  }

  function RouteKey(host: string, path: string, t: PathType): string {
    Lower(TrimSpace(host)) + "|" + PathTypeName(t) + "|" + path
  }

  // ----- What a valid shape is -----

  predicate GoodBackend(be: Backend) {
    && !be.isResource
    && be.service.Some?
    && TrimSpace(be.service.value.name) != ""
    && (be.service.value.portName != "" || be.service.value.portNumber != 0)
  }

  predicate GoodPath(p: Path) {
    && p.path != ""
    && p.pathType.Some? && (p.pathType.value.Exact? || p.pathType.value.Prefix?)
    && GoodBackend(p.backend)
  }

  predicate GoodRule(r: Rule) {
    r.http.Some? && forall p | p in r.http.value :: GoodPath(p)
  }

  /** Each key stands with the backend it is consumed with. */
  type Uses = seq<(string, ServiceRef)>

  function PathUses(host: string, paths: seq<Path>): (u: Uses)
    requires forall p | p in paths :: GoodPath(p)
    ensures |u| == |paths|
  {
    seq(|paths|, i requires 0 <= i < |paths| && GoodPath(paths[i]) =>
      (RouteKey(host, paths[i].path, paths[i].pathType.value), paths[i].backend.service.value))
  }

  function RuleUses(rules: seq<Rule>): Uses
    requires forall r | r in rules :: GoodRule(r)
  {
    if rules == [] then []
    else
      assert GoodRule(rules[|rules| - 1]);
      RuleUses(rules[..|rules| - 1]) + PathUses(rules[|rules| - 1].host, rules[|rules| - 1].http.value)
  }

  function DefaultUses(be: Option<Backend>): Uses
    requires be.Some? ==> GoodBackend(be.value)
  {
    if be.Some? then [("<default>", be.value.service.value)] else []
  }

  ghost predicate Functional(u: Uses) {
    forall i, j | 0 <= i < j < |u| && u[i].0 == u[j].0 :: u[i].1 == u[j].1
  }

  /** Everything a caller may rely on once the validation has passed. */
  ghost predicate WellShaped(ing: Ingress) {
    && (forall r | r in ing.rules :: GoodRule(r))
    && (ing.defaultBackend.Some? ==> GoodBackend(ing.defaultBackend.value))
    && (forall t | t in ing.tls :: TrimSpace(t.secretName) != "")
    && var uses := RuleUses(ing.rules) + DefaultUses(ing.defaultBackend);
    && uses != []
    && Functional(uses)
  }

  // ----- The validation itself, as the order of its checks defines it -----

  type Seen = map<string, ServiceRef>

  function ConsumeError(seen: Seen, be: Backend, key: string): Option<ShapeError> {
    if be.isResource then Some(ResourceBackend)
    else if be.service.None? || TrimSpace(be.service.value.name) == "" then Some(NoServiceReference)
    else if be.service.value.portName == "" && be.service.value.portNumber == 0 then Some(NoServicePort)
    else if key in seen && seen[key] != be.service.value then Some(ConflictingBackends(key))
    else None
  }

  function PathError(seen: Seen, host: string, p: Path): Option<ShapeError> {
    if p.path == "" then Some(EmptyPath)
    else if p.pathType.None? then Some(NoPathType)
    else if !p.pathType.value.Exact? && !p.pathType.value.Prefix? then Some(UnsupportedPathType)
    else ConsumeError(seen, p.backend, RouteKey(host, p.path, p.pathType.value))
  }

  function PathsError(seen: Seen, host: string, paths: seq<Path>): Result<Seen, ShapeError> {
    if paths == [] then Ok(seen)
    else
      var n := |paths| - 1;
      match PathsError(seen, host, paths[..n])
      case Err(e) => Err(e)
      case Ok(before) =>
        match PathError(before, host, paths[n])
        case Some(e) => Err(e)
        case None =>
          Ok(before[RouteKey(host, paths[n].path, paths[n].pathType.value) := paths[n].backend.service.value])
  }

  function RulesError(rules: seq<Rule>): Result<Seen, ShapeError> {
    if rules == [] then Ok(map[])
    else
      var n := |rules| - 1;
      match RulesError(rules[..n])
      case Err(e) => Err(e)
      case Ok(before) =>
        if rules[n].http.None? then Err(NonHTTPRule) else PathsError(before, rules[n].host, rules[n].http.value)
  }

  function TLSError(tls: seq<TLS>): Option<ShapeError> {
    if exists t | t in tls :: TrimSpace(t.secretName) == "" then Some(NoSecretName) else None
  }

  /** The error of validateIngressShape, if any. */
  function ErrorOf(ing: Ingress): Option<ShapeError> {
    match RulesError(ing.rules)
    case Err(e) => Some(e)
    case Ok(seen) =>
      var defaultError := if ing.defaultBackend.Some? then ConsumeError(seen, ing.defaultBackend.value, "<default>")
                          else None;
      if defaultError.Some? then defaultError
      else if TLSError(ing.tls).Some? then TLSError(ing.tls)
      else if seen == map[] && ing.defaultBackend.None? then Some(NoBackend)
      else None
  }

  /** The inner loop: the paths of one rule. */
  method ConsumePaths(seen: Seen, host: string, paths: seq<Path>) returns (r: Result<Seen, ShapeError>)
    ensures r == PathsError(seen, host, paths)
    ensures r.Ok? ==> (r.value == map[] <==> seen == map[] && paths == [])
  {
    hide RouteKey;
    var seenRules := seen;
    for j := 0 to |paths|
      invariant PathsError(seen, host, paths[..j]) == Ok(seenRules)
      invariant seenRules == map[] <==> seen == map[] && j == 0
    {
      assert paths[..j + 1][..j] == paths[..j];
      PathsErrorStops(seen, host, paths, j + 1);
      var pathError := PathError(seenRules, host, paths[j]);
      if pathError.Some? {
        return Err(pathError.value);
      }
      var key := RouteKey(host, paths[j].path, paths[j].pathType.value);
      seenRules := seenRules[key := paths[j].backend.service.value];
      assert key in seenRules;
    }
    assert paths[..|paths|] == paths;
    r := Ok(seenRules);
  }

  method ValidateIngressShape(ing: Ingress) returns (e: Option<ShapeError>)
    ensures e == ErrorOf(ing)
  {
    hide PathsError, ConsumeError;
    var seenRules: Seen := map[];
    var backendCount := 0;
    for i := 0 to |ing.rules|
      invariant RulesError(ing.rules[..i]) == Ok(seenRules)
      invariant backendCount >= 0 && (backendCount == 0 <==> seenRules == map[])
    {
      var rule := ing.rules[i];
      assert ing.rules[..i + 1][..i] == ing.rules[..i];
      RulesErrorStops(ing.rules, i + 1);
      if rule.http.None? {
        return Some(NonHTTPRule);
      }
      var consumed := ConsumePaths(seenRules, rule.host, rule.http.value);
      if consumed.Err? {
        return Some(consumed.error);
      }
      backendCount := backendCount + |rule.http.value|;
      seenRules := consumed.value;
    }
    assert ing.rules[..|ing.rules|] == ing.rules;
    if ing.defaultBackend.Some? {
      var consumeError := ConsumeError(seenRules, ing.defaultBackend.value, "<default>");
      if consumeError.Some? {
        return consumeError;
      }
      backendCount := backendCount + 1;
    }
    for k := 0 to |ing.tls|
      invariant forall t | t in ing.tls[..k] :: TrimSpace(t.secretName) != ""
    {
      if TrimSpace(ing.tls[k].secretName) == "" {
        assert ing.tls[k] in ing.tls;
        return Some(NoSecretName);
      }
    }
    assert ing.tls[..|ing.tls|] == ing.tls;
    if backendCount == 0 {
      return Some(NoBackend);
    }
    return None;
  }

  /** The first error decides, whatever follows. */
  lemma {:induction false} RulesErrorStops(rules: seq<Rule>, n: nat)
    requires n <= |rules|
    ensures RulesError(rules[..n]).Err? ==> RulesError(rules) == RulesError(rules[..n])
    decreases |rules|
  {
    if n < |rules| {
      assert rules[..|rules| - 1][..n] == rules[..n];
      RulesErrorStops(rules[..|rules| - 1], n);
    } else {
      assert rules[..n] == rules;
    }
  }

  lemma {:induction false} PathsErrorStops(seen: Seen, host: string, paths: seq<Path>, n: nat)
    requires n <= |paths|
    ensures PathsError(seen, host, paths[..n]).Err? ==>
      PathsError(seen, host, paths) == PathsError(seen, host, paths[..n])
    decreases |paths|
  {
    if n < |paths| {
      assert paths[..|paths| - 1][..n] == paths[..n];
      PathsErrorStops(seen, host, paths[..|paths| - 1], n);
    } else {
      assert paths[..n] == paths;
    }
  }

  // ----- The validation accepts exactly the valid shapes -----

  /** What has been seen after some uses: every key with its last backend. */
  ghost predicate Saw(seen: Seen, uses: Uses) {
    && (forall i | 0 <= i < |uses| :: uses[i].0 in seen && seen[uses[i].0] == uses[i].1)
    && (forall k | k in seen :: exists i | 0 <= i < |uses| :: uses[i].0 == k)
  }

  lemma StaysFunctional(seen: Seen, uses: Uses, key: string, ref: ServiceRef)
    requires Saw(seen, uses) && Functional(uses)
    ensures (key in seen ==> seen[key] == ref) <==> Functional(uses + [(key, ref)])
  {
    var more := uses + [(key, ref)];
    assert more[|uses|].0 == key && more[|uses|].1 == ref;
    if key in seen && seen[key] != ref {
      var i :| 0 <= i < |uses| && uses[i].0 == key;
      assert more[i].0 == more[|uses|].0 && more[i].1 != more[|uses|].1;
    } else {
      forall i, j | 0 <= i < j < |more| && more[i].0 == more[j].0
        ensures more[i].1 == more[j].1
      {
        assert more[i] == uses[i];
        if j < |uses| { assert more[j] == uses[j]; }
      }
    }
  }

  lemma SawMore(seen: Seen, uses: Uses, key: string, ref: ServiceRef)
    requires Saw(seen, uses) && (key in seen ==> seen[key] == ref)
    ensures Saw(seen[key := ref], uses + [(key, ref)])
  {
    var more := uses + [(key, ref)];
    assert more[|uses|].0 == key;
    forall k | k in seen || k == key
      ensures exists i | 0 <= i < |more| :: more[i].0 == k
    {
      if k != key {
        var i :| 0 <= i < |uses| && uses[i].0 == k;
        assert more[i].0 == k;
      }
    }
  }

  lemma FunctionalPrefix(u: Uses, v: Uses)
    requires Functional(u + v)
    ensures Functional(u)
  {
    assert forall i | 0 <= i < |u| :: (u + v)[i] == u[i];
  }

  lemma PathAccepted(seen: Seen, uses: Uses, host: string, p: Path)
    requires Saw(seen, uses) && Functional(uses)
    ensures PathError(seen, host, p).None?
       <==> GoodPath(p) && Functional(uses + PathUses(host, [p]))
    ensures PathError(seen, host, p).None? ==>
      Saw(seen[RouteKey(host, p.path, p.pathType.value) := p.backend.service.value], uses + PathUses(host, [p]))
  {
    hide RouteKey, TrimSpace;
    if GoodPath(p) {
      var key, ref := RouteKey(host, p.path, p.pathType.value), p.backend.service.value;
      assert PathUses(host, [p]) == [(key, ref)];
      StaysFunctional(seen, uses, key, ref);
      if key in seen ==> seen[key] == ref { SawMore(seen, uses, key, ref); }
    }
  }

  lemma {:induction false} PathsAccepted(seen: Seen, uses: Uses, host: string, paths: seq<Path>)
    requires Saw(seen, uses) && Functional(uses)
    ensures PathsError(seen, host, paths).Ok?
       <==> (forall p | p in paths :: GoodPath(p)) && Functional(uses + PathUses(host, paths))
    ensures PathsError(seen, host, paths).Ok? ==>
      Saw(PathsError(seen, host, paths).value, uses + PathUses(host, paths))
    decreases |paths|
  {
    hide RouteKey, TrimSpace, PathError, Saw, Functional, GoodPath;
    if paths == [] {
      assert uses + PathUses(host, paths) == uses;
    } else {
      var n := |paths| - 1;
      PathsAccepted(seen, uses, host, paths[..n]);
      assert paths == paths[..n] + [paths[n]];
      assert (forall p | p in paths :: GoodPath(p)) <==> (forall p | p in paths[..n] :: GoodPath(p)) && GoodPath(paths[n]);
      if (forall p | p in paths :: GoodPath(p)) && Functional(uses + PathUses(host, paths)) {
        assert uses + PathUses(host, paths) == uses + PathUses(host, paths[..n]) + PathUses(host, [paths[n]]);
        FunctionalPrefix(uses + PathUses(host, paths[..n]), PathUses(host, [paths[n]]));
      }
      if PathsError(seen, host, paths[..n]).Ok? {
        PathAccepted(PathsError(seen, host, paths[..n]).value, uses + PathUses(host, paths[..n]), host, paths[n]);
        if GoodPath(paths[n]) {
          assert uses + PathUses(host, paths) == uses + PathUses(host, paths[..n]) + PathUses(host, [paths[n]]);
        }
      }
    }
  }

  lemma {:induction false} RulesAccepted(rules: seq<Rule>)
    ensures RulesError(rules).Ok? <==> (forall r | r in rules :: GoodRule(r)) && Functional(RuleUses(rules))
    ensures RulesError(rules).Ok? ==> Saw(RulesError(rules).value, RuleUses(rules))
    decreases |rules|
  {
    if rules != [] {
      var n := |rules| - 1;
      RulesAccepted(rules[..n]);
      assert rules == rules[..n] + [rules[n]];
      assert (forall r | r in rules :: GoodRule(r)) <==> (forall r | r in rules[..n] :: GoodRule(r)) && GoodRule(rules[n]);
      if (forall r | r in rules :: GoodRule(r)) && Functional(RuleUses(rules)) {
        FunctionalPrefix(RuleUses(rules[..n]), PathUses(rules[n].host, rules[n].http.value));
      }
      if RulesError(rules[..n]).Ok? && rules[n].http.Some? {
        PathsAccepted(RulesError(rules[..n]).value, RuleUses(rules[..n]), rules[n].host, rules[n].http.value);
      }
    }
  }

  /** validateIngressShape succeeds exactly on well-shaped Ingresses: afterwards no backend, path type or HTTP rule
      pointer is nil, and one Ingress never routes a host, path and path type to two backends. */
  lemma AcceptsExactlyWellShaped(ing: Ingress)
    ensures ErrorOf(ing).None? <==> WellShaped(ing)
  {
    RulesAccepted(ing.rules);
    if RulesError(ing.rules).Ok? {
      var seen, uses := RulesError(ing.rules).value, RuleUses(ing.rules);
      if ing.defaultBackend.Some? && GoodBackend(ing.defaultBackend.value) {
        StaysFunctional(seen, uses, "<default>", ing.defaultBackend.value.service.value);
      }
      assert seen == map[] <==> uses == [] by {
        if uses != [] { assert uses[0].0 in seen; }
      }
      assert uses + [] == uses;
    } else if (forall r | r in ing.rules :: GoodRule(r)) && (ing.defaultBackend.Some? ==> GoodBackend(ing.defaultBackend.value)) {
      if Functional(RuleUses(ing.rules) + DefaultUses(ing.defaultBackend)) {
        FunctionalPrefix(RuleUses(ing.rules), DefaultUses(ing.defaultBackend));
      }
    }
  }
}
