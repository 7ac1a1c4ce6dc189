/** Two desired configurations hash alike exactly when they ask the provider for the same thing. */
module HashMeaning {
  import opened Common
  import opened Model
  import opened Text
  import opened Sorting
  import opened DesiredHash

  ghost predicate Injective(sha: string -> string) {
    forall s, t :: sha(s) == sha(t) ==> s == t
  }

  // ----- The fields in which the printed form can be read back -----

  predicate PlainTargets(ts: seq<Target>) {
    forall t | t in ts :: ';' !in t.ip
  }

  predicate PlainMonitor(m: Option<Monitor>) {
    m.Some? ==> ';' !in m.value.name && ':' !in m.value.name && ';' !in m.value.kind && ':' !in m.value.kind
                && ';' !in m.value.path
  }

  predicate PlainRanges(ranges: seq<string>) {
    forall r | r in ranges :: r != "" && ',' !in r && ';' !in r
  }

  predicate PlainServer(vs: VirtualServer) {
    && ';' !in vs.name && ';' !in vs.protocol && ';' !in vs.routingAlgorithm && ';' !in vs.persistenceType
    && ';' !in vs.defaultPoolName
    && PlainRanges(vs.sourceRanges)
    && PlainMonitor(vs.monitor)
  }

  /** What the provider is asked for; the order of ranges and the ownership metadata do not matter. */
  ghost predicate SameServer(v: VirtualServer, w: VirtualServer) {
    && v.(sourceRanges := [], ownership := NO_OWNER) == w.(sourceRanges := [], ownership := NO_OWNER)
    && multiset(v.sourceRanges) == multiset(w.sourceRanges)
  }

  ghost predicate SameTargets(a: seq<BackendMember>, b: seq<BackendMember>) {
    multiset(Targets(a)) == multiset(Targets(b))
  }

  // ----- Reading the printed form back -----

  lemma TargetBody(t: Target)
    requires ';' !in t.ip
    ensures PrintTarget(t) == (t.ip + ":" + Itoa(t.port) + ":" + Itoa(t.weight)) + [';']
    ensures ';' !in t.ip + ":" + Itoa(t.port) + ":" + Itoa(t.weight)
  {
    ItoaSign(t.port);
    ItoaSign(t.weight);
  }

  lemma TargetReadsBack(s: Target, t: Target, r: string, q: string)
    requires ';' !in s.ip && ';' !in t.ip
    requires PrintTarget(s) + r == PrintTarget(t) + q
    ensures s == t && r == q
  {
    hide PrintTarget, Itoa;
    TargetBody(s);
    TargetBody(t);
    var b, c := s.ip + ":" + Itoa(s.port), t.ip + ":" + Itoa(t.port);
    FirstSeparator(b + ":" + Itoa(s.weight), r, c + ":" + Itoa(t.weight), q, ';');
    ItoaSign(s.weight);
    ItoaSign(t.weight);
    LastSeparator(b, Itoa(s.weight), c, Itoa(t.weight), ':');
    ItoaSign(s.port);
    ItoaSign(t.port);
    LastSeparator(s.ip, Itoa(s.port), t.ip, Itoa(t.port), ':');
    ItoaInjective(s.port, t.port);
    ItoaInjective(s.weight, t.weight);
  }

  lemma {:induction false} TargetsReadBack(s: seq<Target>, t: seq<Target>)
    requires PlainTargets(s) && PlainTargets(t)
    requires PrintTargets(s) == PrintTargets(t)
    ensures s == t
  {
    hide PrintTarget;
    if s != [] { TargetBody(s[0]); }
    if t != [] { TargetBody(t[0]); }
    if s != [] && t != [] {
      TargetReadsBack(s[0], t[0], PrintTargets(s[1..]), PrintTargets(t[1..]));
      TargetsReadBack(s[1..], t[1..]);
      assert s == [s[0]] + s[1..] && t == [t[0]] + t[1..];
    }
  }

  lemma FieldReadsBack(tag: string, v: string, r: string, w: string, q: string)
    requires ';' !in v && ';' !in w
    requires Field(tag, v) + r == Field(tag, w) + q
    ensures v == w && r == q
  {
    assert Field(tag, v) + r == (tag + "=") + (v + [';'] + r);
    assert Field(tag, w) + q == (tag + "=") + (w + [';'] + q);
    PrefixCancels(tag + "=", v + [';'] + r, w + [';'] + q);
    FirstSeparator(v, r, w, q, ';');
  }

  lemma {:induction false} FieldsReadBack(a: seq<(string, string)>, r: string, b: seq<(string, string)>, q: string)
    requires |a| == |b|
    requires forall i | 0 <= i < |a| :: a[i].0 == b[i].0 && ';' !in a[i].1 && ';' !in b[i].1
    requires Fields(a) + r == Fields(b) + q
    ensures a == b && r == q
  {
    if a == [] {
      assert Fields(a) + r == r && Fields(b) + q == q;
    } else {
      hide Field;
      assert Fields(a) + r == Field(a[0].0, a[0].1) + (Fields(a[1..]) + r);
      assert Fields(b) + q == Field(b[0].0, b[0].1) + (Fields(b[1..]) + q);
      FieldReadsBack(a[0].0, a[0].1, Fields(a[1..]) + r, b[0].1, Fields(b[1..]) + q);
      FieldsReadBack(a[1..], r, b[1..], q);
      assert a == [a[0]] + a[1..] && b == [b[0]] + b[1..];
    }
  }

  // ----- The backend hash -----

  lemma SortedTargetsArePlain(bs: seq<BackendMember>)
    requires PlainTargets(Targets(bs))
    ensures PlainTargets(Sort(TargetLess, Targets(bs)))
  {
    forall t | t in Sort(TargetLess, Targets(bs))
      ensures t in Targets(bs)
    {
      assert t in multiset(Targets(bs));
    }
  }

  /** Sorting forgets the order and nothing else. */
  lemma {:induction false} SortForgetsOrder(a: seq<Target>, b: seq<Target>)
    ensures Sort(TargetLess, a) == Sort(TargetLess, b) <==> multiset(a) == multiset(b)
  {
    if multiset(a) == multiset(b) {
      TargetLessIsWeakOrder();
      SortIsSorted(TargetLess, a);
      SortIsSorted(TargetLess, b);
      TargetLessSeparates(Sort(TargetLess, a));
      SortedIsUnique(TargetLess, Sort(TargetLess, a), Sort(TargetLess, b));
    }
  }

  lemma {:induction false} SortStringsForgetsOrder(a: seq<string>, b: seq<string>)
    ensures Sort(Less, a) == Sort(Less, b) <==> multiset(a) == multiset(b)
  {
    if multiset(a) == multiset(b) {
      LessIsWeakOrder();
      SortIsSorted(Less, a);
      SortIsSorted(Less, b);
      LessSeparates(Sort(Less, a));
      SortedIsUnique(Less, Sort(Less, a), Sort(Less, b));
    }
  }

  lemma BackendTextReadsBack(f: int, n: int, a: seq<BackendMember>, f': int, n': int, b: seq<BackendMember>)
    requires PlainTargets(Targets(a)) && PlainTargets(Targets(b)) && BackendText(f, n, a) == BackendText(f', n', b)
    ensures f == f' && n == n' && Sort(TargetLess, Targets(a)) == Sort(TargetLess, Targets(b))
  {
    ItoaSign(f); ItoaSign(n); ItoaSign(f'); ItoaSign(n');
    hide PrintTargets, Fields, Itoa, Targets, Sort, TargetLess, PlainTargets;
    var x := [("frontend", Itoa(f)), ("nodeport", Itoa(n))];
    var y := [("frontend", Itoa(f')), ("nodeport", Itoa(n'))];
    var s, t := Sort(TargetLess, Targets(a)), Sort(TargetLess, Targets(b));
    FieldsReadBack(x, PrintTargets(s), y, PrintTargets(t));
    assert x[0] == y[0] && x[1] == y[1];
    ItoaInjective(f, f');
    ItoaInjective(n, n');
    SortedTargetsArePlain(a);
    SortedTargetsArePlain(b);
    TargetsReadBack(s, t);
  }

  /** DesiredBackendHash agrees exactly on the ports and the multiset of (IP, port, weight) targets. IPv6
      addresses may contain ':'; only ';' is excluded. */
  lemma {:induction false} BackendHashMeaning(sha: string -> string, f: int, n: int, a: seq<BackendMember>,
                           f': int, n': int, b: seq<BackendMember>)
    requires Injective(sha) && PlainTargets(Targets(a)) && PlainTargets(Targets(b))
    ensures BackendHash(sha, f, n, a) == BackendHash(sha, f', n', b)
       <==> f == f' && n == n' && SameTargets(a, b)
  {
    hide PrintTargets, BackendHeader, Targets, Sort, TargetLess, PlainTargets;
    SortForgetsOrder(Targets(a), Targets(b));
    if BackendHash(sha, f, n, a) == BackendHash(sha, f', n', b) {
      BackendTextReadsBack(f, n, a, f', n', b);
    }
  }

  lemma {:induction false} RangesField(ranges: seq<string>)
    requires PlainRanges(ranges)
    ensures ';' !in Join(Sort(Less, ranges), ",") && PlainRanges(Sort(Less, ranges))
  {
    var s := Sort(Less, ranges);
    forall r | r in s
      ensures r in ranges
    {
      assert r in multiset(ranges);
    }
    JoinHasNo(s, ",", ';');
  }

  lemma ServerFieldsArePlain(vs: VirtualServer)
    requires PlainServer(vs)
    ensures forall i | 0 <= i < 9 :: ';' !in ServerFields(vs, Sort(Less, vs.sourceRanges))[i].1
  {
    RangesField(vs.sourceRanges);
    ItoaSign(vs.frontendPort); ItoaSign(vs.backendNodePort); ItoaSign(vs.drainingTimeout);
  }

  lemma SameServerFields(v: VirtualServer, w: VirtualServer)
    requires PlainServer(v) && PlainServer(w)
    requires ServerFields(v, Sort(Less, v.sourceRanges)) == ServerFields(w, Sort(Less, w.sourceRanges))
    requires v.monitor == w.monitor
    ensures SameServer(v, w)
  {
    var x, y := ServerFields(v, Sort(Less, v.sourceRanges)), ServerFields(w, Sort(Less, w.sourceRanges));
    assert forall i | 0 <= i < 9 :: x[i].1 == y[i].1;
    assert x[0].1 == y[0].1 && x[1].1 == y[1].1 && x[6].1 == y[6].1 && x[7].1 == y[7].1;
    ItoaInjective(v.frontendPort, w.frontendPort);
    ItoaInjective(v.backendNodePort, w.backendNodePort);
    ItoaInjective(v.drainingTimeout, w.drainingTimeout);
    RangesField(v.sourceRanges);
    RangesField(w.sourceRanges);
    JoinIsInjective(Sort(Less, v.sourceRanges), Sort(Less, w.sourceRanges), ',');
    SortStringsForgetsOrder(v.sourceRanges, w.sourceRanges);
    assert x[2].1 == y[2].1 && x[3].1 == y[3].1 && x[4].1 == y[4].1 && x[5].1 == y[5].1 && x[8].1 == y[8].1;
  }

  function MonitorTail(m: Monitor): string {
    m.path + ":" + Itoa(m.interval) + ":" + Itoa(m.port) + ":" + Itoa(m.timeout)
  }

  lemma MonitorShape(m: Monitor)
    requires PlainMonitor(Some(m))
    ensures MonitorText(Some(m)) == "monitor=" + (m.name + [':'] + (m.kind + [':'] + MonitorTail(m))) + [';']
    ensures ';' !in m.name + [':'] + (m.kind + [':'] + MonitorTail(m))
  {
    ItoaSign(m.interval); ItoaSign(m.port); ItoaSign(m.timeout);
    hide Itoa;
    Grouped(m.name, m.kind, m.path, Itoa(m.interval), Itoa(m.port), Itoa(m.timeout));
  }

  lemma Grouped(a: string, b: string, p: string, i: string, j: string, t: string)
    ensures "monitor=" + a + ":" + b + ":" + p + ":" + i + ":" + j + ":" + t + ";"
            == "monitor=" + (a + [':'] + (b + [':'] + (p + ":" + i + ":" + j + ":" + t))) + [';']
  {
    var tail := p + ":" + i + ":" + j + ":" + t;
    assert "monitor=" + a + ":" + b + ":" + p + ":" + i + ":" + j + ":" + t == "monitor=" + a + ":" + b + ":" + tail;
    assert "monitor=" + a + ":" + b + ":" + tail == "monitor=" + (a + [':'] + (b + [':'] + tail));
  }

  lemma MonitorTailReadsBack(m: Monitor, k: Monitor)
    requires MonitorTail(m) == MonitorTail(k)
    ensures m.path == k.path && m.interval == k.interval && m.port == k.port && m.timeout == k.timeout
  {
    ItoaSign(m.interval); ItoaSign(m.port); ItoaSign(m.timeout);
    ItoaSign(k.interval); ItoaSign(k.port); ItoaSign(k.timeout);
    hide Itoa;
    LastSeparator(m.path + ":" + Itoa(m.interval) + ":" + Itoa(m.port), Itoa(m.timeout),
                  k.path + ":" + Itoa(k.interval) + ":" + Itoa(k.port), Itoa(k.timeout), ':');
    LastSeparator(m.path + ":" + Itoa(m.interval), Itoa(m.port), k.path + ":" + Itoa(k.interval), Itoa(k.port), ':');
    LastSeparator(m.path, Itoa(m.interval), k.path, Itoa(k.interval), ':');
    ItoaInjective(m.interval, k.interval);
    ItoaInjective(m.port, k.port);
    ItoaInjective(m.timeout, k.timeout);
  }

  lemma MonitorsReadBack(m: Monitor, r: string, k: Monitor, q: string)
    requires PlainMonitor(Some(m)) && PlainMonitor(Some(k))
    requires MonitorText(Some(m)) + r == MonitorText(Some(k)) + q
    ensures m == k && r == q
  {
    hide MonitorText, MonitorTail;
    MonitorShape(m);
    MonitorShape(k);
    var x, y := m.kind + [':'] + MonitorTail(m), k.kind + [':'] + MonitorTail(k);
    var a, b := m.name + [':'] + x, k.name + [':'] + y;
    assert "monitor=" + a + [';'] + r == "monitor=" + (a + [';'] + r);
    assert "monitor=" + b + [';'] + q == "monitor=" + (b + [';'] + q);
    PrefixCancels("monitor=", a + [';'] + r, b + [';'] + q);
    FirstSeparator(a, r, b, q, ';');
    FirstSeparator(m.name, x, k.name, y, ':');
    FirstSeparator(m.kind, MonitorTail(m), k.kind, MonitorTail(k), ':');
    MonitorTailReadsBack(m, k);
  }

  lemma TailStart(m: Option<Monitor>, h: string)
    ensures MonitorText(m) + "backends=" + h == MonitorText(m) + ("backends=" + h)
    ensures (MonitorText(m) + "backends=" + h)[0] == if m.Some? then 'm' else 'b'
  {
    assert m.Some? ==> MonitorText(m)[0] == 'm';
  }

  /** The optional monitor segment and the final backends segment are told apart by their first letter. */
  lemma TailReadsBack(m: Option<Monitor>, h: string, k: Option<Monitor>, g: string)
    requires PlainMonitor(m) && PlainMonitor(k)
    requires MonitorText(m) + "backends=" + h == MonitorText(k) + "backends=" + g
    ensures m == k && h == g
  {
    TailStart(m, h);
    TailStart(k, g);
    if m.Some? {
      hide MonitorText;
      MonitorsReadBack(m.value, "backends=" + h, k.value, "backends=" + g);
    } else {
      assert MonitorText(m) + ("backends=" + h) == "backends=" + h;
      assert MonitorText(k) + ("backends=" + g) == "backends=" + g;
    }
    PrefixCancels("backends=", h, g);
  }

  lemma ServerTextReadsBack(v: VirtualServer, h: string, w: VirtualServer, g: string)
    requires PlainServer(v) && PlainServer(w)
    requires ServerText(v, h) == ServerText(w, g)
    ensures SameServer(v, w) && h == g
  {
    hide Fields, MonitorText, ServerFields, Sort, PlainRanges, PlainMonitor, SameServer;
    var x, y := ServerFields(v, Sort(Less, v.sourceRanges)), ServerFields(w, Sort(Less, w.sourceRanges));
    var r, q := MonitorText(v.monitor) + "backends=" + h, MonitorText(w.monitor) + "backends=" + g;
    assert ServerText(v, h) == Fields(x) + r;
    assert ServerText(w, g) == Fields(y) + q;
    ServerFieldsReadBack(v, r, w, q);
    TailReadsBack(v.monitor, h, w.monitor, g);
    SameServerFields(v, w);
  }

  lemma ServerFieldsReadBack(v: VirtualServer, r: string, w: VirtualServer, q: string)
    requires PlainServer(v) && PlainServer(w)
    requires Fields(ServerFields(v, Sort(Less, v.sourceRanges))) + r == Fields(ServerFields(w, Sort(Less, w.sourceRanges))) + q
    ensures ServerFields(v, Sort(Less, v.sourceRanges)) == ServerFields(w, Sort(Less, w.sourceRanges)) && r == q
  {
    hide Fields, PlainServer, Sort, Join, Itoa;
    ServerFieldsArePlain(v);
    ServerFieldsArePlain(w);
    FieldsReadBack(ServerFields(v, Sort(Less, v.sourceRanges)), r, ServerFields(w, Sort(Less, w.sourceRanges)), q);
  }

  /** The main result: the recorded hash changes exactly when the request to the provider changes. */
  lemma {:induction false} ServerHashMeaning(sha: string -> string, v: VirtualServer, a: seq<BackendMember>,
                          w: VirtualServer, b: seq<BackendMember>)
    requires Injective(sha) && PlainServer(v) && PlainServer(w)
    requires PlainTargets(Targets(a)) && PlainTargets(Targets(b))
    ensures ServerHash(sha, v, a) == ServerHash(sha, w, b) <==> SameServer(v, w) && SameTargets(a, b)
  {
    hide ServerText, BackendHash;
    BackendHashMeaning(sha, v.frontendPort, v.backendNodePort, a, w.frontendPort, w.backendNodePort, b);
    var h := BackendHash(sha, v.frontendPort, v.backendNodePort, a);
    var g := BackendHash(sha, w.frontendPort, w.backendNodePort, b);
    if ServerHash(sha, v, a) == ServerHash(sha, w, b) {
      ServerTextReadsBack(v, h, w, g);
    }
    if SameServer(v, w) && SameTargets(a, b) {
      SameServersPrintTheSame(v, w, h);
    }
  }

  lemma SameServersPrintTheSame(v: VirtualServer, w: VirtualServer, h: string)
    requires SameServer(v, w)
    ensures ServerText(v, h) == ServerText(w, h)
  {
    SortStringsForgetsOrder(v.sourceRanges, w.sourceRanges);
    assert ServerFields(v, Sort(Less, v.sourceRanges)) == ServerFields(w, Sort(Less, w.sourceRanges));
  }

  /** Without the condition that ranges are non-empty strings the equivalence fails: one empty range prints like
      no range at all. */
  lemma {:induction false} AnEmptyRangePrintsLikeNone(sha: string -> string, v: VirtualServer, bs: seq<BackendMember>)
    ensures ServerHash(sha, v.(sourceRanges := [""]), bs) == ServerHash(sha, v.(sourceRanges := []), bs)
    ensures !SameServer(v.(sourceRanges := [""]), v.(sourceRanges := []))
  {
    var x, y := v.(sourceRanges := [""]), v.(sourceRanges := []);
    assert |multiset(x.sourceRanges)| == 1;
    assert Sort(Less, x.sourceRanges) == [""] && Sort(Less, y.sourceRanges) == [];
    assert ServerFields(x, [""]) == ServerFields(y, []);
  }
}
