/** The desired-state hashes of pkg/deploy/lbaas/deployer.go. SHA-256 is a parameter; where a proof needs it,
    it is assumed collision-free. */
module DesiredHash {
  import opened Common
  import opened Model
  import opened Text
  import opened Sorting

  /** The part of a backend that the hash covers. */
  datatype Target = Target(ip: string, port: int, weight: int)

  function TargetOf(b: BackendMember): Target {
    Target(b.ip, b.port, b.weight)
  }

  function Targets(bs: seq<BackendMember>): (ts: seq<Target>)
    ensures |ts| == |bs|
  {
    seq(|bs|, i requires 0 <= i < |bs| => TargetOf(bs[i]))
  }

  // ----- The orders the program sorts by -----

  predicate TargetLess(a: Target, b: Target) {
    if a.ip != b.ip then Less(a.ip, b.ip) else if a.port != b.port then a.port < b.port else a.weight < b.weight
  }

  predicate BackendLess(a: BackendMember, b: BackendMember) {
    TargetLess(TargetOf(a), TargetOf(b))
  }

  lemma {:induction false} LessIsWeakOrder()
    ensures WeakOrder(Less)
  {
    forall x, y ensures Less(x, y) ==> !Less(y, x) { if Less(x, y) { LessIsAsymmetric(x, y); } }
    forall x, y, z | !Less(y, x) && !Less(z, y)
      ensures !Less(z, x)
    {
      LessIsTotal(x, y);
      LessIsTotal(y, z);
      if x != y && y != z { LessIsTransitive(x, y, z); LessIsAsymmetric(x, z); }
    }
  }

  lemma LessSeparates(s: seq<string>)
    ensures Separates(Less, s)
  {
    forall x, y | x in s && y in s && !Less(x, y) && !Less(y, x) ensures x == y { LessIsTotal(x, y); }
  }

  lemma {:induction false} TargetLessSeparates(s: seq<Target>)
    ensures Separates(TargetLess, s)
  {
    forall x: Target, y: Target | x in s && y in s && !TargetLess(x, y) && !TargetLess(y, x)
      ensures x == y
    {
      LessIsTotal(x.ip, y.ip);
    }
  }

  lemma {:induction false} TargetLessIsWeakOrder()
    ensures WeakOrder(TargetLess)
  {
    LessIsWeakOrder();
    forall x: Target, y: Target, z: Target | !TargetLess(y, x) && !TargetLess(z, y)
      ensures !TargetLess(z, x)
    {
      LessIsTotal(x.ip, y.ip);
      LessIsTotal(y.ip, z.ip);
    }
  }

  // ----- The printed form -----

  function PrintTarget(t: Target): string {
    t.ip + ":" + Itoa(t.port) + ":" + Itoa(t.weight) + ";"
  }

  function PrintTargets(ts: seq<Target>): string {
    if ts == [] then "" else PrintTarget(ts[0]) + PrintTargets(ts[1..])
  }

  function Field(tag: string, value: string): string {
    tag + "=" + value + ";"
  }

  function Fields(fs: seq<(string, string)>): string {
    if fs == [] then "" else Field(fs[0].0, fs[0].1) + Fields(fs[1..])
  }

  function BackendHeader(frontendPort: int, nodePort: int): string {
    Fields([("frontend", Itoa(frontendPort)), ("nodeport", Itoa(nodePort))])
  }

  /** What DesiredBackendHash hashes: the header and the targets in sorted order. */
  function BackendText(frontendPort: int, nodePort: int, bs: seq<BackendMember>): string {
    BackendHeader(frontendPort, nodePort) + PrintTargets(Sort(TargetLess, Targets(bs)))
  }

  function MonitorText(m: Option<Monitor>): string {
    match m
    case None => ""
    case Some(m) =>
      "monitor=" + m.name + ":" + m.kind + ":" + m.path + ":" + Itoa(m.interval) + ":" + Itoa(m.port) + ":"
      + Itoa(m.timeout) + ";"
  }

  function ServerFields(vs: VirtualServer, ranges: seq<string>): seq<(string, string)> {
    [ ("frontend", Itoa(vs.frontendPort)), ("nodeport", Itoa(vs.backendNodePort)), ("name", vs.name),
      ("protocol", vs.protocol), ("algorithm", vs.routingAlgorithm), ("persistence", vs.persistenceType),
      ("draining", Itoa(vs.drainingTimeout)), ("ranges", Join(ranges, ",")),
      ("default-pool", vs.defaultPoolName) ]
  }

  /** What DesiredVirtualServerHash hashes. */
  function ServerText(vs: VirtualServer, backendHash: string): string {
    Fields(ServerFields(vs, Sort(Less, vs.sourceRanges))) + MonitorText(vs.monitor) + "backends=" + backendHash
  }

  function BackendHash(sha: string -> string, frontendPort: int, nodePort: int, bs: seq<BackendMember>): string {
    sha(BackendText(frontendPort, nodePort, bs))
  }

  function ServerHash(sha: string -> string, vs: VirtualServer, bs: seq<BackendMember>): string {
    sha(ServerText(vs, BackendHash(sha, vs.frontendPort, vs.backendNodePort, bs)))
  }

  // ----- The program, which sorts copies and fills a builder -----

  lemma {:induction false} PrintTargetsSnoc(ts: seq<Target>, t: Target)
    ensures PrintTargets(ts + [t]) == PrintTargets(ts) + PrintTarget(t)
  {
    if ts == [] {
      assert (ts + [t])[1..] == [];
    } else {
      assert (ts + [t])[1..] == ts[1..] + [t];
      PrintTargetsSnoc(ts[1..], t);
    }
  }

  lemma TargetsOfParts(x: seq<BackendMember>, b: BackendMember, y: seq<BackendMember>)
    ensures Targets(x + [b] + y) == Targets(x) + [TargetOf(b)] + Targets(y)
    ensures Targets(x + y) == Targets(x) + Targets(y)
  {
  }

  lemma {:induction false} TargetsOfSamePermutation(a: seq<BackendMember>, b: seq<BackendMember>)
    requires multiset(a) == multiset(b)
    ensures multiset(Targets(a)) == multiset(Targets(b))
  {
    assert |a| == |multiset(a)| && |b| == |multiset(b)|;
    if a != [] {
      assert a[0] in multiset(b);
      var j :| 0 <= j < |b| && b[j] == a[0];
      var x, y := b[..j], b[j + 1..];
      assert a == [] + [a[0]] + a[1..];
      assert b == x + [a[0]] + y;
      assert multiset(x + y) == multiset(b) - multiset{a[0]} == multiset(a[1..]);
      TargetsOfSamePermutation(a[1..], x + y);
      TargetsOfParts([], a[0], a[1..]);
      TargetsOfParts(x, a[0], y);
    }
  }

  /** sort.Slice is not stable; however it orders equal (IP, port, weight) entries, the printed text is the same. */
  lemma AnySortPrintsTheSame(bs: seq<BackendMember>, sorted: seq<BackendMember>)
    requires multiset(sorted) == multiset(bs) && Sorted(BackendLess, sorted)
    ensures Targets(sorted) == Sort(TargetLess, Targets(bs))
  {
    TargetsOfSamePermutation(sorted, bs);
    TargetLessIsWeakOrder();
    SortIsSorted(TargetLess, Targets(bs));
    forall i, j | 0 <= i < j < |sorted|
      ensures !TargetLess(Targets(sorted)[j], Targets(sorted)[i])
    {
      assert !BackendLess(sorted[j], sorted[i]);
    }
    TargetLessSeparates(Targets(sorted));
    SortedIsUnique(TargetLess, Targets(sorted), Sort(TargetLess, Targets(bs)));
  }

  lemma {:induction false} BackendLessIsWeakOrder()
    ensures WeakOrder(BackendLess)
  {
    TargetLessIsWeakOrder();
    forall x: BackendMember, y: BackendMember, z: BackendMember | !BackendLess(y, x) && !BackendLess(z, y)
      ensures !BackendLess(z, x)
    {
      assert !TargetLess(TargetOf(y), TargetOf(x)) && !TargetLess(TargetOf(z), TargetOf(y));
    }
    forall x: BackendMember, y: BackendMember | BackendLess(x, y)
      ensures !BackendLess(y, x)
    {
      assert TargetLess(TargetOf(x), TargetOf(y));
    }
  }

  lemma Associative(a: string, b: string, c: string)
    ensures (a + b) + c == a + (b + c)
  {
  }

  /** The loop that writes one entry per backend. */
  method AppendBackends(header: string, sorted: seq<BackendMember>) returns (b: string)
    ensures b == header + PrintTargets(Targets(sorted))
  {
    hide PrintTarget, Itoa;
    b := header;
    for i := 0 to |sorted|
      invariant b == header + PrintTargets(Targets(sorted[..i]))
    {
      var t := TargetOf(sorted[i]);
      assert Targets(sorted[..i + 1]) == Targets(sorted[..i]) + [t];
      PrintTargetsSnoc(Targets(sorted[..i]), t);
      Associative(header, PrintTargets(Targets(sorted[..i])), PrintTarget(t));
      b := b + PrintTarget(t);
    }
    assert sorted[..|sorted|] == sorted;
  }

  method DesiredBackendHash(sha: string -> string, frontendPort: int, nodePort: int, backends: seq<BackendMember>)
    returns (h: string)
    ensures h == BackendHash(sha, frontendPort, nodePort, backends)
  {
    BackendLessIsWeakOrder();
    var sorted := SortSlice(backends, BackendLess);
    AnySortPrintsTheSame(backends, sorted);
    var b := AppendBackends(BackendHeader(frontendPort, nodePort), sorted);
    h := sha(b);
  }

  /** sort.Strings on the copied source ranges. */
  method SortRanges(ranges: seq<string>) returns (r: seq<string>)
    ensures r == Sort(Less, ranges)
  {
    LessIsWeakOrder();
    r := SortSlice(ranges, Less);
    SortIsSorted(Less, ranges);
    LessSeparates(r);
    SortedIsUnique(Less, r, Sort(Less, ranges));
  }

  method AppendMonitor(header: string, m: Option<Monitor>) returns (b: string)
    ensures b == header + MonitorText(m)
  {
    b := header;
    if m.Some? {
      b := b + MonitorText(m);
    }
  }

  method DesiredVirtualServerHash(sha: string -> string, vs: VirtualServer, backends: seq<BackendMember>)
    returns (h: string)
    ensures h == ServerHash(sha, vs, backends)
  {
    hide Fields, MonitorText, ServerFields;
    var ranges := SortRanges(vs.sourceRanges);
    var b := Fields(ServerFields(vs, ranges));
    b := AppendMonitor(b, vs.monitor);
    var backendHash := DesiredBackendHash(sha, vs.frontendPort, vs.backendNodePort, backends);
    b := b + "backends=" + backendHash;
    h := sha(b);
  }
}
