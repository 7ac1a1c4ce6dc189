/** The string keys of the observed graph, which encode its tree: listener, listener/pool, listener/pool/member,
    listener/rule (pkg/deploy/lbaas/deployer.go and cleanup.go). */
module GraphKeys {
  import opened Common
  import opened Model
  import opened Text

  /** The position of the first slash, or the length. */
  function Slash(s: string): (n: nat)
    ensures n <= |s| && '/' !in s[..n] && (n < |s| ==> s[n] == '/')
  {
    if s == "" || s[0] == '/' then 0
    else
      var n := 1 + Slash(s[1..]);
      assert s[..n] == [s[0]] + s[1..][..n - 1];
      n
  }

  lemma {:induction false} SlashIsFirst(a: string, rest: string)
    requires '/' !in a
    ensures Slash(a + "/" + rest) == |a| && Slash(a) == |a|
  {
    if a != "" {
      SlashIsFirst(a[1..], rest);
      assert (a + "/" + rest)[1..] == a[1..] + "/" + rest;
    }
  }

  /** graphVirtualServerName */
  function VSName(key: string): string {
    key[..Slash(key)]
  }

  /** What follows the first slash, if there is one. */
  function AfterSlash(key: string): string
    requires Slash(key) < |key|
  {
    key[Slash(key) + 1..]
  }

  /** graphPoolKey: the first two parts, or nothing if there is only one. */
  function PoolKey(key: string): string {
    if Slash(key) == |key| then "" else VSName(key) + "/" + VSName(AfterSlash(key))
  }

  function PoolKeyOf(vs: string, pool: string): string {
    vs + "/" + pool
  }

  function MemberKeyOf(vs: string, pool: string, member: string): string {
    PoolKeyOf(vs, pool) + "/" + member
  }

  function RuleKeyOf(vs: string, rule: string): string {
    vs + "/" + rule
  }

  // ----- Reading keys back -----

  lemma VSNameReads(vs: string, rest: string)
    requires '/' !in vs
    ensures VSName(vs) == vs && VSName(vs + "/" + rest) == vs
    ensures Slash(vs + "/" + rest) == |vs| && AfterSlash(vs + "/" + rest) == rest
  {
    SlashIsFirst(vs, rest);
  }

  lemma PoolKeyReads(vs: string, pool: string, rest: string)
    requires '/' !in vs && '/' !in pool
    ensures PoolKey(PoolKeyOf(vs, pool)) == PoolKeyOf(vs, pool)
    ensures PoolKey(MemberKeyOf(vs, pool, rest)) == PoolKeyOf(vs, pool)
  {
    hide VSName, AfterSlash, Slash;
    VSNameReads(vs, pool);
    VSNameReads(pool, rest);
    VSNameReads(vs, pool + "/" + rest);
    assert MemberKeyOf(vs, pool, rest) == vs + "/" + (pool + "/" + rest);
  }

  /** A key belongs to a pool exactly if it is the pool's key or one of a child of it. */
  lemma PoolKeyMeans(key: string, vs: string, pool: string)
    requires '/' !in vs && '/' !in pool
    ensures PoolKey(key) == PoolKeyOf(vs, pool) <==>
              key == PoolKeyOf(vs, pool) || exists rest :: key == MemberKeyOf(vs, pool, rest)
  {
    if PoolKey(key) == PoolKeyOf(vs, pool) {
      var a := VSName(key);
      var after := AfterSlash(key);
      FirstSeparator(a, VSName(after), vs, pool, '/');
      assert key == a + "/" + after;
      if Slash(after) < |after| {
        assert key == MemberKeyOf(vs, pool, AfterSlash(after));
      }
    }
    PoolKeyReads(vs, pool, "");
    forall rest | key == MemberKeyOf(vs, pool, rest) ensures PoolKey(key) == PoolKeyOf(vs, pool) {
      PoolKeyReads(vs, pool, rest);
    }
  }

  /** A key belongs to a listener exactly if it is the listener's name or has the name and a slash in front. */
  lemma VSNameMeans(key: string, vs: string)
    requires '/' !in vs
    ensures VSName(key) == vs <==> key == vs || exists rest :: key == vs + "/" + rest
  {
    VSNameReads(vs, "");
    if VSName(key) == vs && Slash(key) < |key| {
      assert key == vs + "/" + AfterSlash(key);
    }
    forall rest | key == vs + "/" + rest ensures VSName(key) == vs {
      VSNameReads(vs, rest);
    }
  }

  /** A name with a slash is not read back: a pool recorded under listener "web/x" would be looked up under "web". */
  lemma SlashesConfuseParents()
    ensures VSName(PoolKeyOf("web/x", "p")) == "web"
  {
    assert PoolKeyOf("web/x", "p") == "web" + "/" + "x/p";
    VSNameReads("web", "x/p");
  }

  lemma DifferentPoolsDifferentKeys(vs1: string, pool1: string, vs2: string, pool2: string)
    requires '/' !in vs1 && '/' !in vs2 && PoolKeyOf(vs1, pool1) == PoolKeyOf(vs2, pool2)
    ensures vs1 == vs2 && pool1 == pool2
  {
    FirstSeparator(vs1, pool1, vs2, pool2, '/');
  }

  // ----- Parent lookups of cleanup and of the deletion of obsolete resources -----

  function IDAt(bucket: Bucket, key: string): Id {
    if key in bucket then bucket[key].externalID else NO_ID
  }

  /** virtualServerIDForGraphKey */
  function VSIDFor(g: Graph, key: string): Id {
    IDAt(g.virtualServers, VSName(key))
  }

  /** poolParentIDsForGraphKey */
  function ParentIDsFor(g: Graph, key: string): (Id, Id) {
    if Slash(key) == |key| then (NO_ID, NO_ID)
    else (IDAt(g.virtualServers, VSName(key)), IDAt(g.pools, PoolKey(key)))
  }

  /** For keys built from slash-free names the lookups return the parents that the child was recorded under. */
  lemma ParentsAreRecorded(g: Graph, vs: string, pool: string, rest: string)
    requires '/' !in vs && '/' !in pool
    ensures VSIDFor(g, PoolKeyOf(vs, pool)) == VSIDFor(g, RuleKeyOf(vs, rest)) == IDAt(g.virtualServers, vs)
    ensures ParentIDsFor(g, MemberKeyOf(vs, pool, rest)) == ParentIDsFor(g, PoolKeyOf(vs, pool))
            == (IDAt(g.virtualServers, vs), IDAt(g.pools, PoolKeyOf(vs, pool)))
  {
    VSNameReads(vs, pool);
    VSNameReads(vs, rest);
    PoolKeyReads(vs, pool, rest);
    VSNameReads(vs, pool + "/" + rest);
    assert MemberKeyOf(vs, pool, rest) == vs + "/" + (pool + "/" + rest);
  }

  // ----- The tree -----

  /** Every entry sits under its own logical id and names a resource, and every child's parents are on record. */
  ghost predicate Closed(g: Graph) {
    && Keyed(g.virtualServers) && Keyed(g.pools) && Keyed(g.members) && Keyed(g.monitors) && Keyed(g.routingRules)
    && (forall key | key in g.pools :: VSName(key) in g.virtualServers && PoolKey(key) == key)
    && (forall key | key in g.members :: PoolKey(key) in g.pools)
    && (forall key | key in g.monitors :: key in g.pools)
    && (forall key | key in g.routingRules :: VSName(key) in g.virtualServers)
  }

  predicate Keyed(bucket: Bucket) {
    forall key | key in bucket :: bucket[key].logicalID == key && bucket[key].externalID != NO_ID
  }
}
