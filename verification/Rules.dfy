/** RoutingRuleManager (pkg/deploy/lbaas/routing_rule_manager.go): the routing rules of one listener, of which a stack
    owns those whose ids it has on record. */
module Rules {
  import opened Common
  import opened Model
  import opened Text
  import opened Children

  function MatchOf(s: RuleSpec): string {
    if Lower(s.matchType) == "" then "prefix" else Lower(s.matchType)
  }

  /** routingRuleKey */
  function KeyOf(s: RuleSpec): string {
    (Lower(s.host) + "|" + s.path + "|" + MatchOf(s)) + "|" + s.poolID
  }

  /** No field of the rule but its path contains a bar. */
  predicate Plain(s: RuleSpec) {
    '|' !in s.host && '|' !in s.matchType && '|' !in s.poolID
  }

  /** One host, path, match type and pool; case does not matter in host and match type, and no match type means a prefix. */
  predicate SameRoute(s: RuleSpec, t: RuleSpec) {
    && EqualFold(s.host, t.host) && s.path == t.path && s.poolID == t.poolID
    && EqualFold(if s.matchType == "" then "prefix" else s.matchType, if t.matchType == "" then "prefix" else t.matchType)
  }

  lemma LowerHasNoBar(s: string)
    requires '|' !in s
    ensures '|' !in Lower(s)
  {
  }

  lemma PrefixIsLower()
    ensures Lower("prefix") == "prefix"
  {
    assert forall i | 0 <= i < 6 :: LowerChar("prefix"[i]) == "prefix"[i];
  }

  /** Keys are equal exactly for one route, where only paths contain bars. */
  lemma KeyReadsBack(s: RuleSpec, t: RuleSpec)
    requires Plain(s) && Plain(t)
    ensures KeyOf(s) == KeyOf(t) <==> SameRoute(s, t)
  {
    hide Lower;
    PrefixIsLower();
    LowerHasNoBar(s.host);
    LowerHasNoBar(t.host);
    LowerHasNoBar(s.matchType);
    LowerHasNoBar(t.matchType);
    EmptyLower(s.matchType);
    EmptyLower(t.matchType);
    if KeyOf(s) == KeyOf(t) {
      var hs, ht, ms, mt := Lower(s.host), Lower(t.host), MatchOf(s), MatchOf(t);
      LastSeparator(hs + "|" + s.path + "|" + ms, s.poolID, ht + "|" + t.path + "|" + mt, t.poolID, '|');
      LastSeparator(hs + "|" + s.path, ms, ht + "|" + t.path, mt, '|');
      FirstSeparator(hs, s.path, ht, t.path, '|');
    }
  }

  lemma EmptyLower(s: string)
    ensures Lower(s) == "" <==> s == ""
  {
  }

  /** Rules with equal keys select the same pool, where pool ids contain no bar. */
  lemma KeyNamesThePool(s: RuleSpec, t: RuleSpec)
    requires '|' !in s.poolID && '|' !in t.poolID && KeyOf(s) == KeyOf(t)
    ensures s.poolID == t.poolID
  {
    LastSeparator(Lower(s.host) + "|" + s.path + "|" + MatchOf(s), s.poolID, Lower(t.host) + "|" + t.path + "|" + MatchOf(t), t.poolID, '|');
  }

  type View = map<Id, RuleSpec>

  function ViewOf(k: Kids, vs: Id): (v: View)
    ensures v.Keys == RulesOf(k, vs)
  {
    map id | id in RulesOf(k, vs) :: k.rules[id].spec
  }

  function Keys(desired: seq<RuleSpec>): set<string> {
    set i | 0 <= i < |desired| :: KeyOf(desired[i])
  }

  predicate DistinctSpecs(desired: seq<RuleSpec>) {
    forall i, j | 0 <= i < |desired| && 0 <= j < |desired| && KeyOf(desired[i]) == KeyOf(desired[j]) :: i == j
  }

  /** Which rules the run may touch. */
  predicate Owned(owned: set<Id>, legacyAllOwned: bool, id: Id) {
    legacyAllOwned || id in owned
  }

  ghost predicate DistinctOwned(v: View, owned: set<Id>, all: bool) {
    forall a, b | a in v && b in v && Owned(owned, all, a) && Owned(owned, all, b) && KeyOf(v[a]) == KeyOf(v[b]) :: a == b
  }

  predicate HeldByForeign(v: View, owned: set<Id>, all: bool, key: string) {
    exists id | id in v :: !Owned(owned, all, id) && KeyOf(v[id]) == key
  }

  /** Only rules of this listener change. */
  ghost predicate OnlyRules(k: Kids, m: Kids, vs: Id) {
    && m == k.(rules := m.rules, issued := m.issued) && k.issued <= m.issued
    && (forall id | id in m.rules && id !in k.issued :: m.rules[id].listener == vs)
    && (forall id | id in k.rules && k.rules[id].listener != vs :: id in m.rules && m.rules[id] == k.rules[id])
    && (forall id | id in m.rules && id in k.issued :: id in k.rules && m.rules[id] == k.rules[id])
  }

  lemma OnlyRulesChains(a: Kids, b: Kids, c: Kids, vs: Id)
    requires WellFormedKids(a) && WellFormedKids(b) && OnlyRules(a, b, vs) && OnlyRules(b, c, vs)
    ensures OnlyRules(a, c, vs)
  {
  }

  lemma NothingChanged(k: Kids, vs: Id)
    requires WellFormedKids(k)
    ensures OnlyRules(k, k, vs)
  {
  }

  // ----- The listing, split into owned and foreign rules -----

  /** byKey holds owned rules under their keys, all of them if the owned keys are distinct; foreignKeys are the keys of
      the rest. */
  ghost predicate Sorts(v: View, owned: set<Id>, all: bool, byKey: map<string, RuleInfo>, foreignKeys: set<string>) {
    && (forall key | key in byKey ::
          && byKey[key].id in v && byKey[key].spec == v[byKey[key].id] && KeyOf(byKey[key].spec) == key
          && Owned(owned, all, byKey[key].id))
    && (forall id | id in v && Owned(owned, all, id) :: KeyOf(v[id]) in byKey)
    && (forall key :: key in foreignKeys <==> HeldByForeign(v, owned, all, key))
  }

  method Sort(existing: seq<RuleInfo>, owned: set<Id>, all: bool, ghost v: View)
    returns (byKey: map<string, RuleInfo>, foreignKeys: set<string>)
    requires forall i | 0 <= i < |existing| :: existing[i].id in v && v[existing[i].id] == existing[i].spec
    requires forall id | id in v :: exists i :: 0 <= i < |existing| && existing[i].id == id
    ensures Sorts(v, owned, all, byKey, foreignKeys)
  {
    hide KeyOf;
    byKey, foreignKeys := map[], {};
    for i := 0 to |existing|
      invariant forall key | key in byKey ::
          && byKey[key].id in v && byKey[key].spec == v[byKey[key].id] && KeyOf(byKey[key].spec) == key
          && Owned(owned, all, byKey[key].id)
      invariant forall j | 0 <= j < i && Owned(owned, all, existing[j].id) :: KeyOf(existing[j].spec) in byKey
      invariant forall j | 0 <= j < i && !Owned(owned, all, existing[j].id) :: KeyOf(existing[j].spec) in foreignKeys
      invariant forall key | key in foreignKeys :: HeldByForeign(v, owned, all, key)
    {
      var rule := existing[i];
      if !all && rule.id !in owned {
        assert HeldByForeign(v, owned, all, KeyOf(rule.spec));
        foreignKeys := foreignKeys + {KeyOf(rule.spec)};
        continue;
      }
      byKey := byKey[KeyOf(rule.spec) := rule];
    }
    forall key | HeldByForeign(v, owned, all, key) ensures key in foreignKeys {
      var id :| id in v && !Owned(owned, all, id) && KeyOf(v[id]) == key;
      var i :| 0 <= i < |existing| && existing[i].id == id;
    }
    forall id | id in v && Owned(owned, all, id) ensures KeyOf(v[id]) in byKey {
      var i :| 0 <= i < |existing| && existing[i].id == id;
    }
  }

  // ----- The calls that a run makes -----

  function Step(vs: Id, byKey: map<string, RuleInfo>, spec: RuleSpec): seq<KidCall> {
    if KeyOf(spec) in byKey then [] else [CreateRule(vs, spec)]
  }

  /** One creation per desired key that no owned rule has. */
  function Plan(vs: Id, byKey: map<string, RuleInfo>, desired: seq<RuleSpec>): seq<KidCall> {
    if desired == [] then []
    else Plan(vs, byKey, desired[..|desired| - 1]) + Step(vs, byKey, desired[|desired| - 1])
  }

  lemma PlanGrows(vs: Id, byKey: map<string, RuleInfo>, desired: seq<RuleSpec>, i: nat)
    requires i < |desired|
    ensures Plan(vs, byKey, desired[..i + 1]) == Plan(vs, byKey, desired[..i]) + Step(vs, byKey, desired[i])
  {
    hide KeyOf, Step;
    assert desired[..i + 1][..i] == desired[..i];
  }

  /** An empty plan plans nothing for any rule. */
  lemma {:induction false} EmptyPlan(vs: Id, byKey: map<string, RuleInfo>, desired: seq<RuleSpec>, i: nat)
    requires i < |desired|
    ensures Plan(vs, byKey, desired) == [] ==> Step(vs, byKey, desired[i]) == []
  {
    hide KeyOf, Step;
    if i < |desired| - 1 {
      EmptyPlan(vs, byKey, desired[..|desired| - 1], i);
    }
  }

  function Deletions(vs: Id, ids: seq<Id>): seq<KidCall> {
    seq(|ids|, i requires 0 <= i < |ids| => DeleteRule(vs, ids[i]))
  }

  lemma DeletionsGrow(vs: Id, ids: seq<Id>, id: Id)
    requires NoRepeats(ids) && id !in SetOf(ids)
    ensures NoRepeats(ids + [id]) && Deletions(vs, ids + [id]) == Deletions(vs, ids) + [DeleteRule(vs, id)]
    ensures SetOf(ids + [id]) == SetOf(ids) + {id}
  {
  }

  // ----- The first loop: create what is missing -----

  /** Which rule stands for a desired one: the owned rule with its key, or a new one. */
  predicate StandsFor(v: View, byKey: map<string, RuleInfo>, isOld: bool, spec: RuleSpec, m: RuleInfo) {
    && m.id in v && v[m.id] == m.spec && KeyOf(m.spec) == KeyOf(spec)
    && if KeyOf(spec) in byKey then m == byKey[KeyOf(spec)] else !isOld && m.spec == spec
  }

  ghost predicate AllStand(v0: View, v: View, byKey: map<string, RuleInfo>, foreignKeys: set<string>,
                           desired: seq<RuleSpec>, out: seq<RuleInfo>) {
    && |out| <= |desired|
    && forall j | 0 <= j < |out| :: KeyOf(desired[j]) !in foreignKeys && StandsFor(v, byKey, out[j].id in v0, desired[j], out[j])
  }

  ghost predicate Midway(v0: View, v: View, byKey: map<string, RuleInfo>, foreignKeys: set<string>,
                         desired: seq<RuleSpec>, out: seq<RuleInfo>) {
    v.Keys == v0.Keys + IDs(out) && Extends(v0, v) && AllStand(v0, v, byKey, foreignKeys, desired, out)
  }

  ghost predicate Extends(v0: View, v: View) {
    forall id | id in v0 :: id in v && v[id] == v0[id]
  }

  /** Rules are only added for desired keys that no foreign rule holds. */
  ghost predicate AddsDesired(v0: View, v: View, foreignKeys: set<string>, desired: seq<RuleSpec>) {
    forall id | id in v && id !in v0 :: v[id] in desired && KeyOf(v[id]) !in foreignKeys
  }

  lemma MidwayAdds(v0: View, v: View, byKey: map<string, RuleInfo>, foreignKeys: set<string>, desired: seq<RuleSpec>, out: seq<RuleInfo>)
    requires Midway(v0, v, byKey, foreignKeys, desired, out)
    requires forall key | key in byKey :: byKey[key].id in v0
    ensures AddsDesired(v0, v, foreignKeys, desired)
  {
    hide KeyOf;
    forall id | id in v && id !in v0 ensures v[id] in desired && KeyOf(v[id]) !in foreignKeys {
      var j :| 0 <= j < |out| && out[j].id == id;
      assert StandsFor(v, byKey, out[j].id in v0, desired[j], out[j]);
    }
  }

  lemma AddRule(v0: View, v: View, byKey: map<string, RuleInfo>, foreignKeys: set<string>, desired: seq<RuleSpec>,
                out: seq<RuleInfo>, id: Id)
    requires Midway(v0, v, byKey, foreignKeys, desired, out) && |out| < |desired| && id !in v
    requires KeyOf(desired[|out|]) !in byKey && KeyOf(desired[|out|]) !in foreignKeys
    ensures Midway(v0, v[id := desired[|out|]], byKey, foreignKeys, desired, out + [Info(id, desired[|out|])])
  {
    hide KeyOf, IDs;
    var m := Info(id, desired[|out|]);
    var v1, out1 := v[id := m.spec], out + [m];
    IDsGrow(out, m);
    forall j | 0 <= j < |out1| ensures StandsFor(v1, byKey, out1[j].id in v0, desired[j], out1[j]) {
      assert j < |out| ==> StandsFor(v, byKey, out[j].id in v0, desired[j], out[j]);
    }
  }

  lemma KeepRule(v0: View, v: View, byKey: map<string, RuleInfo>, foreignKeys: set<string>, desired: seq<RuleSpec>, out: seq<RuleInfo>)
    requires Midway(v0, v, byKey, foreignKeys, desired, out) && |out| < |desired|
    requires KeyOf(desired[|out|]) in byKey && KeyOf(desired[|out|]) !in foreignKeys
    requires var m := byKey[KeyOf(desired[|out|])]; m.id in v0 && v0[m.id] == m.spec && KeyOf(m.spec) == KeyOf(desired[|out|])
    ensures Midway(v0, v, byKey, foreignKeys, desired, out + [byKey[KeyOf(desired[|out|])]])
  {
    hide KeyOf, IDs;
    var m := byKey[KeyOf(desired[|out|])];
    var out1 := out + [m];
    IDsGrow(out, m);
    forall j | 0 <= j < |out1| ensures StandsFor(v, byKey, out1[j].id in v0, desired[j], out1[j]) {
      assert j < |out| ==> StandsFor(v, byKey, out[j].id in v0, desired[j], out[j]);
    }
  }

  lemma StoreRule(k0: Kids, k: Kids, m: Kids, vs: Id, id: Id, spec: RuleSpec)
    requires WellFormedKids(k0) && WellFormedKids(k) && OnlyRules(k0, k, vs) && IsNew(k, id)
    requires m == k.(rules := k.rules[id := RuleRec(vs, spec)], issued := k.issued + {id})
    ensures WellFormedKids(m) && OnlyRules(k0, m, vs) && ViewOf(m, vs) == ViewOf(k, vs)[id := spec] && id !in ViewOf(k, vs)
  {
    hide WellFormedKids, OnlyRules;
    StoreKeepsShape(k, m, vs, id, spec);
    OnlyRulesChains(k0, k, m, vs);
    assert RulesOf(m, vs) == RulesOf(k, vs) + {id};
  }

  lemma StoreKeepsShape(k: Kids, m: Kids, vs: Id, id: Id, spec: RuleSpec)
    requires WellFormedKids(k) && IsNew(k, id)
    requires m == k.(rules := k.rules[id := RuleRec(vs, spec)], issued := k.issued + {id})
    ensures WellFormedKids(m) && OnlyRules(k, m, vs) && id !in k.rules
  {
  }

  ghost function NewRule(k: Kids, m: Kids, vs: Id, spec: RuleSpec): Id
    requires exists id :: IsNew(k, id) && m == k.(rules := k.rules[id := RuleRec(vs, spec)], issued := k.issued + {id})
  {
    var id :| IsNew(k, id) && m == k.(rules := k.rules[id := RuleRec(vs, spec)], issued := k.issued + {id});
    id
  }

  /** Every key of the index points at an owned rule. */
  ghost predicate PointsIn(v: View, byKey: map<string, RuleInfo>) {
    forall key | key in byKey :: byKey[key].id in v && byKey[key].spec == v[byKey[key].id] && KeyOf(byKey[key].spec) == key
  }

  lemma LoopStarts(v0: View, vs: Id, byKey: map<string, RuleInfo>, foreignKeys: set<string>, desired: seq<RuleSpec>)
    ensures Midway(v0, v0, byKey, foreignKeys, desired, []) && Plan(vs, byKey, desired[..0]) == []
  {
    assert desired[..0] == [];
  }

  lemma LostCreation(v0: View, v: View, foreignKeys: set<string>, desired: seq<RuleSpec>, i: nat, id: Id)
    requires Extends(v0, v) && AddsDesired(v0, v, foreignKeys, desired) && i < |desired| && KeyOf(desired[i]) !in foreignKeys
    requires id !in v
    ensures Extends(v0, v[id := desired[i]]) && AddsDesired(v0, v[id := desired[i]], foreignKeys, desired)
  {
  }

  method Converge(c: ChildClient, vs: Id, byKey: map<string, RuleInfo>, foreignKeys: set<string>, desired: seq<RuleSpec>)
    returns (out: seq<RuleInfo>, changed: bool, err: Option<Problem>)
    requires c.Valid() && PointsIn(ViewOf(c.kids, vs), byKey)
    modifies c
    ensures c.Valid() && c.faults <= old(c.faults) && OnlyRules(old(c.kids), c.kids, vs)
    ensures Extends(ViewOf(old(c.kids), vs), ViewOf(c.kids, vs))
    ensures AddsDesired(ViewOf(old(c.kids), vs), ViewOf(c.kids, vs), foreignKeys, desired)
    ensures err.None? ==>
              && |out| == |desired| && Midway(ViewOf(old(c.kids), vs), ViewOf(c.kids, vs), byKey, foreignKeys, desired, out)
              && c.calls == old(c.calls) + Plan(vs, byKey, desired) && (changed <==> Plan(vs, byKey, desired) != [])
              && (!changed ==> c.kids == old(c.kids)) && forall j | 0 <= j < |desired| :: desired[j].poolID != NO_ID
    ensures Plan(vs, byKey, desired) == [] ==> c.kids == old(c.kids) && c.calls == old(c.calls) && c.faults == old(c.faults)
    ensures err.Some? ==>
              c.faults < old(c.faults) || exists i :: 0 <= i < |desired| && (desired[i].poolID == NO_ID || KeyOf(desired[i]) in foreignKeys)
  {
    hide KeyOf, Plan, ViewOf, OnlyRules, WellFormedKids, Midway, AddsDesired, Extends;
    ghost var k0, faults0 := c.kids, c.faults;
    ghost var v0 := ViewOf(k0, vs);
    ghost var calls0 := c.calls;
    out, changed, err := [], false, None;
    NothingChanged(k0, vs);
    LoopStarts(v0, vs, byKey, foreignKeys, desired);
    MidwaySays(v0, v0, byKey, foreignKeys, desired, []);
    for i := 0 to |desired|
      invariant c.Valid() && c.faults <= old(c.faults) && OnlyRules(k0, c.kids, vs)
      invariant |out| == i && Midway(v0, ViewOf(c.kids, vs), byKey, foreignKeys, desired, out)
      invariant Extends(v0, ViewOf(c.kids, vs)) && AddsDesired(v0, ViewOf(c.kids, vs), foreignKeys, desired)
      invariant c.calls == calls0 + Plan(vs, byKey, desired[..i]) && (changed <==> Plan(vs, byKey, desired[..i]) != [])
      invariant !changed ==> c.kids == k0
      invariant forall j | 0 <= j < i :: desired[j].poolID != NO_ID
      invariant Plan(vs, byKey, desired) == [] ==> !changed && c.calls == calls0 && c.faults == faults0
    {
      var spec := desired[i];
      ghost var k := c.kids;
      ghost var v := ViewOf(k, vs);
      EmptyPlan(vs, byKey, desired, i);
      if spec.poolID == NO_ID {
        return out, changed, Some(Refused);
      }
      PlanGrows(vs, byKey, desired, i);
      var key := KeyOf(spec);
      if key in foreignKeys {
        return out, changed, Some(Refused);
      }
      if key in byKey {
        KeepRule(v0, v, byKey, foreignKeys, desired, out);
        out := out + [byKey[key]];
        continue;
      }
      var r := c.CreateRoutingRule(vs, spec);
      if c.kids != k {
        ghost var id := if r.Ok? then r.value.id else NewRule(k, c.kids, vs, spec);
        StoreRule(k0, k, c.kids, vs, id, spec);
        LostCreation(v0, v, foreignKeys, desired, i, id);
      }
      if r.Err? {
        return out, changed, Some(CallFailed(r.error));
      }
      AddRule(v0, v, byKey, foreignKeys, desired, out, r.value.id);
      out := out + [r.value];
      changed := true;
    }
    assert desired[..|desired|] == desired;
  }

  lemma MidwaySays(v0: View, v: View, byKey: map<string, RuleInfo>, foreignKeys: set<string>, desired: seq<RuleSpec>, out: seq<RuleInfo>)
    requires Midway(v0, v, byKey, foreignKeys, desired, out) && PointsIn(v0, byKey)
    ensures Extends(v0, v) && AddsDesired(v0, v, foreignKeys, desired)
  {
    hide KeyOf;
    MidwayAdds(v0, v, byKey, foreignKeys, desired, out);
  }

  // ----- The second loop: delete what is owned and no longer desired -----

  lemma RemoveRule(k0: Kids, k: Kids, m: Kids, vs: Id, id: Id)
    requires WellFormedKids(k) && OnlyRules(k0, k, vs) && id in RulesOf(k, vs)
    requires m == k.(rules := k.rules - {id})
    ensures WellFormedKids(m) && OnlyRules(k0, m, vs) && ViewOf(m, vs) == ViewOf(k, vs) - {id}
  {
  }

  /** One deletion. A call that fails may have taken effect. */
  method Remove(c: ChildClient, vs: Id, id: Id, ghost k0: Kids) returns (r: Result<(), Failure>)
    requires c.Valid() && id in ViewOf(c.kids, vs) && OnlyRules(k0, c.kids, vs)
    modifies c
    ensures c.Valid() && OnlyRules(k0, c.kids, vs) && c.faults <= old(c.faults)
    ensures c.calls == old(c.calls) + [DeleteRule(vs, id)]
    ensures ViewOf(c.kids, vs) == ViewOf(old(c.kids), vs) - {id} || ViewOf(c.kids, vs) == ViewOf(old(c.kids), vs)
    ensures r.Ok? ==> ViewOf(c.kids, vs) == ViewOf(old(c.kids), vs) - {id}
    ensures r.Err? ==> c.faults < old(c.faults)
  {
    hide ViewOf, OnlyRules, WellFormedKids;
    ghost var k := c.kids;
    r := c.DeleteRoutingRule(vs, id);
    if c.kids != k {
      RemoveRule(k0, k, c.kids, vs, id);
    }
  }

  lemma RemovalAddsUp(v: View, ids: set<Id>, id: Id)
    ensures v - ids - {id} == v - (ids + {id}) && (v - ids) - (ids + {id}) == v - (ids + {id})
    ensures v - (ids + {id}) - (ids + {id}) == v - (ids + {id})
  {
  }

  lemma PruneStarts(vs: Id, byKey: map<string, RuleInfo>, v: View)
    ensures Indexed(byKey, {}) == {} == SetOf([]) && Deletions(vs, []) == [] && NoRepeats([]) && v - {} == v
  {
  }

  /** Deletes the indexed rules whose key is not wanted; when a call fails, some of them. */
  method Prune(c: ChildClient, vs: Id, byKey: map<string, RuleInfo>, wanted: set<string>)
    returns (deleted: bool, err: Option<Problem>, ghost gone: seq<Id>, ghost keys: set<string>)
    requires c.Valid() && Injective(byKey) && Indexed(byKey, byKey.Keys) <= ViewOf(c.kids, vs).Keys
    modifies c
    ensures c.Valid() && c.faults <= old(c.faults) && OnlyRules(old(c.kids), c.kids, vs)
    ensures c.calls == old(c.calls) + Deletions(vs, gone) && NoRepeats(gone) && SetOf(gone) == Indexed(byKey, keys)
    ensures keys <= byKey.Keys - wanted
    ensures ViewOf(old(c.kids), vs) - SetOf(gone) == ViewOf(c.kids, vs) - SetOf(gone)
    ensures ViewOf(c.kids, vs).Keys <= ViewOf(old(c.kids), vs).Keys
    ensures err.None? ==>
              && keys == byKey.Keys - wanted && (deleted <==> gone != []) && (!deleted ==> c.kids == old(c.kids))
              && ViewOf(c.kids, vs) == ViewOf(old(c.kids), vs) - SetOf(gone)
    ensures err.Some? ==> c.faults < old(c.faults)
    ensures byKey.Keys <= wanted ==> err.None? && !deleted && c.kids == old(c.kids) && c.calls == old(c.calls)
  {
    hide ViewOf, OnlyRules, WellFormedKids, Indexed, Injective, Deletions, NoRepeats, SetOf;
    ghost var k0, calls0 := c.kids, c.calls;
    ghost var v0 := ViewOf(k0, vs);
    NothingChanged(k0, vs);
    deleted, err, gone, keys := false, None, [], {};
    PruneStarts(vs, byKey, v0);
    var left := byKey.Keys;
    while left != {}
      invariant left <= byKey.Keys && c.Valid() && c.faults <= old(c.faults)
      invariant OnlyRules(k0, c.kids, vs) && ViewOf(c.kids, vs) == v0 - SetOf(gone)
      invariant c.calls == calls0 + Deletions(vs, gone) && NoRepeats(gone) && (deleted <==> gone != [])
      invariant !deleted ==> c.kids == k0
      invariant byKey.Keys <= wanted ==> !deleted && c.calls == calls0
      invariant SetOf(gone) == Indexed(byKey, keys) && keys == byKey.Keys - left - wanted
      decreases left
    {
      var key :| key in left;
      ghost var done := byKey.Keys - left;
      left := left - {key};
      assert byKey.Keys - left == done + {key};
      if key in wanted {
        assert (done + {key}) - wanted == done - wanted;
        continue;
      }
      assert (done + {key}) - wanted == (done - wanted) + {key};
      var id := byKey[key].id;
      IndexedGrows(byKey, keys, key);
      IndexedIsIn(byKey, key);
      DeletionsGrow(vs, gone, id);
      RemovalAddsUp(v0, SetOf(gone), id);
      var r := Remove(c, vs, id, k0);
      gone, keys := gone + [id], keys + {key};
      if r.Err? {
        return deleted, Some(CallFailed(r.error)), gone, keys;
      }
      deleted := true;
    }
  }

  // ----- RoutingRuleManager.ensure -----

  /** Only owned rules with undesired keys disappear, whatever happens; and only desired rules whose key no foreign rule
      holds are added. */
  ghost predicate Respects(v0: View, v: View, owned: set<Id>, all: bool, desired: seq<RuleSpec>) {
    && (forall id | id in v0 && (!Owned(owned, all, id) || KeyOf(v0[id]) in Keys(desired)) :: id in v && v[id] == v0[id])
    && (forall id | id in v0 && id in v :: v[id] == v0[id])
    && (forall id | id in v && id !in v0 :: v[id] in desired && !HeldByForeign(v0, owned, all, KeyOf(v[id])))
  }

  /** Per desired rule, `out` tells the owned or new one that has its key; beside them there are only foreign rules. */
  ghost predicate Converged(v0: View, v: View, owned: set<Id>, all: bool, desired: seq<RuleSpec>, out: seq<RuleInfo>) {
    && |out| == |desired|
    && v.Keys == IDs(out) + (set id | id in v0 && !Owned(owned, all, id)) && (forall id | id in v0 && id in v :: v[id] == v0[id])
    && (forall j | 0 <= j < |out| ::
          && desired[j].poolID != NO_ID
          && out[j].id in v && v[out[j].id] == out[j].spec && KeyOf(out[j].spec) == KeyOf(desired[j])
          && (out[j].id in v0 ==> Owned(owned, all, out[j].id))
          && !HeldByForeign(v0, owned, all, KeyOf(desired[j])))
  }

  predicate AllPlain(v: View, desired: seq<RuleSpec>) {
    (forall id | id in v :: Plain(v[id])) && (forall j | 0 <= j < |desired| :: Plain(desired[j]))
  }

  /** There is an owned or new rule with this route. */
  ghost predicate HasRoute(v0: View, v: View, owned: set<Id>, all: bool, spec: RuleSpec) {
    exists id :: id in v && (id in v0 ==> Owned(owned, all, id)) && SameRoute(v[id], spec)
  }

  predicate IsAsked(spec: RuleSpec, desired: seq<RuleSpec>) {
    exists j :: 0 <= j < |desired| && SameRoute(spec, desired[j])
  }

  /** Each desired route has a rule, an owned or a new one, and beside these there are only foreign rules. */
  ghost predicate Routed(v0: View, v: View, owned: set<Id>, all: bool, desired: seq<RuleSpec>) {
    && (forall j | 0 <= j < |desired| :: HasRoute(v0, v, owned, all, desired[j]))
    && (forall id | id in v && (id in v0 ==> Owned(owned, all, id)) :: IsAsked(v[id], desired))
    && (forall id | id in v0 && !Owned(owned, all, id) :: id in v && v[id] == v0[id])
  }

  lemma ConvergedRoutes(v0: View, v: View, owned: set<Id>, all: bool, desired: seq<RuleSpec>, out: seq<RuleInfo>)
    requires Converged(v0, v, owned, all, desired, out) && Respects(v0, v, owned, all, desired)
    requires AllPlain(v0, desired)
    ensures Routed(v0, v, owned, all, desired)
  {
    hide KeyOf, Plain, SameRoute, HeldByForeign, HasRoute, IsAsked, Keys, Converged, Respects;
    RulesArePlain(v0, v, owned, all, desired);
    forall j | 0 <= j < |desired| ensures HasRoute(v0, v, owned, all, desired[j]) {
      IsCarried(v0, v, owned, all, desired, out, j);
    }
    forall id | id in v && (id in v0 ==> Owned(owned, all, id)) ensures IsAsked(v[id], desired) {
      IsToldOf(v0, v, owned, all, desired, out, id);
    }
    ForeignRulesStay(v0, v, owned, all, desired);
  }

  lemma ForeignRulesStay(v0: View, v: View, owned: set<Id>, all: bool, desired: seq<RuleSpec>)
    requires Respects(v0, v, owned, all, desired)
    ensures forall id | id in v0 && !Owned(owned, all, id) :: id in v && v[id] == v0[id]
  {
    hide KeyOf, HeldByForeign, Keys;
  }

  lemma RulesArePlain(v0: View, v: View, owned: set<Id>, all: bool, desired: seq<RuleSpec>)
    requires Respects(v0, v, owned, all, desired) && AllPlain(v0, desired)
    ensures AllPlain(v, desired)
  {
    hide KeyOf, HeldByForeign, Keys, Plain;
  }

  lemma IsToldOf(v0: View, v: View, owned: set<Id>, all: bool, desired: seq<RuleSpec>, out: seq<RuleInfo>, id: Id)
    requires Converged(v0, v, owned, all, desired, out) && AllPlain(v, desired) && id in v && (id in v0 ==> Owned(owned, all, id))
    ensures IsAsked(v[id], desired)
  {
    hide KeyOf, Plain, SameRoute, HeldByForeign;
    var j :| 0 <= j < |out| && out[j].id == id;
    KeyReadsBack(v[id], desired[j]);
  }

  lemma IsCarried(v0: View, v: View, owned: set<Id>, all: bool, desired: seq<RuleSpec>, out: seq<RuleInfo>, j: nat)
    requires Converged(v0, v, owned, all, desired, out) && AllPlain(v, desired) && j < |desired|
    ensures HasRoute(v0, v, owned, all, desired[j])
  {
    hide KeyOf, Plain, SameRoute, HeldByForeign;
    KeyReadsBack(v[out[j].id], desired[j]);
  }

  lemma ConvergedIsDistinct(v0: View, v: View, owned: set<Id>, desired: seq<RuleSpec>, out: seq<RuleInfo>)
    requires Converged(v0, v, owned, false, desired, out) && DistinctSpecs(desired)
    ensures DistinctOwned(v, IDs(out), false)
  {
    hide KeyOf, HeldByForeign;
    forall a, b | a in v && b in v && a in IDs(out) && b in IDs(out) && KeyOf(v[a]) == KeyOf(v[b]) ensures a == b {
      var i :| 0 <= i < |out| && out[i].id == a;
      var j :| 0 <= j < |out| && out[j].id == b;
      assert KeyOf(desired[i]) == KeyOf(desired[j]);
    }
  }

  /** Nothing is to be done: the rules are the converged ones, and those told are owned. */
  ghost predicate Rests(v: View, owned: set<Id>, desired: seq<RuleSpec>) {
    exists v0: View, owned0: set<Id>, out: seq<RuleInfo> :: Converged(v0, v, owned0, false, desired, out) && owned == IDs(out)
  }

  lemma RestingIsSorted(v: View, vs: Id, owned: set<Id>, desired: seq<RuleSpec>, byKey: map<string, RuleInfo>, foreignKeys: set<string>)
    requires Rests(v, owned, desired) && Sorts(v, owned, false, byKey, foreignKeys)
    ensures Plan(vs, byKey, desired) == [] && byKey.Keys <= Keys(desired)
    ensures forall i | 0 <= i < |desired| :: desired[i].poolID != NO_ID && KeyOf(desired[i]) !in foreignKeys
  {
    hide KeyOf, Plan;
    var v0: View, owned0: set<Id>, out: seq<RuleInfo> :| Converged(v0, v, owned0, false, desired, out) && owned == IDs(out);
    NothingPlanned(v0, v, vs, owned0, byKey, foreignKeys, desired, out, |desired|);
    assert desired[..|desired|] == desired;
    forall key | key in byKey ensures key in Keys(desired) {
      var j :| 0 <= j < |out| && out[j].id == byKey[key].id;
      assert KeyOf(desired[j]) == key;
    }
    forall i | 0 <= i < |desired| ensures !HeldByForeign(v, owned, false, KeyOf(desired[i])) {
      ForeignWereThere(v0, v, owned0, desired, out, KeyOf(desired[i]));
    }
  }

  lemma ForeignWereThere(v0: View, v: View, owned: set<Id>, desired: seq<RuleSpec>, out: seq<RuleInfo>, key: string)
    requires Converged(v0, v, owned, false, desired, out)
    ensures HeldByForeign(v, IDs(out), false, key) ==> HeldByForeign(v0, owned, false, key)
  {
    hide KeyOf;
  }

  /** A run over converged rules that owns what was told tells the same again. */
  lemma SecondRunTellsTheSame(v0: View, v: View, owned: set<Id>, desired: seq<RuleSpec>, out: seq<RuleInfo>, again: seq<RuleInfo>)
    requires Converged(v0, v, owned, false, desired, out) && DistinctSpecs(desired)
    requires Converged(v, v, IDs(out), false, desired, again)
    ensures again == out
  {
    hide KeyOf, HeldByForeign;
    forall j | 0 <= j < |desired| ensures again[j] == out[j] {
      assert again[j].id in IDs(out);
      var i :| 0 <= i < |out| && out[i].id == again[j].id;
      assert KeyOf(desired[i]) == KeyOf(desired[j]);
    }
  }

  /** Exactly the needed calls: creations in the order of the desired rules, then deletions, each once. */
  ghost predicate Minimal(v: View, vs: Id, owned: set<Id>, all: bool, desired: seq<RuleSpec>, calls: seq<KidCall>) {
    exists byKey, foreignKeys, gone ::
      && Sorts(v, owned, all, byKey, foreignKeys)
      && calls == Plan(vs, byKey, desired) + Deletions(vs, gone)
      && NoRepeats(gone) && SetOf(gone) == Indexed(byKey, byKey.Keys - Keys(desired))
  }

  lemma SortsPointsIn(v: View, owned: set<Id>, all: bool, byKey: map<string, RuleInfo>, foreignKeys: set<string>)
    requires Sorts(v, owned, all, byKey, foreignKeys)
    ensures PointsIn(v, byKey) && Injective(byKey) && Indexed(byKey, byKey.Keys) <= v.Keys
  {
    hide KeyOf;
  }

  lemma GrowingRespects(v0: View, v: View, owned: set<Id>, all: bool, byKey: map<string, RuleInfo>, foreignKeys: set<string>,
                        desired: seq<RuleSpec>)
    requires Sorts(v0, owned, all, byKey, foreignKeys) && Extends(v0, v) && AddsDesired(v0, v, foreignKeys, desired)
    ensures Respects(v0, v, owned, all, desired)
  {
    hide KeyOf, Keys, HeldByForeign;
  }

  lemma PruningRespects(v0: View, v1: View, v2: View, owned: set<Id>, all: bool, byKey: map<string, RuleInfo>,
                        foreignKeys: set<string>, desired: seq<RuleSpec>, keys: set<string>, gone: set<Id>)
    requires Sorts(v0, owned, all, byKey, foreignKeys) && Extends(v0, v1) && AddsDesired(v0, v1, foreignKeys, desired)
    requires keys <= byKey.Keys - Keys(desired) && gone == Indexed(byKey, keys) && v1 - gone == v2 - gone && v2.Keys <= v1.Keys
    requires forall id | id in v2 && id in v1 :: v2[id] == v1[id]
    ensures Respects(v0, v2, owned, all, desired)
  {
    hide KeyOf, Keys, HeldByForeign;
    forall id | id in v0 && (!Owned(owned, all, id) || KeyOf(v0[id]) in Keys(desired)) ensures id in v2 && v2[id] == v0[id] {
      assert id !in gone;
      assert id in v1 - gone;
    }
    forall id | id in v2 && id !in v0 ensures v2[id] in desired && !HeldByForeign(v0, owned, all, KeyOf(v2[id])) {
      assert id in v1;
    }
  }

  lemma RestConverges(v0: View, v1: View, v2: View, owned: set<Id>, all: bool, byKey: map<string, RuleInfo>,
                      foreignKeys: set<string>, desired: seq<RuleSpec>, out: seq<RuleInfo>)
    requires Sorts(v0, owned, all, byKey, foreignKeys) && DistinctOwned(v0, owned, all)
    requires Midway(v0, v1, byKey, foreignKeys, desired, out) && |out| == |desired|
    requires v2 == v1 - Indexed(byKey, byKey.Keys - Keys(desired)) && forall j | 0 <= j < |desired| :: desired[j].poolID != NO_ID
    ensures Converged(v0, v2, owned, all, desired, out)
  {
    hide KeyOf, HeldByForeign, Sorts, DistinctOwned, Indexed, Extends, AllStand, Keys;
    var stale := Indexed(byKey, byKey.Keys - Keys(desired));
    RestKeepsSpecs(v0, v1, v2, stale);
    RestIsStale(v0, v1, owned, all, byKey, foreignKeys, desired, out);
    forall j | 0 <= j < |out|
      ensures out[j].id in v2 && v2[out[j].id] == out[j].spec && KeyOf(out[j].spec) == KeyOf(desired[j])
              && (out[j].id in v0 ==> Owned(owned, all, out[j].id))
              && !HeldByForeign(v0, owned, all, KeyOf(desired[j]))
    {
      OneStays(v0, v1, owned, all, byKey, foreignKeys, desired, out, j);
    }
    assert v2.Keys == IDs(out) + (set id | id in v0 && !Owned(owned, all, id));
  }

  lemma OneStays(v0: View, v1: View, owned: set<Id>, all: bool, byKey: map<string, RuleInfo>, foreignKeys: set<string>,
                 desired: seq<RuleSpec>, out: seq<RuleInfo>, j: nat)
    requires Sorts(v0, owned, all, byKey, foreignKeys) && AllStand(v0, v1, byKey, foreignKeys, desired, out) && j < |out|
    ensures out[j].id in v1 && v1[out[j].id] == out[j].spec && KeyOf(out[j].spec) == KeyOf(desired[j])
    ensures out[j].id !in Indexed(byKey, byKey.Keys - Keys(desired)) && (out[j].id in v0 ==> Owned(owned, all, out[j].id))
    ensures !HeldByForeign(v0, owned, all, KeyOf(desired[j]))
  {
    hide KeyOf, HeldByForeign;
    assert StandsFor(v1, byKey, out[j].id in v0, desired[j], out[j]);
    assert KeyOf(desired[j]) in Keys(desired);
  }

  /** Once everything desired is there, what is left over is what is stale or foreign. */
  lemma RestIsStale(v0: View, v1: View, owned: set<Id>, all: bool, byKey: map<string, RuleInfo>, foreignKeys: set<string>,
                    desired: seq<RuleSpec>, out: seq<RuleInfo>)
    requires Sorts(v0, owned, all, byKey, foreignKeys) && DistinctOwned(v0, owned, all)
    requires AllStand(v0, v1, byKey, foreignKeys, desired, out) && |out| == |desired|
    ensures var stale := Indexed(byKey, byKey.Keys - Keys(desired));
            && (forall id | id in v0 && Owned(owned, all, id) && id !in stale :: id in IDs(out))
            && (forall id | id in stale :: id in v0 && Owned(owned, all, id))
  {
    hide KeyOf, HeldByForeign;
    var stale := Indexed(byKey, byKey.Keys - Keys(desired));
    forall id | id in v0 && Owned(owned, all, id) && id !in stale ensures id in IDs(out) {
      var key := KeyOf(v0[id]);
      assert key in byKey && byKey[key].id == id;
      assert key in Keys(desired);
      var j :| 0 <= j < |desired| && KeyOf(desired[j]) == key;
      assert StandsFor(v1, byKey, out[j].id in v0, desired[j], out[j]);
    }
  }

  lemma RestKeepsSpecs(v0: View, v1: View, v2: View, stale: set<Id>)
    requires Extends(v0, v1) && v2 == v1 - stale
    ensures forall id | id in v0 && id in v2 :: v2[id] == v0[id]
  {
  }

  lemma RulesKeepTheirSpecs(k: Kids, m: Kids, vs: Id)
    requires WellFormedKids(k) && OnlyRules(k, m, vs)
    ensures forall id | id in ViewOf(m, vs) && id in ViewOf(k, vs) :: ViewOf(m, vs)[id] == ViewOf(k, vs)[id]
  {
  }

  lemma ListIsView(k: Kids, vs: Id, existing: seq<RuleInfo>)
    requires ListsRules(k, vs, existing)
    ensures forall i | 0 <= i < |existing| :: existing[i].id in ViewOf(k, vs) && ViewOf(k, vs)[existing[i].id] == existing[i].spec
    ensures forall id | id in ViewOf(k, vs) :: exists i :: 0 <= i < |existing| && existing[i].id == id
  {
  }

  lemma NothingRespects(v: View, owned: set<Id>, all: bool, desired: seq<RuleSpec>)
    ensures Respects(v, v, owned, all, desired)
  {
  }

  lemma CallsAddUp(a: seq<KidCall>, b: seq<KidCall>, c: seq<KidCall>, vs: Id, gone: seq<Id>)
    ensures (a + b + c)[..|a|] == a && (a + b + c)[|a|..] == b + c
    ensures Deletions(vs, gone) == [] <==> gone == []
  {
  }

  method Ensure(c: ChildClient, lb: Id, vs: Id, desired: seq<RuleSpec>, owned: set<Id>, legacyAllOwned: bool)
    returns (out: seq<RuleInfo>, changed: bool, err: Option<Problem>)
    requires c.Valid()
    modifies c
    ensures c.Valid() && c.faults <= old(c.faults) && OnlyRules(old(c.kids), c.kids, vs)
    ensures Respects(ViewOf(old(c.kids), vs), ViewOf(c.kids, vs), owned, legacyAllOwned, desired)
    ensures err.None? ==>
              && |old(c.calls)| <= |c.calls| && c.calls[..|old(c.calls)|] == old(c.calls)
              && Minimal(ViewOf(old(c.kids), vs), vs, owned, legacyAllOwned, desired, c.calls[|old(c.calls)|..])
              && (changed <==> c.calls != old(c.calls)) && (!changed ==> c.kids == old(c.kids))
              && forall j | 0 <= j < |out| :: out[j].id != NO_ID
    ensures err.None? && DistinctOwned(ViewOf(old(c.kids), vs), owned, legacyAllOwned) ==>
              Converged(ViewOf(old(c.kids), vs), ViewOf(c.kids, vs), owned, legacyAllOwned, desired, out)
              && (AllPlain(ViewOf(old(c.kids), vs), desired) ==>
                    Routed(ViewOf(old(c.kids), vs), ViewOf(c.kids, vs), owned, legacyAllOwned, desired))
    ensures !legacyAllOwned && Rests(ViewOf(old(c.kids), vs), owned, desired) ==>
              c.kids == old(c.kids) && c.calls == old(c.calls) && (err.Some? ==> c.faults < old(c.faults) || lb == NO_ID || vs == NO_ID)
    ensures err.Some? ==>
              || c.faults < old(c.faults) || lb == NO_ID || vs == NO_ID
              || exists i :: 0 <= i < |desired| && (desired[i].poolID == NO_ID
                              || HeldByForeign(ViewOf(old(c.kids), vs), owned, legacyAllOwned, KeyOf(desired[i])))
  {
    hide ViewOf, OnlyRules, WellFormedKids, KeyOf, Keys, Midway, Converged, Respects, Extends, AddsDesired, Sorts, Plan, Deletions,
      NoRepeats, SetOf, Indexed, Injective, PointsIn, ListsRules, DistinctOwned, HeldByForeign, Rests, AllPlain, Routed;
    ghost var k0, calls0 := c.kids, c.calls;
    ghost var v0 := ViewOf(k0, vs);
    NothingChanged(k0, vs);
    NothingRespects(v0, owned, legacyAllOwned, desired);
    if lb == NO_ID || vs == NO_ID {
      return [], false, Some(Refused);
    }
    var existing := c.ListRoutingRules(vs);
    if existing.Err? {
      return [], false, Some(CallFailed(existing.error));
    }
    ListIsView(k0, vs, existing.value);
    var byKey, foreignKeys := Sort(existing.value, owned, legacyAllOwned, v0);
    SortsPointsIn(v0, owned, legacyAllOwned, byKey, foreignKeys);
    if !legacyAllOwned && Rests(v0, owned, desired) {
      RestingIsSorted(v0, vs, owned, desired, byKey, foreignKeys);
    }
    out, changed, err := Converge(c, vs, byKey, foreignKeys, desired);
    ghost var k1 := c.kids;
    ghost var v1 := ViewOf(k1, vs);
    GrowingRespects(v0, v1, owned, legacyAllOwned, byKey, foreignKeys, desired);
    if err.Some? {
      ForeignKeysAreHeld(v0, owned, legacyAllOwned, byKey, foreignKeys);
      return;
    }
    StandingHaveIDs(k1, vs, v0, byKey, foreignKeys, desired, out);
    ExtendsKeys(v0, v1);
    var wanted := Keys(desired);
    var deleted, failure;
    ghost var gone, keys;
    deleted, failure, gone, keys := Prune(c, vs, byKey, wanted);
    ghost var v2 := ViewOf(c.kids, vs);
    RulesKeepTheirSpecs(k1, c.kids, vs);
    OnlyRulesChains(k0, k1, c.kids, vs);
    PruningRespects(v0, v1, v2, owned, legacyAllOwned, byKey, foreignKeys, desired, keys, SetOf(gone));
    changed := changed || deleted;
    err := failure;
    if err.Some? {
      return;
    }
    if DistinctOwned(v0, owned, legacyAllOwned) {
      RestConverges(v0, v1, v2, owned, legacyAllOwned, byKey, foreignKeys, desired, out);
      if AllPlain(v0, desired) {
        ConvergedRoutes(v0, v2, owned, legacyAllOwned, desired, out);
      }
    }
    CallsAddUp(calls0, Plan(vs, byKey, desired), Deletions(vs, gone), vs, gone);
    assert c.calls[|calls0|..] == Plan(vs, byKey, desired) + Deletions(vs, gone);
  }

  lemma StandingHaveIDs(k: Kids, vs: Id, v0: View, byKey: map<string, RuleInfo>, foreignKeys: set<string>, desired: seq<RuleSpec>,
                        out: seq<RuleInfo>)
    requires WellFormedKids(k) && Midway(v0, ViewOf(k, vs), byKey, foreignKeys, desired, out)
    ensures forall j | 0 <= j < |out| :: out[j].id != NO_ID
  {
    hide KeyOf;
  }

  lemma ForeignKeysAreHeld(v: View, owned: set<Id>, all: bool, byKey: map<string, RuleInfo>, foreignKeys: set<string>)
    requires Sorts(v, owned, all, byKey, foreignKeys)
    ensures forall key | key in foreignKeys :: HeldByForeign(v, owned, all, key)
  {
    hide KeyOf, HeldByForeign;
  }

  lemma ExtendsKeys(v0: View, v: View)
    requires Extends(v0, v)
    ensures v0.Keys <= v.Keys
  {
  }

  /** Cleanup */
  method Cleanup(c: ChildClient, lb: Id, vs: Id, id: Id) returns (r: Result<(), Failure>)
    requires c.Valid()
    modifies c
    ensures c.Valid() && c.faults <= old(c.faults)
    ensures c.kids == old(c.kids) || (id in RulesOf(old(c.kids), vs) && c.kids == old(c.kids).(rules := old(c.kids.rules) - {id}))
    ensures if lb == NO_ID || vs == NO_ID || id == NO_ID then r.Ok? && c.calls == old(c.calls) && c.kids == old(c.kids)
            else c.calls == old(c.calls) + [DeleteRule(vs, id)]
                 && (r.Ok? || r.error == NotFound ==> id !in RulesOf(c.kids, vs))
                 && (r.Err? ==> c.faults < old(c.faults) || id !in RulesOf(old(c.kids), vs))
                 && (r == Err(Failed) ==> c.faults < old(c.faults))
  {
    if lb == NO_ID || vs == NO_ID || id == NO_ID {
      return Ok(());
    }
    r := c.DeleteRoutingRule(vs, id);
  }

  // ----- A second run -----

  lemma {:induction false} NothingPlanned(v0: View, v: View, vs: Id, owned: set<Id>, byKey: map<string, RuleInfo>,
                                          foreignKeys: set<string>, desired: seq<RuleSpec>, out: seq<RuleInfo>, n: nat)
    requires |out| == |desired| && Sorts(v, IDs(out), false, byKey, foreignKeys) && n <= |desired|
    requires forall j | 0 <= j < |out| :: out[j].id in v && v[out[j].id] == out[j].spec && KeyOf(out[j].spec) == KeyOf(desired[j])
    ensures Plan(vs, byKey, desired[..n]) == []
  {
    hide KeyOf, HeldByForeign;
    if n > 0 {
      NothingPlanned(v0, v, vs, owned, byKey, foreignKeys, desired, out, n - 1);
      PlanGrows(vs, byKey, desired, n - 1);
      assert out[n - 1].id in IDs(out);
    }
  }

  lemma ConvergedTells(v0: View, v: View, owned: set<Id>, all: bool, desired: seq<RuleSpec>, out: seq<RuleInfo>)
    requires Converged(v0, v, owned, all, desired, out)
    ensures forall j | 0 <= j < |out| :: out[j].id in v && v[out[j].id] == out[j].spec && KeyOf(out[j].spec) == KeyOf(desired[j])
  {
    hide KeyOf, HeldByForeign;
  }

  /** With the rules it reported on record as owned, a second run finds the same desired rules in place and no other
      owned rule, and makes no call. */
  lemma SecondRunIsQuiet(v0: View, v: View, vs: Id, owned: set<Id>, all: bool, desired: seq<RuleSpec>, out: seq<RuleInfo>,
                         calls: seq<KidCall>)
    requires Converged(v0, v, owned, all, desired, out)
    requires Minimal(v, vs, IDs(out), false, desired, calls)
    ensures calls == []
  {
    hide KeyOf, HeldByForeign, Plan, IDs, Indexed, SetOf;
    var byKey, foreignKeys, gone :| Sorts(v, IDs(out), false, byKey, foreignKeys)
      && calls == Plan(vs, byKey, desired) + Deletions(vs, gone)
      && NoRepeats(gone) && SetOf(gone) == Indexed(byKey, byKey.Keys - Keys(desired));
    ConvergedTells(v0, v, owned, all, desired, out);
    NothingPlanned(v0, v, vs, owned, byKey, foreignKeys, desired, out, |desired|);
    assert desired[..|desired|] == desired;
    NothingStale(v, byKey, foreignKeys, desired, out);
  }

  lemma NothingStale(v: View, byKey: map<string, RuleInfo>, foreignKeys: set<string>, desired: seq<RuleSpec>, out: seq<RuleInfo>)
    requires |out| == |desired| && Sorts(v, IDs(out), false, byKey, foreignKeys)
    requires forall j | 0 <= j < |out| :: out[j].id in v && v[out[j].id] == out[j].spec && KeyOf(out[j].spec) == KeyOf(desired[j])
    ensures Indexed(byKey, byKey.Keys - Keys(desired)) == {}
    ensures forall gone: seq<Id> | gone != [] :: SetOf(gone) != {}
  {
    hide KeyOf, HeldByForeign;
    forall key | key in byKey ensures key in Keys(desired) {
      var j :| 0 <= j < |out| && out[j].id == byKey[key].id;
      assert KeyOf(desired[j]) == key;
    }
    forall gone: seq<Id> | gone != [] ensures SetOf(gone) != {} {
      assert gone[0] in SetOf(gone);
    }
  }
}
