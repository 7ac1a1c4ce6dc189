/** BackendMemberManager (pkg/deploy/lbaas/backend_member_manager.go): the member set of one pool. */
module Members {
  import opened Common
  import opened Model
  import opened Text
  import opened Children

  /** poolMemberKey */
  function KeyOf(s: MemberSpec): string {
    s.resourceID + "|" + (s.resourceIP + "|" + (Itoa(s.backendPortID) + "|" + Itoa(s.port)))
  }

  /** Keys are equal exactly for the same backend port of the same resource, where ids and addresses contain no bar. */
  lemma KeyReadsBack(s: MemberSpec, t: MemberSpec)
    requires '|' !in s.resourceID && '|' !in s.resourceIP && '|' !in t.resourceID && '|' !in t.resourceIP
    ensures KeyOf(s) == KeyOf(t) <==>
            s.resourceID == t.resourceID && s.resourceIP == t.resourceIP && s.backendPortID == t.backendPortID && s.port == t.port
  {
    hide Itoa;
    if KeyOf(s) == KeyOf(t) {
      var rs := Itoa(s.backendPortID) + "|" + Itoa(s.port);
      var rt := Itoa(t.backendPortID) + "|" + Itoa(t.port);
      NumbersHaveNoBar(s.backendPortID);
      NumbersHaveNoBar(t.backendPortID);
      FirstSeparator(s.resourceID, s.resourceIP + "|" + rs, t.resourceID, t.resourceIP + "|" + rt, '|');
      FirstSeparator(s.resourceIP, rs, t.resourceIP, rt, '|');
      FirstSeparator(Itoa(s.backendPortID), Itoa(s.port), Itoa(t.backendPortID), Itoa(t.port), '|');
      ItoaInjective(s.backendPortID, t.backendPortID);
      ItoaInjective(s.port, t.port);
    }
  }

  lemma NumbersHaveNoBar(n: int)
    ensures '|' !in Itoa(n)
  {
    DigitsAreDigits(if n < 0 then -n else n);
  }

  predicate Complete(s: MemberSpec) {
    s.resourceID != "" && s.backendPortID != 0 && s.resourceIP != "" && s.port != 0
  }

  /** memberNeedsUpdate */
  predicate NeedsUpdate(observed: MemberSpec, desired: MemberSpec) {
    observed.resourceType != Stored(desired).resourceType || observed.weight != desired.weight
  }

  /** A member without a type is one of a compute instance. */
  predicate TypedAs(stored: string, asked: string) {
    stored == if asked == "" then "compute" else asked
  }

  /** The stored member is the desired one: same key, type and weight. */
  predicate Matches(stored: MemberSpec, desired: MemberSpec) {
    KeyOf(stored) == KeyOf(desired) && stored.weight == desired.weight && TypedAs(stored.resourceType, desired.resourceType)
  }

  lemma MatchingNeedsNothing(stored: MemberSpec, desired: MemberSpec)
    requires KeyOf(stored) == KeyOf(desired)
    ensures Matches(stored, desired) <==> !NeedsUpdate(stored, desired)
  {
    hide KeyOf;
  }

  function Keys(desired: seq<MemberSpec>): set<string> {
    set i | 0 <= i < |desired| :: KeyOf(desired[i])
  }

  predicate DistinctSpecs(desired: seq<MemberSpec>) {
    forall i, j | 0 <= i < |desired| && 0 <= j < |desired| && KeyOf(desired[i]) == KeyOf(desired[j]) :: i == j
  }

  predicate DistinctIn(k: Kids, pool: Id) {
    forall a, b | a in MembersOf(k, pool) && b in MembersOf(k, pool) && KeyOf(k.members[a].spec) == KeyOf(k.members[b].spec) ::
      a == b
  }

  /** byKey of the source: later entries win. */
  function ByKey(observed: seq<MemberInfo>): map<string, MemberInfo> {
    if observed == [] then map[]
    else ByKey(observed[..|observed| - 1])[KeyOf(observed[|observed| - 1].spec) := observed[|observed| - 1]]
  }

  // ----- The calls that a run makes -----

  function Step(pool: Id, byKey: map<string, MemberInfo>, spec: MemberSpec): seq<KidCall> {
    if KeyOf(spec) !in byKey then [CreateMember(pool, spec)]
    else if NeedsUpdate(byKey[KeyOf(spec)].spec, spec) then [UpdateMember(pool, byKey[KeyOf(spec)].id, spec)]
    else []
  }

  /** One creation per missing key, one update per kept key whose type or weight differs. */
  function Plan(pool: Id, byKey: map<string, MemberInfo>, desired: seq<MemberSpec>): seq<KidCall> {
    if desired == [] then []
    else Plan(pool, byKey, desired[..|desired| - 1]) + Step(pool, byKey, desired[|desired| - 1])
  }

  function Deletions(pool: Id, ids: seq<Id>): seq<KidCall> {
    seq(|ids|, i requires 0 <= i < |ids| => DeleteMember(pool, ids[i]))
  }

  /** The members whose keys are not desired. */
  function Obsolete(k: Kids, pool: Id, desired: seq<MemberSpec>): set<Id> {
    set id | id in MembersOf(k, pool) && KeyOf(k.members[id].spec) !in Keys(desired)
  }

  /** Only members of this pool change. */
  ghost predicate OnlyMembers(k: Kids, m: Kids, pool: Id) {
    && m == k.(members := m.members, issued := m.issued) && k.issued <= m.issued
    && (forall id | id in m.members && id !in k.issued :: m.members[id].pool == pool)
    && (forall id | id in k.members && k.members[id].pool != pool :: id in m.members && m.members[id] == k.members[id])
    && (forall id | id in m.members && id in k.issued :: id in k.members && m.members[id].pool == k.members[id].pool)
  }

  // ----- The index -----

  /** With distinct keys the index is exact. */
  ghost predicate Indexes(k: Kids, pool: Id, byKey: map<string, MemberInfo>) {
    && (forall id | id in MembersOf(k, pool) ::
          KeyOf(k.members[id].spec) in byKey && byKey[KeyOf(k.members[id].spec)] == Info(id, k.members[id].spec))
    && (forall key | key in byKey ::
          byKey[key].id in MembersOf(k, pool) && byKey[key].spec == k.members[byKey[key].id].spec && KeyOf(byKey[key].spec) == key)
  }

  lemma {:induction false} ByKeyHolds(observed: seq<MemberInfo>)
    requires forall i, j | 0 <= i < |observed| && 0 <= j < |observed| && KeyOf(observed[i].spec) == KeyOf(observed[j].spec) :: i == j
    ensures forall i | 0 <= i < |observed| :: KeyOf(observed[i].spec) in ByKey(observed) && ByKey(observed)[KeyOf(observed[i].spec)] == observed[i]
    ensures forall key | key in ByKey(observed) :: ByKey(observed)[key] in observed && KeyOf(ByKey(observed)[key].spec) == key
  {
    hide KeyOf;
    if observed != [] {
      var before := observed[..|observed| - 1];
      assert forall i | 0 <= i < |before| :: before[i] == observed[i];
      ByKeyHolds(before);
    }
  }

  lemma IndexIsExact(k: Kids, pool: Id, observed: seq<MemberInfo>)
    requires ListsMembers(k, pool, observed) && DistinctIn(k, pool)
    ensures Indexes(k, pool, ByKey(observed))
  {
    hide KeyOf, ByKey;
    ByKeyHolds(observed);
    forall id | id in MembersOf(k, pool)
      ensures KeyOf(k.members[id].spec) in ByKey(observed)
              && ByKey(observed)[KeyOf(k.members[id].spec)] == Info(id, k.members[id].spec)
    {
      var i :| 0 <= i < |observed| && observed[i].id == id;
      assert observed[i] == Info(id, k.members[id].spec);
    }
  }

  method BuildIndex(observed: seq<MemberInfo>) returns (byKey: map<string, MemberInfo>)
    ensures byKey == ByKey(observed)
  {
    hide KeyOf;
    byKey := map[];
    for i := 0 to |observed|
      invariant byKey == ByKey(observed[..i])
    {
      assert observed[..i + 1][..i] == observed[..i];
      byKey := byKey[KeyOf(observed[i].spec) := observed[i]];
    }
    assert observed[..|observed|] == observed;
  }

  // ----- The first loop: create and update -----

  /** The members of one pool. */
  function View(k: Kids, pool: Id): (v: map<Id, MemberSpec>)
    ensures v.Keys == MembersOf(k, pool)
  {
    map id | id in MembersOf(k, pool) :: k.members[id].spec
  }

  /** Which stored member stands for the j-th desired one. */
  predicate StandsFor(v: map<Id, MemberSpec>, byKey: map<string, MemberInfo>, isOld: bool, spec: MemberSpec, m: MemberInfo) {
    && m.id in v && v[m.id] == m.spec && Matches(m.spec, spec)
    && if KeyOf(spec) in byKey then m.id == byKey[KeyOf(spec)].id else !isOld
  }

  /** The members after the first |out| desired ones. */
  ghost predicate Midway(v0: map<Id, MemberSpec>, v: map<Id, MemberSpec>, byKey: map<string, MemberInfo>,
                         desired: seq<MemberSpec>, out: seq<MemberInfo>) {
    && |out| <= |desired| && v.Keys == v0.Keys + IDs(out)
    && KeysKept(v0, v, Keys(desired[..|out|])) && AllStand(v0, v, byKey, desired, out)
  }

  /** No stored member changes its key, and outside `keys` nothing changes at all. */
  ghost predicate KeysKept(v0: map<Id, MemberSpec>, v: map<Id, MemberSpec>, keys: set<string>) {
    forall id | id in v0 :: id in v && KeyOf(v[id]) == KeyOf(v0[id]) && (KeyOf(v0[id]) !in keys ==> v[id] == v0[id])
  }

  ghost predicate AllStand(v0: map<Id, MemberSpec>, v: map<Id, MemberSpec>, byKey: map<string, MemberInfo>,
                           desired: seq<MemberSpec>, out: seq<MemberInfo>)
    requires |out| <= |desired|
  {
    forall j | 0 <= j < |out| :: StandsFor(v, byKey, out[j].id in v0, desired[j], out[j])
  }

  ghost predicate IndexesView(v: map<Id, MemberSpec>, byKey: map<string, MemberInfo>) {
    && (forall id | id in v :: KeyOf(v[id]) in byKey && byKey[KeyOf(v[id])].id == id)
    && (forall key | key in byKey :: byKey[key].id in v && byKey[key].spec == v[byKey[key].id] && KeyOf(byKey[key].spec) == key)
  }

  lemma IndexOfView(k: Kids, pool: Id, byKey: map<string, MemberInfo>)
    requires Indexes(k, pool, byKey)
    ensures IndexesView(View(k, pool), byKey)
  {
    hide KeyOf;
  }

  /** Setting one member: a new one, or an update of the indexed one. */
  lemma SetMember(v0: map<Id, MemberSpec>, v: map<Id, MemberSpec>, byKey: map<string, MemberInfo>, desired: seq<MemberSpec>,
                  out: seq<MemberInfo>, id: Id, stored: MemberSpec)
    requires IndexesView(v0, byKey) && Midway(v0, v, byKey, desired, out) && |out| < |desired| && DistinctSpecs(desired)
    requires Matches(stored, desired[|out|])
    requires if KeyOf(desired[|out|]) in byKey then id == byKey[KeyOf(desired[|out|])].id else id !in v
    ensures Midway(v0, v[id := stored], byKey, desired, out + [Info(id, stored)])
  {
    hide KeyOf, Matches, Keys, IDs, StandsFor, AllStand, KeysKept, IndexesView, DistinctSpecs;
    MatchingKeys(stored, desired[|out|]);
    IndexedIsOld(v0, byKey, KeyOf(desired[|out|]));
    var i := |out|;
    var spec := desired[i];
    var m := Info(id, stored);
    var v1, out1 := v[id := stored], out + [m];
    KeysGrow(desired, i);
    IDsGrow(out, m);
    assert v1.Keys == v0.Keys + IDs(out1);
    KeptKeysGrow(v0, v, Keys(desired[..i]), id, stored, spec);
    AllStandGrows(v0, v, byKey, desired, out, id, stored);
  }

  lemma IndexedIsOld(v0: map<Id, MemberSpec>, byKey: map<string, MemberInfo>, key: string)
    requires IndexesView(v0, byKey)
    ensures key in byKey ==> byKey[key].id in v0 && KeyOf(v0[byKey[key].id]) == key
  {
    hide KeyOf;
  }

  lemma KeptKeysGrow(v0: map<Id, MemberSpec>, v: map<Id, MemberSpec>, keys: set<string>, id: Id, stored: MemberSpec, spec: MemberSpec)
    requires KeysKept(v0, v, keys) && KeyOf(stored) == KeyOf(spec) && (id in v0 ==> KeyOf(v0[id]) == KeyOf(spec))
    ensures KeysKept(v0, v[id := stored], keys + {KeyOf(spec)})
  {
    hide KeyOf;
  }

  lemma AllStandGrows(v0: map<Id, MemberSpec>, v: map<Id, MemberSpec>, byKey: map<string, MemberInfo>, desired: seq<MemberSpec>,
                      out: seq<MemberInfo>, id: Id, stored: MemberSpec)
    requires IndexesView(v0, byKey) && |out| < |desired| && AllStand(v0, v, byKey, desired, out) && DistinctSpecs(desired)
    requires v0.Keys <= v.Keys && Matches(stored, desired[|out|])
    requires if KeyOf(desired[|out|]) in byKey then id == byKey[KeyOf(desired[|out|])].id else id !in v
    ensures AllStand(v0, v[id := stored], byKey, desired, out + [Info(id, stored)])
  {
    hide KeyOf, Matches, IndexesView, StandsFor;
    var i := |out|;
    var v1, out1 := v[id := stored], out + [Info(id, stored)];
    NewStands(v0, v, byKey, desired[i], id, stored);
    forall j | 0 <= j < i ensures StandsFor(v1, byKey, out1[j].id in v0, desired[j], out1[j]) {
      OthersAreOther(v0, v, byKey, desired[j], out[j], desired[i], id);
      OthersStand(v, byKey, out[j].id in v0, desired[j], out[j], id, stored);
    }
  }

  lemma NewStands(v0: map<Id, MemberSpec>, v: map<Id, MemberSpec>, byKey: map<string, MemberInfo>, spec: MemberSpec, id: Id,
                  stored: MemberSpec)
    requires IndexesView(v0, byKey) && v0.Keys <= v.Keys && Matches(stored, spec)
    requires if KeyOf(spec) in byKey then id == byKey[KeyOf(spec)].id else id !in v
    ensures StandsFor(v[id := stored], byKey, id in v0, spec, Info(id, stored))
  {
    hide Matches, KeyOf;
  }

  lemma OthersAreOther(v0: map<Id, MemberSpec>, v: map<Id, MemberSpec>, byKey: map<string, MemberInfo>, other: MemberSpec,
                       m: MemberInfo, spec: MemberSpec, id: Id)
    requires IndexesView(v0, byKey) && StandsFor(v, byKey, m.id in v0, other, m) && KeyOf(other) != KeyOf(spec)
    requires if KeyOf(spec) in byKey then id == byKey[KeyOf(spec)].id else id !in v
    ensures m.id != id
  {
    hide Matches, KeyOf;
  }

  lemma MatchingKeys(s: MemberSpec, t: MemberSpec)
    requires Matches(s, t)
    ensures KeyOf(s) == KeyOf(t)
  {
    hide KeyOf;
  }

  lemma OthersStand(v: map<Id, MemberSpec>, byKey: map<string, MemberInfo>, isOld: bool, spec: MemberSpec, m: MemberInfo, id: Id, stored: MemberSpec)
    requires StandsFor(v, byKey, isOld, spec, m) && m.id != id
    ensures StandsFor(v[id := stored], byKey, isOld, spec, m)
  {
    hide Matches, KeyOf;
  }

  lemma KeepMember(v0: map<Id, MemberSpec>, v: map<Id, MemberSpec>, byKey: map<string, MemberInfo>, desired: seq<MemberSpec>,
                   out: seq<MemberInfo>)
    requires IndexesView(v0, byKey) && Midway(v0, v, byKey, desired, out) && |out| < |desired| && DistinctSpecs(desired)
    requires KeyOf(desired[|out|]) in byKey && !NeedsUpdate(byKey[KeyOf(desired[|out|])].spec, desired[|out|])
    ensures Midway(v0, v, byKey, desired, out + [byKey[KeyOf(desired[|out|])]])
  {
    hide NeedsUpdate, Stored, KeyOf, DistinctSpecs, Matches;
    var kept := byKey[KeyOf(desired[|out|])];
    NotAmongFirst(desired, |out|);
    MatchingNeedsNothing(kept.spec, desired[|out|]);
    assert v[kept.id] == kept.spec;
    SetMember(v0, v, byKey, desired, out, kept.id, kept.spec);
    assert v[kept.id := kept.spec] == v;
  }

  /** What is stored was so before, or is one of the desired members. */
  ghost predicate Sourced(v0: map<Id, MemberSpec>, v: map<Id, MemberSpec>, desired: seq<MemberSpec>) {
    forall id | id in v :: (id in v0 && v[id] == v0[id]) || IsOneOf(v[id], desired)
  }

  predicate IsOneOf(stored: MemberSpec, desired: seq<MemberSpec>) {
    exists i :: 0 <= i < |desired| && stored == Stored(desired[i])
  }

  lemma SourcesGrow(v0: map<Id, MemberSpec>, v: map<Id, MemberSpec>, desired: seq<MemberSpec>, i: nat, id: Id)
    requires Sourced(v0, v, desired) && i < |desired|
    ensures Sourced(v0, v[id := Stored(desired[i])], desired)
  {
    hide Stored;
    assert IsOneOf(Stored(desired[i]), desired);
  }

  lemma OwnSource(v: map<Id, MemberSpec>, desired: seq<MemberSpec>)
    ensures Sourced(v, v, desired)
  {
  }

  /** The pool holds the desired members, told by `out`, one each, and no others: of the weight and type asked for, and with
      the same key. */
  ghost predicate Holds(k: Kids, pool: Id, desired: seq<MemberSpec>, out: seq<MemberInfo>) {
    && |out| == |desired|
    && (forall i, j | 0 <= i < |out| && 0 <= j < |out| && out[i].id == out[j].id :: i == j)
    && (forall id | id in k.members && k.members[id].pool == pool :: exists j :: 0 <= j < |out| && out[j].id == id)
    && forall j | 0 <= j < |out| ::
         && out[j].id in k.members && k.members[out[j].id] == MemberRec(pool, out[j].spec)
         && out[j].spec.weight == desired[j].weight && TypedAs(out[j].spec.resourceType, desired[j].resourceType)
         && KeyOf(out[j].spec) == KeyOf(desired[j])
         && desired[j].resourceID != "" && desired[j].backendPortID != 0 && desired[j].resourceIP != "" && desired[j].port != 0
  }

  predicate SameBackend(s: MemberSpec, t: MemberSpec) {
    s.resourceID == t.resourceID && s.resourceIP == t.resourceIP && s.backendPortID == t.backendPortID && s.port == t.port
  }

  predicate Barless(s: MemberSpec) {
    '|' !in s.resourceID && '|' !in s.resourceIP
  }

  lemma ConvergedHolds(k: Kids, pool: Id, desired: seq<MemberSpec>, out: seq<MemberInfo>)
    requires Converged(View(k, pool), desired, out) && DistinctSpecs(desired)
    ensures Holds(k, pool, desired, out)
  {
    hide KeyOf;
    forall i, j | 0 <= i < |out| && 0 <= j < |out| && out[i].id == out[j].id ensures i == j {
      assert KeyOf(desired[i]) == KeyOf(desired[j]);
    }
    forall id | id in k.members && k.members[id].pool == pool ensures exists j :: 0 <= j < |out| && out[j].id == id {
      assert id in View(k, pool).Keys;
    }
  }

  /** With a bar in an id two backends can share a key, and the one counts as the other. */
  lemma ABarConfusesMembers(port: int, weight: int)
    ensures var stored := MemberSpec("a|b", "compute", "c", port, port, weight);
            var desired := MemberSpec("a", "compute", "b|c", port, port, weight);
            Matches(stored, desired) && !SameBackend(stored, desired)
  {
    hide Itoa;
    var rest := "|" + (Itoa(port) + "|" + Itoa(port));
    assert "a|b" + "|" + ("c" + rest) == "a" + "|" + ("b|c" + rest);
  }

  /** Where ids and addresses contain no bar, members are the desired ones field for field. */
  lemma SourcedIsSame(v0: map<Id, MemberSpec>, v: map<Id, MemberSpec>, desired: seq<MemberSpec>, id: Id, spec: MemberSpec)
    requires Sourced(v0, v, desired) && id in v && KeyOf(v[id]) == KeyOf(spec) && Barless(spec)
    requires (forall x | x in v0 :: Barless(v0[x])) && forall i | 0 <= i < |desired| :: Barless(desired[i])
    ensures SameBackend(v[id], spec)
  {
    hide KeyOf;
    KeyReadsBack(v[id], spec);
  }

  lemma FewerSources(v0: map<Id, MemberSpec>, v: map<Id, MemberSpec>, desired: seq<MemberSpec>, gone: set<Id>)
    requires Sourced(v0, v, desired)
    ensures Sourced(v0, v - gone, desired)
  {
    hide IsOneOf;
  }

  lemma KeysGrow(desired: seq<MemberSpec>, i: nat)
    requires i < |desired|
    ensures Keys(desired[..i + 1]) == Keys(desired[..i]) + {KeyOf(desired[i])}
  {
    hide KeyOf;
    var more := desired[..i + 1];
    assert more[i] == desired[i] && forall j | 0 <= j < i :: more[j] == desired[..i][j];
    forall key | key in Keys(desired[..i]) ensures key in Keys(more) {
      var j :| 0 <= j < i && KeyOf(desired[..i][j]) == key;
      assert KeyOf(more[j]) == key;
    }
  }

  lemma StoredMatches(spec: MemberSpec)
    ensures Matches(Stored(spec), spec)
  {
  }

  lemma NotAmongFirst(desired: seq<MemberSpec>, i: nat)
    requires i < |desired| && DistinctSpecs(desired)
    ensures KeyOf(desired[i]) !in Keys(desired[..i])
  {
    hide KeyOf;
  }

  lemma StoreMember(k0: Kids, k: Kids, m: Kids, pool: Id, id: Id, spec: MemberSpec)
    requires WellFormedKids(k0) && WellFormedKids(k) && OnlyMembers(k0, k, pool) && pool in k.pools
    requires id in MembersOf(k, pool) || IsNew(k, id)
    requires m == k.(members := k.members[id := MemberRec(pool, spec)], issued := k.issued + {id})
    ensures WellFormedKids(m) && OnlyMembers(k0, m, pool) && View(m, pool) == View(k, pool)[id := spec]
  {
    hide WellFormedKids, OnlyMembers;
    StoreKeepsShape(k, m, pool, id, spec);
    OnlyMembersChains(k0, k, m, pool);
    assert MembersOf(m, pool) == MembersOf(k, pool) + {id};
  }

  lemma StoreKeepsShape(k: Kids, m: Kids, pool: Id, id: Id, spec: MemberSpec)
    requires WellFormedKids(k) && pool in k.pools && (id in MembersOf(k, pool) || IsNew(k, id))
    requires m == k.(members := k.members[id := MemberRec(pool, spec)], issued := k.issued + {id})
    ensures WellFormedKids(m) && OnlyMembers(k, m, pool)
  {
  }

  lemma OnlyMembersChains(a: Kids, b: Kids, c: Kids, pool: Id)
    requires WellFormedKids(a) && WellFormedKids(b) && OnlyMembers(a, b, pool) && OnlyMembers(b, c, pool)
    ensures OnlyMembers(a, c, pool)
  {
  }

  lemma RemoveMember(k0: Kids, k: Kids, m: Kids, pool: Id, id: Id)
    requires WellFormedKids(k) && OnlyMembers(k0, k, pool) && id in MembersOf(k, pool)
    requires m == k.(members := k.members - {id})
    ensures WellFormedKids(m) && OnlyMembers(k0, m, pool) && View(m, pool) == View(k, pool) - {id}
  {
  }

  lemma NothingStored(k: Kids, pool: Id)
    requires WellFormedKids(k)
    ensures OnlyMembers(k, k, pool)
  {
  }

  lemma PlanGrows(pool: Id, byKey: map<string, MemberInfo>, desired: seq<MemberSpec>, i: nat)
    requires i < |desired|
    ensures Plan(pool, byKey, desired[..i + 1]) == Plan(pool, byKey, desired[..i]) + Step(pool, byKey, desired[i])
  {
    hide KeyOf, Step;
    assert desired[..i + 1][..i] == desired[..i];
  }

  lemma LoopStarts(v0: map<Id, MemberSpec>, pool: Id, byKey: map<string, MemberInfo>, desired: seq<MemberSpec>)
    ensures Midway(v0, v0, byKey, desired, []) && Plan(pool, byKey, desired[..0]) == []
  {
    assert desired[..0] == [];
  }

  lemma MidwayKeepsAll(v0: map<Id, MemberSpec>, v: map<Id, MemberSpec>, byKey: map<string, MemberInfo>, desired: seq<MemberSpec>,
                       out: seq<MemberInfo>)
    requires Midway(v0, v, byKey, desired, out)
    ensures v0.Keys <= v.Keys
  {
  }

  lemma StepSays(pool: Id, byKey: map<string, MemberInfo>, spec: MemberSpec)
    ensures Step(pool, byKey, spec) == [] <==> KeyOf(spec) in byKey && !NeedsUpdate(byKey[KeyOf(spec)].spec, spec)
    ensures KeyOf(spec) in byKey && NeedsUpdate(byKey[KeyOf(spec)].spec, spec) ==>
              Step(pool, byKey, spec) == [UpdateMember(pool, byKey[KeyOf(spec)].id, spec)]
    ensures KeyOf(spec) !in byKey ==> Step(pool, byKey, spec) == [CreateMember(pool, spec)]
  {
    hide KeyOf, NeedsUpdate;
  }

  lemma InView(k: Kids, pool: Id, id: Id)
    requires WellFormedKids(k) && id in View(k, pool)
    ensures id in MembersOf(k, pool) && k.issued + {id} == k.issued
  {
  }

  lemma NotInView(k: Kids, pool: Id, id: Id)
    requires WellFormedKids(k) && IsNew(k, id)
    ensures id !in View(k, pool)
  {
  }

  lemma SameMember(k: Kids, pool: Id, id: Id, spec: MemberSpec)
    requires id in k.members && k.members[id] == MemberRec(pool, spec)
    ensures View(k, pool)[id := spec] == View(k, pool)
  {
  }

  /** An empty plan plans nothing for any member. */
  lemma {:induction false} EmptyPlan(pool: Id, byKey: map<string, MemberInfo>, desired: seq<MemberSpec>, i: nat)
    requires i < |desired|
    ensures Plan(pool, byKey, desired) == [] ==> Step(pool, byKey, desired[i]) == []
  {
    hide KeyOf, Step;
    if i < |desired| - 1 {
      EmptyPlan(pool, byKey, desired[..|desired| - 1], i);
    }
  }

  ghost function NewMember(k: Kids, m: Kids, pool: Id, spec: MemberSpec): Id
    requires exists id :: IsNew(k, id) && m == k.(members := k.members[id := MemberRec(pool, spec)], issued := k.issued + {id})
  {
    var id :| IsNew(k, id) && m == k.(members := k.members[id := MemberRec(pool, spec)], issued := k.issued + {id});
    id
  }

  /** The first loop. */
  method Converge(c: ChildClient, vs: Id, pool: Id, byKey: map<string, MemberInfo>, desired: seq<MemberSpec>)
    returns (out: seq<MemberInfo>, changed: bool, err: Option<Problem>)
    requires c.Valid() && PoolAt(c.kids, vs, pool) && IndexesView(View(c.kids, pool), byKey) && DistinctSpecs(desired)
    modifies c
    ensures c.Valid() && c.faults <= old(c.faults) && OnlyMembers(old(c.kids), c.kids, pool)
    ensures View(old(c.kids), pool).Keys <= View(c.kids, pool).Keys
    ensures err.None? ==>
              && |out| == |desired| && Midway(View(old(c.kids), pool), View(c.kids, pool), byKey, desired, out)
              && c.calls == old(c.calls) + Plan(pool, byKey, desired) && (changed <==> Plan(pool, byKey, desired) != [])
              && (!changed ==> c.kids == old(c.kids)) && AllComplete(desired)
              && Sourced(View(old(c.kids), pool), View(c.kids, pool), desired)
    ensures Plan(pool, byKey, desired) == [] ==> c.kids == old(c.kids) && c.calls == old(c.calls) && c.faults == old(c.faults)
    ensures err.Some? ==> c.faults < old(c.faults) || !AllComplete(desired)
  {
    hide KeyOf, Step, Plan, NeedsUpdate, Midway, IndexesView, View, Stored, OnlyMembers, WellFormedKids, DistinctSpecs, Complete, Sourced;
    ghost var k0, faults0 := c.kids, c.faults;
    ghost var v0 := View(k0, pool);
    ghost var calls0 := c.calls;
    out, changed, err := [], false, None;
    NothingStored(k0, pool);
    LoopStarts(v0, pool, byKey, desired);
    assert Sourced(v0, v0, desired) by { OwnSource(v0, desired); }
    for i := 0 to |desired|
      invariant c.Valid() && c.faults <= old(c.faults) && PoolAt(c.kids, vs, pool) && OnlyMembers(k0, c.kids, pool)
      invariant |out| == i && Midway(v0, View(c.kids, pool), byKey, desired, out)
      invariant c.calls == calls0 + Plan(pool, byKey, desired[..i]) && (changed <==> Plan(pool, byKey, desired[..i]) != [])
      invariant !changed ==> c.kids == k0
      invariant forall j | 0 <= j < i :: Complete(desired[j])
      invariant Sourced(v0, View(c.kids, pool), desired)
      invariant Plan(pool, byKey, desired) == [] ==> !changed && c.calls == calls0 && c.faults == faults0
    {
      var spec := desired[i];
      ghost var k := c.kids;
      ghost var v := View(k, pool);
      if !Complete(spec) {
        MidwayKeepsAll(v0, v, byKey, desired, out);
        return out, changed, Some(Refused);
      }
      PlanGrows(pool, byKey, desired, i);
      EmptyPlan(pool, byKey, desired, i);
      StepSays(pool, byKey, spec);
      MidwayKeepsAll(v0, v, byKey, desired, out);
      var key := KeyOf(spec);
      if key in byKey && !NeedsUpdate(byKey[key].spec, spec) {
        KeepMember(v0, v, byKey, desired, out);
        out := out + [byKey[key]];
        continue;
      }
      StoredMatches(spec);
      var r;
      if key in byKey {
        IndexedIsOld(v0, byKey, key);
        InView(k, pool, byKey[key].id);
        r := c.UpdatePoolMember(vs, pool, byKey[key].id, spec);
        if c.kids != k {
          StoreMember(k0, k, c.kids, pool, byKey[key].id, Stored(spec));
        } else if r.Ok? {
          SameMember(k, pool, byKey[key].id, Stored(spec));
        }
      } else {
        r := c.CreatePoolMember(vs, pool, spec);
        if c.kids != k {
          ghost var id := if r.Ok? then r.value.id else NewMember(k, c.kids, pool, Stored(spec));
          NotInView(k, pool, id);
          StoreMember(k0, k, c.kids, pool, id, Stored(spec));
        }
      }
      if r.Err? {
        return out, changed, Some(CallFailed(r.error));
      }
      SetMember(v0, v, byKey, desired, out, r.value.id, Stored(spec));
      SourcesGrow(v0, v, desired, i, r.value.id);
      out := out + [r.value];
      changed := true;
    }
    MidwayKeepsAll(v0, View(c.kids, pool), byKey, desired, out);
    assert desired[..|desired|] == desired;
  }

  // ----- The second loop: delete -----

  lemma DeletionsGrow(pool: Id, ids: seq<Id>, id: Id)
    requires NoRepeats(ids) && id !in SetOf(ids)
    ensures NoRepeats(ids + [id]) && Deletions(pool, ids + [id]) == Deletions(pool, ids) + [DeleteMember(pool, id)]
    ensures SetOf(ids + [id]) == SetOf(ids) + {id}
  {
  }

  /** One deletion. A call that fails may have taken effect. */
  method Remove(c: ChildClient, vs: Id, pool: Id, id: Id, ghost k0: Kids) returns (r: Result<(), Failure>)
    requires c.Valid() && PoolAt(c.kids, vs, pool) && id in View(c.kids, pool)
    requires WellFormedKids(k0) && OnlyMembers(k0, c.kids, pool)
    modifies c
    ensures c.Valid() && PoolAt(c.kids, vs, pool) && OnlyMembers(k0, c.kids, pool) && c.faults <= old(c.faults)
    ensures c.calls == old(c.calls) + [DeleteMember(pool, id)]
    ensures View(c.kids, pool) == View(old(c.kids), pool) - {id} || View(c.kids, pool) == View(old(c.kids), pool)
    ensures r.Ok? ==> View(c.kids, pool) == View(old(c.kids), pool) - {id}
    ensures r.Err? ==> c.faults < old(c.faults)
  {
    hide View, OnlyMembers, WellFormedKids;
    ghost var k := c.kids;
    InView(k, pool, id);
    r := c.DeletePoolMember(vs, pool, id);
    if c.kids != k {
      RemoveMember(k0, k, c.kids, pool, id);
    }
  }

  /** Deletes the indexed members whose key is not wanted; when a call fails, some of them. */
  method Prune(c: ChildClient, vs: Id, pool: Id, byKey: map<string, MemberInfo>, wanted: set<string>)
    returns (deleted: bool, err: Option<Problem>, ghost gone: seq<Id>, ghost keys: set<string>)
    requires c.Valid() && PoolAt(c.kids, vs, pool) && Injective(byKey)
    requires Indexed(byKey, byKey.Keys) <= View(c.kids, pool).Keys
    modifies c
    ensures c.Valid() && c.faults <= old(c.faults) && OnlyMembers(old(c.kids), c.kids, pool)
    ensures c.calls == old(c.calls) + Deletions(pool, gone) && NoRepeats(gone) && SetOf(gone) == Indexed(byKey, keys)
    ensures keys <= byKey.Keys - wanted
    ensures View(old(c.kids), pool) - SetOf(gone) == View(c.kids, pool) - SetOf(gone)
    ensures err.None? ==>
              && keys == byKey.Keys - wanted && (deleted <==> gone != []) && (!deleted ==> c.kids == old(c.kids))
              && View(c.kids, pool) == View(old(c.kids), pool) - SetOf(gone)
    ensures err.Some? ==> c.faults < old(c.faults)
    ensures byKey.Keys <= wanted ==> err.None? && !deleted && c.kids == old(c.kids) && c.calls == old(c.calls)
  {
    hide View, OnlyMembers, WellFormedKids, Indexed, Injective, Deletions, NoRepeats, SetOf;
    ghost var k0, calls0 := c.kids, c.calls;
    ghost var v0 := View(k0, pool);
    NothingStored(k0, pool);
    deleted, err, gone, keys := false, None, [], {};
    PruneStarts(pool, byKey, v0);
    var left := byKey.Keys;
    while left != {}
      invariant left <= byKey.Keys && c.Valid() && c.faults <= old(c.faults) && PoolAt(c.kids, vs, pool)
      invariant OnlyMembers(k0, c.kids, pool) && View(c.kids, pool) == v0 - SetOf(gone)
      invariant c.calls == calls0 + Deletions(pool, gone) && NoRepeats(gone) && (deleted <==> gone != [])
      invariant !deleted ==> c.kids == k0
      invariant byKey.Keys <= wanted ==> !deleted && c.calls == calls0
      invariant SetOf(gone) == Indexed(byKey, keys) && keys == byKey.Keys - left - wanted
      decreases left
    {
      var key :| key in left;
      ghost var done := byKey.Keys - left;
      left := left - {key};
      assert byKey.Keys - left == done + {key};
      if key in wanted {
        assert (done + {key}) - wanted == done - wanted;
        continue;
      }
      assert (done + {key}) - wanted == (done - wanted) + {key};
      var id := byKey[key].id;
      IndexedGrows(byKey, keys, key);
      IndexedIsIn(byKey, key);
      DeletionsGrow(pool, gone, id);
      RemovalAddsUp(v0, SetOf(gone), id);
      var r := Remove(c, vs, pool, id, k0);
      gone, keys := gone + [id], keys + {key};
      if r.Err? {
        return deleted, Some(CallFailed(r.error)), gone, keys;
      }
      deleted := true;
    }
  }

  lemma RemovalAddsUp(v: map<Id, MemberSpec>, ids: set<Id>, id: Id)
    ensures v - ids - {id} == v - (ids + {id}) && (v - ids) - (ids + {id}) == v - (ids + {id})
    ensures v - (ids + {id}) - (ids + {id}) == v - (ids + {id})
  {
  }

  lemma PruneStarts(pool: Id, byKey: map<string, MemberInfo>, v: map<Id, MemberSpec>)
    ensures Indexed(byKey, {}) == {} == SetOf([]) && Deletions(pool, []) == [] && NoRepeats([]) && v - {} == v
  {
  }

  // ----- BackendMemberManager.Ensure -----

  predicate AllComplete(desired: seq<MemberSpec>) {
    forall i | 0 <= i < |desired| :: Complete(desired[i])
  }

  /** The pool holds exactly one member per desired one, told by `out`, and no other. */
  ghost predicate Converged(v: map<Id, MemberSpec>, desired: seq<MemberSpec>, out: seq<MemberInfo>) {
    && |out| == |desired| && v.Keys == IDs(out) && AllComplete(desired)
    && (forall j | 0 <= j < |out| :: out[j].id in v && v[out[j].id] == out[j].spec && Matches(out[j].spec, desired[j]))
  }

  /** Nothing is to be done. */
  ghost predicate Rests(v: map<Id, MemberSpec>, desired: seq<MemberSpec>) {
    exists out: seq<MemberInfo> :: Converged(v, desired, out)
  }

  lemma RestingIsIndexed(k: Kids, pool: Id, byKey: map<string, MemberInfo>, desired: seq<MemberSpec>)
    requires Rests(View(k, pool), desired) && Indexes(k, pool, byKey)
    ensures Plan(pool, byKey, desired) == [] && byKey.Keys <= Keys(desired) && AllComplete(desired)
  {
    hide KeyOf, NeedsUpdate, Plan, AllComplete;
    var out: seq<MemberInfo> :| Converged(View(k, pool), desired, out);
    NothingPlanned(k, pool, byKey, desired, out, |desired|);
    assert desired[..|desired|] == desired;
    forall key | key in byKey ensures key in Keys(desired) {
      assert byKey[key].id in View(k, pool);
      var j :| 0 <= j < |out| && out[j].id == byKey[key].id;
      assert KeyOf(desired[j]) == key;
    }
  }

  /** What is told of a converged pool is determined by the pool. */
  lemma ConvergedIsUnique(v: map<Id, MemberSpec>, desired: seq<MemberSpec>, a: seq<MemberInfo>, b: seq<MemberInfo>)
    requires Converged(v, desired, a) && Converged(v, desired, b) && DistinctSpecs(desired)
    ensures a == b
  {
    hide KeyOf, NeedsUpdate;
    forall j | 0 <= j < |desired| ensures a[j] == b[j] {
      assert b[j].id in IDs(a);
      var i :| 0 <= i < |a| && a[i].id == b[j].id;
      assert KeyOf(desired[i]) == KeyOf(desired[j]);
    }
  }

  /** Exactly the needed calls: creations and updates in the order of the desired members, then the deletions. */
  ghost predicate Minimal(k: Kids, pool: Id, desired: seq<MemberSpec>, observed: seq<MemberInfo>, calls: seq<KidCall>) {
    exists gone ::
      && calls == Plan(pool, ByKey(observed), desired) + Deletions(pool, gone)
      && NoRepeats(gone) && SetOf(gone) == Obsolete(k, pool, desired)
  }

  lemma IndexIsInjective(v: map<Id, MemberSpec>, byKey: map<string, MemberInfo>)
    requires IndexesView(v, byKey)
    ensures Injective(byKey) && Indexed(byKey, byKey.Keys) == v.Keys
  {
    hide KeyOf;
    forall id | id in v ensures id in Indexed(byKey, byKey.Keys) {
      assert KeyOf(v[id]) in byKey.Keys;
    }
  }

  lemma StaleIsObsolete(k: Kids, pool: Id, byKey: map<string, MemberInfo>, desired: seq<MemberSpec>)
    requires IndexesView(View(k, pool), byKey)
    ensures Indexed(byKey, byKey.Keys - Keys(desired)) == Obsolete(k, pool, desired)
  {
    hide KeyOf, Keys;
    forall id | id in Obsolete(k, pool, desired) ensures id in Indexed(byKey, byKey.Keys - Keys(desired)) {
      assert KeyOf(View(k, pool)[id]) in byKey.Keys - Keys(desired);
    }
  }

  /** Once everything desired is there, what is left over is exactly what is stale. */
  lemma RestIsStale(v0: map<Id, MemberSpec>, v: map<Id, MemberSpec>, byKey: map<string, MemberInfo>, desired: seq<MemberSpec>,
                    out: seq<MemberInfo>)
    requires IndexesView(v0, byKey) && Midway(v0, v, byKey, desired, out) && |out| == |desired|
    ensures var stale := Indexed(byKey, byKey.Keys - Keys(desired));
            && (v - stale).Keys == IDs(out)
            && forall j | 0 <= j < |out| :: out[j].id !in stale
  {
    hide KeyOf, Matches;
    var stale := Indexed(byKey, byKey.Keys - Keys(desired));
    assert desired[..|desired|] == desired;
    forall j | 0 <= j < |out| ensures out[j].id !in stale {
      assert StandsFor(v, byKey, out[j].id in v0, desired[j], out[j]);
      assert KeyOf(desired[j]) in Keys(desired);
    }
    forall id | id in v0 && id !in stale ensures id in IDs(out) {
      var key := KeyOf(v0[id]);
      assert key in byKey && key in Keys(desired);
      var j :| 0 <= j < |desired| && KeyOf(desired[j]) == key;
      assert StandsFor(v, byKey, out[j].id in v0, desired[j], out[j]);
    }
  }

  lemma RestConverges(v0: map<Id, MemberSpec>, v: map<Id, MemberSpec>, w: map<Id, MemberSpec>, byKey: map<string, MemberInfo>,
                      desired: seq<MemberSpec>, out: seq<MemberInfo>)
    requires IndexesView(v0, byKey) && Midway(v0, v, byKey, desired, out) && |out| == |desired|
    requires w == v - Indexed(byKey, byKey.Keys - Keys(desired)) && AllComplete(desired)
    ensures Converged(w, desired, out)
  {
    hide AllComplete, Matches, Indexed, Keys, IndexesView;
    RestIsStale(v0, v, byKey, desired, out);
    forall j | 0 <= j < |out| ensures out[j].id in w && w[out[j].id] == out[j].spec && Matches(out[j].spec, desired[j]) {
      assert StandsFor(v, byKey, out[j].id in v0, desired[j], out[j]);
    }
  }

  /** What is desired is never deleted, whatever happens. */
  ghost predicate DesiredSpared(v0: map<Id, MemberSpec>, v: map<Id, MemberSpec>, desired: seq<MemberSpec>) {
    forall id | id in v0 && KeyOf(v0[id]) in Keys(desired) :: id in v
  }

  lemma PruneSpares(v0: map<Id, MemberSpec>, v1: map<Id, MemberSpec>, v2: map<Id, MemberSpec>, byKey: map<string, MemberInfo>,
                    keys: set<string>, gone: set<Id>, desired: seq<MemberSpec>)
    requires IndexesView(v0, byKey) && v0.Keys <= v1.Keys && keys <= byKey.Keys - Keys(desired)
    requires gone == Indexed(byKey, keys) && v1 - gone == v2 - gone
    ensures DesiredSpared(v0, v2, desired)
  {
    hide KeyOf, Keys;
    forall id | id in v0 && KeyOf(v0[id]) in Keys(desired) ensures id in v2 {
      assert id in v1 - gone;
    }
  }

  method Ensure(c: ChildClient, lb: Id, vs: Id, pool: Id, observed: seq<MemberInfo>, desired: seq<MemberSpec>)
    returns (out: seq<MemberInfo>, changed: bool, err: Option<Problem>)
    requires c.Valid() && PoolAt(c.kids, vs, pool) && ListsMembers(c.kids, pool, observed)
    requires DistinctIn(c.kids, pool) && DistinctSpecs(desired)
    modifies c
    ensures c.Valid() && c.faults <= old(c.faults) && OnlyMembers(old(c.kids), c.kids, pool)
    ensures DesiredSpared(View(old(c.kids), pool), View(c.kids, pool), desired)
    ensures err.None? ==> Holds(c.kids, pool, desired, out)
    ensures err.None? && (forall id | id in MembersOf(old(c.kids), pool) :: Barless(old(c.kids).members[id].spec))
            && (forall i | 0 <= i < |desired| :: Barless(desired[i])) ==>
              forall j | 0 <= j < |out| :: SameBackend(out[j].spec, desired[j])
    ensures err.None? ==>
              && Converged(View(c.kids, pool), desired, out)
              && |old(c.calls)| <= |c.calls| && c.calls[..|old(c.calls)|] == old(c.calls)
              && Minimal(old(c.kids), pool, desired, observed, c.calls[|old(c.calls)|..])
              && (changed <==> c.calls != old(c.calls)) && (!changed ==> c.kids == old(c.kids))
    ensures Rests(View(old(c.kids), pool), desired) ==>
              c.kids == old(c.kids) && c.calls == old(c.calls) && (err.Some? ==> lb == NO_ID || vs == NO_ID || pool == NO_ID)
    ensures err.Some? ==> c.faults < old(c.faults) || lb == NO_ID || vs == NO_ID || pool == NO_ID || Lacking(desired)
  {
    hide Holds, Lacking, Sourced, Barless, SameBackend, AllComplete, Rests, View, OnlyMembers, WellFormedKids, KeyOf, Midway, Converged,
      ByKey, Plan, Deletions, NoRepeats, SetOf, Obsolete, Indexed, Indexes, IndexesView, Injective, Keys, ListsMembers, DistinctIn,
      DistinctSpecs, Complete, DesiredSpared;
    ghost var k0, calls0 := c.kids, c.calls;
    ghost var v0 := View(k0, pool);
    NothingStored(k0, pool);
    AllSpared(v0, desired);
    IncompleteLack(desired);
    if lb == NO_ID || vs == NO_ID || pool == NO_ID {
      return [], false, Some(Refused);
    }
    var byKey := BuildIndex(observed);
    IndexIsExact(k0, pool, observed);
    IndexOfView(k0, pool, byKey);
    IndexIsInjective(v0, byKey);
    if Rests(v0, desired) {
      RestingIsIndexed(k0, pool, byKey, desired);
    }
    out, changed, err := Converge(c, vs, pool, byKey, desired);
    ghost var k1 := c.kids;
    ghost var v1 := View(k1, pool);
    LargerSpares(v0, v1, desired);
    if err.Some? {
      return;
    }
    var wanted := Keys(desired);
    OnlyMembersKeepsPools(k0, k1, pool);
    var deleted, failure;
    ghost var gone, keys;
    deleted, failure, gone, keys := Prune(c, vs, pool, byKey, wanted);
    OnlyMembersChains(k0, k1, c.kids, pool);
    PruneSpares(v0, v1, View(c.kids, pool), byKey, keys, SetOf(gone), desired);
    changed := changed || deleted;
    err := failure;
    if err.Some? {
      return;
    }
    RestConverges(v0, v1, View(c.kids, pool), byKey, desired, out);
    ConvergedHolds(c.kids, pool, desired, out);
    FewerSources(v0, v1, desired, SetOf(gone));
    BarlessAreSame(k0, c.kids, pool, desired, out);
    StaleIsObsolete(k0, pool, byKey, desired);
    CallsAddUp(calls0, Plan(pool, byKey, desired), Deletions(pool, gone));
    NoDeletions(pool, gone);
    assert c.calls[|calls0|..] == Plan(pool, ByKey(observed), desired) + Deletions(pool, gone);
  }

  /** A desired member without id, port or address. */
  predicate Lacking(desired: seq<MemberSpec>) {
    exists i :: 0 <= i < |desired|
      && (desired[i].resourceID == "" || desired[i].backendPortID == 0 || desired[i].resourceIP == "" || desired[i].port == 0)
  }

  lemma IncompleteLack(desired: seq<MemberSpec>)
    ensures AllComplete(desired) <==> !Lacking(desired)
  {
  }

  lemma BarlessAreSame(k0: Kids, k: Kids, pool: Id, desired: seq<MemberSpec>, out: seq<MemberInfo>)
    requires Sourced(View(k0, pool), View(k, pool), desired) && Holds(k, pool, desired, out)
    ensures (forall id | id in MembersOf(k0, pool) :: Barless(k0.members[id].spec)) && (forall i | 0 <= i < |desired| :: Barless(desired[i])) ==>
              forall j | 0 <= j < |out| :: SameBackend(out[j].spec, desired[j])
  {
    hide KeyOf, Sourced, Barless, SameBackend;
    if (forall id | id in MembersOf(k0, pool) :: Barless(k0.members[id].spec)) && forall i | 0 <= i < |desired| :: Barless(desired[i]) {
      forall j | 0 <= j < |out| ensures SameBackend(out[j].spec, desired[j]) {
        assert out[j].id in View(k, pool) && View(k, pool)[out[j].id] == out[j].spec;
        SourcedIsSame(View(k0, pool), View(k, pool), desired, out[j].id, desired[j]);
      }
    }
  }

  lemma AllSpared(v0: map<Id, MemberSpec>, desired: seq<MemberSpec>)
    ensures DesiredSpared(v0, v0, desired)
  {
  }

  lemma LargerSpares(v0: map<Id, MemberSpec>, v: map<Id, MemberSpec>, desired: seq<MemberSpec>)
    requires v0.Keys <= v.Keys
    ensures DesiredSpared(v0, v, desired)
  {
  }

  lemma OnlyMembersKeepsPools(k: Kids, m: Kids, pool: Id)
    requires OnlyMembers(k, m, pool)
    ensures m.pools == k.pools && m.monitors == k.monitors && m.rules == k.rules && m.defaults == k.defaults
  {
  }

  lemma CallsAddUp(a: seq<KidCall>, b: seq<KidCall>, c: seq<KidCall>)
    ensures (a + b + c)[..|a|] == a && (a + b + c)[|a|..] == b + c
  {
  }

  lemma NoDeletions(pool: Id, gone: seq<Id>)
    ensures Deletions(pool, gone) == [] <==> gone == []
  {
  }

  // ----- What the planned calls are -----

  /** A missing member is created, a kept one whose type or weight differs is updated. */
  predicate Needed(k: Kids, pool: Id, desired: seq<MemberSpec>, call: KidCall) {
    match call
    case CreateMember(p, spec) =>
      p == pool && spec in desired && forall id | id in MembersOf(k, pool) :: KeyOf(k.members[id].spec) != KeyOf(spec)
    case UpdateMember(p, id, spec) =>
      && p == pool && spec in desired && id in MembersOf(k, pool)
      && KeyOf(k.members[id].spec) == KeyOf(spec)
      && (k.members[id].spec.weight != spec.weight || !TypedAs(k.members[id].spec.resourceType, spec.resourceType))
    case _ => false
  }

  lemma StepIsNeeded(k: Kids, pool: Id, byKey: map<string, MemberInfo>, desired: seq<MemberSpec>, i: nat, call: KidCall)
    requires Indexes(k, pool, byKey) && i < |desired|
    ensures call in Step(pool, byKey, desired[i]) <==>
              Needed(k, pool, desired, call) && (call.CreateMember? || call.UpdateMember?) && call.spec == desired[i]
  {
    hide KeyOf, NeedsUpdate;
    if KeyOf(desired[i]) in byKey {
      MatchingNeedsNothing(byKey[KeyOf(desired[i])].spec, desired[i]);
    }
  }

  /** The plan holds every needed call exactly once and no other. */
  lemma {:induction false} PlanIsExact(k: Kids, pool: Id, byKey: map<string, MemberInfo>, desired: seq<MemberSpec>, n: nat)
    requires Indexes(k, pool, byKey) && n <= |desired| && DistinctSpecs(desired)
    ensures forall call :: call in Plan(pool, byKey, desired[..n]) <==>
              Needed(k, pool, desired, call) && (call.CreateMember? || call.UpdateMember?) && call.spec in desired[..n]
    ensures forall i, j | 0 <= i < |Plan(pool, byKey, desired[..n])| && 0 <= j < |Plan(pool, byKey, desired[..n])|
                          && Plan(pool, byKey, desired[..n])[i] == Plan(pool, byKey, desired[..n])[j] :: i == j
  {
    hide KeyOf, Needed, Indexes, Step;
    if n > 0 {
      PlanIsExact(k, pool, byKey, desired, n - 1);
      PlanGrows(pool, byKey, desired, n - 1);
      StepSays(pool, byKey, desired[n - 1]);
      forall call ensures call in Step(pool, byKey, desired[n - 1]) <==>
          Needed(k, pool, desired, call) && (call.CreateMember? || call.UpdateMember?) && call.spec == desired[n - 1]
      {
        StepIsNeeded(k, pool, byKey, desired, n - 1, call);
      }
      assert desired[..n] == desired[..n - 1] + [desired[n - 1]];
      NotBefore(desired, n - 1);
    }
  }

  lemma NotBefore(desired: seq<MemberSpec>, i: nat)
    requires i < |desired| && DistinctSpecs(desired)
    ensures desired[i] !in desired[..i]
  {
    hide KeyOf;
  }

  // ----- A second run -----

  lemma ConvergedIsDistinct(k: Kids, pool: Id, desired: seq<MemberSpec>, out: seq<MemberInfo>)
    requires Converged(View(k, pool), desired, out) && DistinctSpecs(desired)
    ensures DistinctIn(k, pool)
  {
    hide KeyOf, NeedsUpdate;
    forall a, b | a in MembersOf(k, pool) && b in MembersOf(k, pool) && KeyOf(k.members[a].spec) == KeyOf(k.members[b].spec)
      ensures a == b
    {
      assert a in IDs(out) && b in IDs(out);
      var i :| 0 <= i < |out| && out[i].id == a;
      var j :| 0 <= j < |out| && out[j].id == b;
      assert KeyOf(desired[i]) == KeyOf(desired[j]);
    }
  }

  lemma {:induction false} NothingPlanned(k: Kids, pool: Id, byKey: map<string, MemberInfo>, desired: seq<MemberSpec>,
                                          out: seq<MemberInfo>, n: nat)
    requires Converged(View(k, pool), desired, out) && Indexes(k, pool, byKey) && n <= |desired|
    ensures Plan(pool, byKey, desired[..n]) == []
  {
    hide KeyOf, NeedsUpdate, Step;
    if n > 0 {
      NothingPlanned(k, pool, byKey, desired, out, n - 1);
      PlanGrows(pool, byKey, desired, n - 1);
      StepSays(pool, byKey, desired[n - 1]);
      assert out[n - 1].id in MembersOf(k, pool);
      MatchingNeedsNothing(out[n - 1].spec, desired[n - 1]);
    }
  }

  /** Running Ensure again on what it left, with the same desired members, makes no call. */
  lemma SecondRunIsQuiet(k: Kids, pool: Id, desired: seq<MemberSpec>, out: seq<MemberInfo>, observed: seq<MemberInfo>,
                         calls: seq<KidCall>)
    requires Converged(View(k, pool), desired, out) && DistinctSpecs(desired) && ListsMembers(k, pool, observed)
    requires Minimal(k, pool, desired, observed, calls)
    ensures DistinctIn(k, pool) && calls == []
  {
    hide KeyOf, NeedsUpdate, Step, Plan, ByKey, Indexes, DistinctSpecs, ListsMembers;
    ConvergedIsDistinct(k, pool, desired, out);
    IndexIsExact(k, pool, observed);
    NothingPlanned(k, pool, ByKey(observed), desired, out, |desired|);
    assert desired[..|desired|] == desired;
    NothingObsolete(k, pool, desired, out);
  }

  lemma NothingObsolete(k: Kids, pool: Id, desired: seq<MemberSpec>, out: seq<MemberInfo>)
    requires Converged(View(k, pool), desired, out)
    ensures Obsolete(k, pool, desired) == {}
    ensures forall gone: seq<Id> | gone != [] :: SetOf(gone) != {}
  {
    hide KeyOf, NeedsUpdate;
    forall id | id in MembersOf(k, pool) ensures KeyOf(k.members[id].spec) in Keys(desired) {
      var j :| 0 <= j < |out| && out[j].id == id;
      assert KeyOf(desired[j]) == KeyOf(View(k, pool)[id]);
    }
    forall gone: seq<Id> | gone != [] ensures SetOf(gone) != {} {
      assert gone[0] in SetOf(gone);
    }
  }
}
