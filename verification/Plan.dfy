/** The foundation plan: its waves and resources in order, flattened, and the ordering and uniqueness a plan is refused
    without. */
module Plan {
  import opened Vocabulary

  datatype Identity = Identity(apiVersion: string, kind: string, namespace: string, name: string)

  function KeyOf(i: Identity): string {
    i.apiVersion + "/" + i.kind + "/" + i.namespace + "/" + i.name
  }

  datatype Resource = Resource(identity: Identity, manifest: string, manifestDigest: string)

  datatype Wave = Wave(id: string, resources: seq<Resource>)

  datatype Planned = Planned(waveId: string, waveIndex: nat, resourceIndex: nat, resource: Resource)

  // ---------------------------------------------------------------------------------------------- flattening

  /** The resources of one wave, from one of them on. */
  function OfWave(wave: Wave, waveIndex: nat, count: nat): seq<Planned>
    requires count <= |wave.resources|
  {
    seq(count, i requires 0 <= i < count => Planned(wave.id, waveIndex, i, wave.resources[i]))
  }

  /** The resources of the first `count` waves, in plan order. */
  function Flattened(waves: seq<Wave>, count: nat): seq<Planned>
    requires count <= |waves|
  {
    if count == 0 then []
    else Flattened(waves, count - 1) + OfWave(waves[count - 1], count - 1, |waves[count - 1].resources|)
  }

  method Flatten(waves: seq<Wave>) returns (result: seq<Planned>)
    ensures result == Flattened(waves, |waves|)
  {
    result := [];
    for w := 0 to |waves|
      invariant result == Flattened(waves, w)
    {
      var wave := waves[w];
      for r := 0 to |wave.resources|
        invariant result == Flattened(waves, w) + OfWave(wave, w, r)
      {
        result := result + [Planned(wave.id, w, r, wave.resources[r])];
        assert OfWave(wave, w, r + 1) == OfWave(wave, w, r) + [Planned(wave.id, w, r, wave.resources[r])];
      }
    }
  }

  lemma {:induction false} FirstWaveIn(waves: seq<Wave>, count: nat)
    requires 0 < count <= |waves| && |waves[0].resources| > 0
    ensures |Flattened(waves, count)| > 0
  {
    if count > 1 { FirstWaveIn(waves, count - 1); }
  }

  /** Every flattened resource is the plan's at its position, and the first is the first of the first wave. */
  lemma {:induction false} FlattenedIs(waves: seq<Wave>, count: nat, i: nat)
    requires count <= |waves| && i < |Flattened(waves, count)|
    ensures var p := Flattened(waves, count)[i];
            && p.waveIndex < count && p.resourceIndex < |waves[p.waveIndex].resources|
            && p.waveId == waves[p.waveIndex].id && p.resource == waves[p.waveIndex].resources[p.resourceIndex]
    ensures i == 0 && |waves[0].resources| > 0 ==>
              Flattened(waves, count)[0].waveIndex == 0 && Flattened(waves, count)[0].resourceIndex == 0
  {
    var before := Flattened(waves, count - 1);
    if i < |before| {
      FlattenedIs(waves, count - 1, i);
    } else if count > 1 && |waves[0].resources| > 0 {
      FirstWaveIn(waves, count - 1);
    }
  }

  /** Every resource of the plan is among the flattened ones, at one place. */
  lemma {:induction false} FlattenedHas(waves: seq<Wave>, count: nat, w: nat, r: nat)
    requires w < count <= |waves| && r < |waves[w].resources|
    ensures exists i: nat ::
              i < |Flattened(waves, count)|
                && Flattened(waves, count)[i] == Planned(waves[w].id, w, r, waves[w].resources[r])
  {
    var before := Flattened(waves, count - 1);
    if w < count - 1 {
      FlattenedHas(waves, count - 1, w, r);
      var i: nat :| i < |before| && before[i] == Planned(waves[w].id, w, r, waves[w].resources[r]);
      assert Flattened(waves, count)[i] == before[i];
    } else {
      assert Flattened(waves, count)[|before| + r] == OfWave(waves[w], w, |waves[w].resources|)[r];
    }
  }

  predicate Comes(a: Planned, b: Planned) {
    a.waveIndex < b.waveIndex || (a.waveIndex == b.waveIndex && a.resourceIndex < b.resourceIndex)
  }

  lemma {:induction false} FlattenedInOrder(waves: seq<Wave>, count: nat, i: nat, j: nat)
    requires count <= |waves| && i < j < |Flattened(waves, count)|
    ensures Comes(Flattened(waves, count)[i], Flattened(waves, count)[j])
  {
    var before := Flattened(waves, count - 1);
    if j < |before| {
      FlattenedInOrder(waves, count - 1, i, j);
    } else if i < |before| {
      FlattenedIs(waves, count - 1, i);
    }
  }

  // ---------------------------------------------------------------------------------------------- validity

  /** Text order by characters. */
  predicate Before(a: string, b: string) {
    if b == [] then false
    else if a == [] then true
    else a[0] < b[0] || (a[0] == b[0] && Before(a[1..], b[1..]))
  }

  lemma {:induction false} BeforeIsStrict(a: string)
    ensures !Before(a, a)
  {
    if a != [] { BeforeIsStrict(a[1..]); }
  }

  lemma {:induction false} BeforeIsTransitive(a: string, b: string, c: string)
    requires Before(a, b) && Before(b, c)
    ensures Before(a, c)
  {
    if a != [] && a[0] == b[0] && b[0] == c[0] { BeforeIsTransitive(a[1..], b[1..], c[1..]); }
  }

  /** The content rules of waves and resources, which the ordering does not read. */
  datatype Rules = Rules(waveIdOk: string -> bool, resourceOk: Resource -> bool)

  /** A resource with a name, within the content rules. */
  predicate ResourceValid(rules: Rules, r: Resource) {
    r.identity.name != "" && rules.resourceOk(r)
  }

  datatype PlanRefusal = BaselineMissing | BaselineInvalid | WaveOrder | ResourceOrder | ResourceDuplicated
    | ResourceInvalid

  predicate KeysAscend(resources: seq<Resource>) {
    forall i, j | 0 <= i < j < |resources| :: Before(KeyOf(resources[i].identity), KeyOf(resources[j].identity))
  }

  predicate KeysDistinct(planned: seq<Planned>) {
    forall i, j | 0 <= i < j < |planned| :: KeyOf(planned[i].resource.identity) != KeyOf(planned[j].resource.identity)
  }

  /** A plan in order: a baseline first, waves and the resources of each in strictly ascending order, none empty, every
      rule met, and no identity key twice in the whole plan. */
  ghost predicate PlanInOrder(rules: Rules, waves: seq<Wave>) {
    && waves != [] && waves[0].id == "foundation-baseline"
    && (forall i, j | 0 <= i < j < |waves| :: Before(waves[i].id, waves[j].id))
    && (forall w | 0 <= w < |waves| ::
          && rules.waveIdOk(waves[w].id) && waves[w].resources != [] && KeysAscend(waves[w].resources)
          && forall r | 0 <= r < |waves[w].resources| :: ResourceValid(rules, waves[w].resources[r]))
    && KeysDistinct(Flattened(waves, |waves|))
  }

  function KeysOf(planned: seq<Planned>): set<string> {
    set i | 0 <= i < |planned| :: KeyOf(planned[i].resource.identity)
  }

  /** The resources of one wave: in order, valid, and none of their keys seen before. */
  ghost predicate WaveInOrder(rules: Rules, wave: Wave, count: nat, seen: set<string>)
    requires count <= |wave.resources|
  {
    && (forall i, j | 0 <= i < j < count ::
          Before(KeyOf(wave.resources[i].identity), KeyOf(wave.resources[j].identity)))
    && (forall i | 0 <= i < count ::
          ResourceValid(rules, wave.resources[i]) && KeyOf(wave.resources[i].identity) !in seen)
  }

  function WaveKeys(wave: Wave, count: nat): set<string>
    requires count <= |wave.resources|
  {
    set i | 0 <= i < count :: KeyOf(wave.resources[i].identity)
  }

  lemma KeyNotEmpty(i: Identity)
    ensures Before("", KeyOf(i))
  {
    assert KeyOf(i)[|i.apiVersion|] == '/';
  }

  lemma KeysBefore(wave: Wave, r: nat)
    requires 0 < r < |wave.resources|
    requires Before(KeyOf(wave.resources[r - 1].identity), KeyOf(wave.resources[r].identity))
    requires forall i, j | 0 <= i < j < r ::
               Before(KeyOf(wave.resources[i].identity), KeyOf(wave.resources[j].identity))
    ensures forall i | 0 <= i < r :: Before(KeyOf(wave.resources[i].identity), KeyOf(wave.resources[r].identity))
  {
    hide Before, KeyOf;
    forall i | 0 <= i < r - 1
      ensures Before(KeyOf(wave.resources[i].identity), KeyOf(wave.resources[r].identity))
    {
      BeforeIsTransitive(KeyOf(wave.resources[i].identity), KeyOf(wave.resources[r - 1].identity),
                         KeyOf(wave.resources[r].identity));
    }
  }

  /** The checks of one wave's resources, in order. */
  method CheckWave(rules: Rules, wave: Wave, before: set<string>)
    returns (refusal: Option<PlanRefusal>, seen: set<string>)
    ensures refusal.None? <==> WaveInOrder(rules, wave, |wave.resources|, before)
    ensures refusal.None? ==> seen == before + WaveKeys(wave, |wave.resources|)
  {
    hide Before, KeyOf;
    seen := before;
    var previous := "";
    for r := 0 to |wave.resources|
      invariant WaveInOrder(rules, wave, r, before) && seen == before + WaveKeys(wave, r)
      invariant previous == if r == 0 then "" else KeyOf(wave.resources[r - 1].identity)
    {
      var resource := wave.resources[r];
      var key := KeyOf(resource.identity);
      KeyNotEmpty(resource.identity);
      if !Before(previous, key) { return Some(ResourceOrder), seen; }
      if r > 0 { KeysBefore(wave, r); }
      assert key !in WaveKeys(wave, r) by { BeforeIsStrict(key); }
      if key in seen { return Some(ResourceDuplicated), seen; }
      if !ResourceValid(rules, resource) { return Some(ResourceInvalid), seen; }
      assert WaveKeys(wave, r + 1) == WaveKeys(wave, r) + {key};
      seen := seen + {key};
      previous := key;
    }
    refusal := None;
  }

  /** The first `count` waves are in order and their keys distinct. */
  ghost predicate WavesInOrder(rules: Rules, waves: seq<Wave>, count: nat)
    requires count <= |waves|
  {
    && (forall i, j | 0 <= i < j < count :: Before(waves[i].id, waves[j].id))
    && (forall w | 0 <= w < count ::
          && rules.waveIdOk(waves[w].id) && waves[w].id != "" && waves[w].resources != []
          && WaveInOrder(rules, waves[w], |waves[w].resources|, KeysOf(Flattened(waves, w))))
  }

  lemma KeysOfSum(a: seq<Planned>, b: seq<Planned>)
    ensures KeysOf(a + b) == KeysOf(a) + KeysOf(b)
  {
    forall k | k in KeysOf(a) + KeysOf(b)
      ensures k in KeysOf(a + b)
    {
      if k in KeysOf(a) {
        var i :| 0 <= i < |a| && KeyOf(a[i].resource.identity) == k;
        assert (a + b)[i] == a[i];
      } else {
        var i :| 0 <= i < |b| && KeyOf(b[i].resource.identity) == k;
        assert (a + b)[|a| + i] == b[i];
      }
    }
  }

  lemma WaveKeysAre(wave: Wave, waveIndex: nat)
    ensures KeysOf(OfWave(wave, waveIndex, |wave.resources|)) == WaveKeys(wave, |wave.resources|)
  {
    var planned := OfWave(wave, waveIndex, |wave.resources|);
    assert forall i | 0 <= i < |planned| :: planned[i].resource == wave.resources[i];
    forall k | k in WaveKeys(wave, |wave.resources|)
      ensures k in KeysOf(planned)
    {
      var i :| 0 <= i < |wave.resources| && KeyOf(wave.resources[i].identity) == k;
      assert KeyOf(planned[i].resource.identity) == k;
    }
  }

  /** One more wave: its keys join the ones seen. */
  lemma SeenAfter(waves: seq<Wave>, w: nat)
    requires w < |waves|
    ensures KeysOf(Flattened(waves, w + 1)) == KeysOf(Flattened(waves, w)) + WaveKeys(waves[w], |waves[w].resources|)
  {
    hide KeysOf, WaveKeys;
    KeysOfSum(Flattened(waves, w), OfWave(waves[w], w, |waves[w].resources|));
    WaveKeysAre(waves[w], w);
  }

  lemma IdsBefore(waves: seq<Wave>, w: nat)
    requires 0 < w < |waves| && Before(waves[w - 1].id, waves[w].id)
    requires forall i, j | 0 <= i < j < w :: Before(waves[i].id, waves[j].id)
    ensures forall i, j | 0 <= i < j < w + 1 :: Before(waves[i].id, waves[j].id)
  {
    hide Before;
    forall i | 0 <= i < w
      ensures Before(waves[i].id, waves[w].id)
    {
      if i < w - 1 { BeforeIsTransitive(waves[i].id, waves[w - 1].id, waves[w].id); }
    }
  }

  lemma NotBeforeEmpty(a: string)
    ensures Before("", a) <==> a != ""
  {}

  /** What the loops check. */
  ghost predicate Ordered(rules: Rules, waves: seq<Wave>) {
    waves != [] && waves[0].id == "foundation-baseline" && WavesInOrder(rules, waves, |waves|)
  }

  lemma EmptySeen(waves: seq<Wave>)
    ensures KeysOf(Flattened(waves, 0)) == {}
  {}

  lemma AfterNotEmpty(a: string, b: string)
    requires Before(a, b)
    ensures b != ""
  {}

  /** The ordering checks of a plan, wave by wave, resource by resource. */
  method ValidateOrder(rules: Rules, waves: seq<Wave>) returns (refusal: Option<PlanRefusal>)
    ensures refusal.None? <==> Ordered(rules, waves)
  {
    hide Before, WaveInOrder, KeysOf, WaveKeys, Flattened;
    if waves == [] || waves[0].id != "foundation-baseline" { return Some(BaselineMissing); }
    var previous := "";
    var seen: set<string> := {};
    EmptySeen(waves);
    for w := 0 to |waves|
      invariant WavesInOrder(rules, waves, w) && seen == KeysOf(Flattened(waves, w))
      invariant previous == if w == 0 then "" else waves[w - 1].id
    {
      var wave := waves[w];
      NotBeforeEmpty(wave.id);
      if !rules.waveIdOk(wave.id) || !Before(previous, wave.id) || wave.resources == [] { return Some(WaveOrder); }
      if w > 0 { IdsBefore(waves, w); AfterNotEmpty(previous, wave.id); }
      SeenAfter(waves, w);
      refusal, seen := CheckWave(rules, wave, seen);
      if refusal.Some? { return; }
      previous := wave.id;
    }
    refusal := None;
  }

  lemma DistinctSum(a: seq<Planned>, b: seq<Planned>)
    requires KeysDistinct(a) && KeysDistinct(b) && KeysOf(a) !! KeysOf(b)
    ensures KeysDistinct(a + b)
  {
    hide KeyOf;
    forall i, j | 0 <= i < j < |a + b|
      ensures KeyOf((a + b)[i].resource.identity) != KeyOf((a + b)[j].resource.identity)
    {
      if i < |a| <= j {
        assert KeyOf(a[i].resource.identity) in KeysOf(a) && KeyOf(b[j - |a|].resource.identity) in KeysOf(b);
      }
    }
  }

  lemma WaveDistinct(rules: Rules, wave: Wave, waveIndex: nat, seen: set<string>)
    requires WaveInOrder(rules, wave, |wave.resources|, seen)
    ensures KeysDistinct(OfWave(wave, waveIndex, |wave.resources|))
    ensures KeysOf(OfWave(wave, waveIndex, |wave.resources|)) !! seen
  {
    hide KeyOf, Before;
    WaveKeysAre(wave, waveIndex);
    var planned := OfWave(wave, waveIndex, |wave.resources|);
    forall i, j | 0 <= i < j < |planned|
      ensures KeyOf(planned[i].resource.identity) != KeyOf(planned[j].resource.identity)
    {
      BeforeIsStrict(KeyOf(wave.resources[i].identity));
    }
  }

  lemma NoneDistinct()
    ensures KeysDistinct([])
  {}

  lemma {:induction false} FlattenedDistinct(rules: Rules, waves: seq<Wave>, count: nat)
    requires count <= |waves| && WavesInOrder(rules, waves, count)
    ensures KeysDistinct(Flattened(waves, count))
  {
    hide Before, WaveInOrder, KeysOf, KeysDistinct, OfWave;
    if count == 0 {
      NoneDistinct();
    } else {
      FlattenedDistinct(rules, waves, count - 1);
      WaveDistinct(rules, waves[count - 1], count - 1, KeysOf(Flattened(waves, count - 1)));
      DistinctSum(Flattened(waves, count - 1), OfWave(waves[count - 1], count - 1, |waves[count - 1].resources|));
    }
  }

  lemma {:induction false} FlattenedPrefix(waves: seq<Wave>, a: nat, b: nat)
    requires a <= b <= |waves|
    ensures Flattened(waves, a) <= Flattened(waves, b)
  {
    if a < b { FlattenedPrefix(waves, a, b - 1); }
  }

  lemma WaveAt(waves: seq<Wave>, w: nat, r: nat)
    requires w < |waves| && r < |waves[w].resources|
    ensures var (before, next) := (Flattened(waves, w), Flattened(waves, w + 1));
            before <= next && |before| + r < |next| && next[|before| + r].resource == waves[w].resources[r]
  {
    var (before, wave) := (Flattened(waves, w), OfWave(waves[w], w, |waves[w].resources|));
    assert Flattened(waves, w + 1) == before + wave;
    assert (before + wave)[|before| + r] == wave[r];
  }

  lemma FlattenedAt(waves: seq<Wave>, w: nat, r: nat)
    requires w < |waves| && r < |waves[w].resources|
    ensures var (before, all) := (Flattened(waves, w), Flattened(waves, |waves|));
            before <= all && |before| + r < |all| && all[|before| + r].resource == waves[w].resources[r]
  {
    hide Flattened;
    FlattenedPrefix(waves, w + 1, |waves|);
    WaveAt(waves, w, r);
    var (before, next, all) := (Flattened(waves, w), Flattened(waves, w + 1), Flattened(waves, |waves|));
    assert all[|before| + r] == next[|before| + r];
  }

  /** The key of a resource is none of the keys of the waves before. */
  lemma UnseenBefore(waves: seq<Wave>, w: nat, r: nat)
    requires w < |waves| && r < |waves[w].resources| && KeysDistinct(Flattened(waves, |waves|))
    ensures KeyOf(waves[w].resources[r].identity) !in KeysOf(Flattened(waves, w))
  {
    hide KeyOf, Flattened;
    FlattenedAt(waves, w, r);
    var before, all := Flattened(waves, w), Flattened(waves, |waves|);
    forall i | 0 <= i < |before|
      ensures KeyOf(before[i].resource.identity) != KeyOf(waves[w].resources[r].identity)
    {
      assert all[i] == before[i];
    }
  }

  lemma InOrderIsOrdered(rules: Rules, waves: seq<Wave>)
    requires PlanInOrder(rules, waves)
    ensures Ordered(rules, waves)
  {
    hide Before, KeyOf, KeysOf, Flattened;
    forall w | 0 <= w < |waves|
      ensures waves[w].id != ""
      ensures WaveInOrder(rules, waves[w], |waves[w].resources|, KeysOf(Flattened(waves, w)))
    {
      if w > 0 { AfterNotEmpty(waves[0].id, waves[w].id); }
      forall r | 0 <= r < |waves[w].resources|
        ensures KeyOf(waves[w].resources[r].identity) !in KeysOf(Flattened(waves, w))
      {
        UnseenBefore(waves, w, r);
      }
    }
  }

  /** The loops accept exactly the plans in order: comparing each key with the one before and with the keys seen so far
      is as good as comparing every two resources of the whole plan. */
  lemma OrderedExactly(rules: Rules, waves: seq<Wave>)
    ensures Ordered(rules, waves) <==> PlanInOrder(rules, waves)
  {
    hide Before;
    if Ordered(rules, waves) { FlattenedDistinct(rules, waves, |waves|); }
    if PlanInOrder(rules, waves) { InOrderIsOrdered(rules, waves); }
  }

  // ---------------------------------------------------------------------------------------------- baseline

  const REQUIRED_KINDS: seq<string> :=
    ["LimitRange", "NetworkPolicy", "ResourceQuota", "Role", "RoleBinding", "ServiceAccount"]

  function KindsOf(resources: seq<Resource>): seq<string> {
    seq(|resources|, i requires 0 <= i < |resources| => resources[i].identity.kind)
  }

  function CountIn(counts: map<string, nat>, kind: string): nat {
    if kind in counts then counts[kind] else 0
  }

  method CountKinds(resources: seq<Resource>) returns (counts: map<string, nat>)
    ensures forall kind :: CountIn(counts, kind) == multiset(KindsOf(resources))[kind]
  {
    counts := map[];
    for r := 0 to |resources|
      invariant forall kind :: CountIn(counts, kind) == multiset(KindsOf(resources[..r]))[kind]
    {
      var kind := resources[r].identity.kind;
      assert KindsOf(resources[..r + 1]) == KindsOf(resources[..r]) + [kind];
      counts := counts[kind := CountIn(counts, kind) + 1];
    }
    assert resources[..|resources|] == resources;
  }

  lemma RequiredOnce(kind: string)
    requires kind in REQUIRED_KINDS
    ensures multiset(REQUIRED_KINDS)[kind] == 1
  {
    assert REQUIRED_KINDS[0][0] == 'L' && REQUIRED_KINDS[1][0] == 'N' && REQUIRED_KINDS[5][0] == 'S';
    assert |REQUIRED_KINDS[2]| == 13 && |REQUIRED_KINDS[3]| == 4 && |REQUIRED_KINDS[4]| == 11;
  }

  /** As many resources as required kinds and one of each: the kinds are the required ones, in some order. */
  lemma EachOnce(kinds: seq<string>)
    requires |kinds| == |REQUIRED_KINDS|
    requires forall i | 0 <= i < |REQUIRED_KINDS| :: multiset(kinds)[REQUIRED_KINDS[i]] == 1
    ensures multiset(kinds) == multiset(REQUIRED_KINDS)
  {
    var required := multiset(REQUIRED_KINDS);
    forall kind | kind in required
      ensures required[kind] == 1 && multiset(kinds)[kind] == 1
    {
      RequiredOnce(kind);
    }
    assert required <= multiset(kinds);
    assert |multiset(kinds) - required| == 0;
  }

  method CheckBaseline(wave: Wave) returns (ok: bool)
    ensures ok <==> multiset(KindsOf(wave.resources)) == multiset(REQUIRED_KINDS)
  {
    hide REQUIRED_KINDS;
    var counts := CountKinds(wave.resources);
    ghost var kinds := KindsOf(wave.resources);
    if |wave.resources| != |REQUIRED_KINDS| {
      assert |multiset(kinds)| != |multiset(REQUIRED_KINDS)|;
      return false;
    }
    for i := 0 to |REQUIRED_KINDS|
      invariant forall j | 0 <= j < i :: multiset(kinds)[REQUIRED_KINDS[j]] == 1
    {
      if CountIn(counts, REQUIRED_KINDS[i]) != 1 {
        RequiredOnce(REQUIRED_KINDS[i]);
        return false;
      }
    }
    EachOnce(kinds);
    ok := true;
  }

  /** The waves of a plan are accepted exactly when they are in order and the first holds the required kinds, once
      each. */
  method ValidateWaves(rules: Rules, waves: seq<Wave>) returns (refusal: Option<PlanRefusal>)
    ensures refusal.None? <==>
              PlanInOrder(rules, waves) && multiset(KindsOf(waves[0].resources)) == multiset(REQUIRED_KINDS)
  {
    hide PlanInOrder;
    OrderedExactly(rules, waves);
    refusal := ValidateOrder(rules, waves);
    if refusal.None? {
      var ok := CheckBaseline(waves[0]);
      if !ok { refusal := Some(BaselineInvalid); }
    }
  }
}
