/** internal/domain/provider/registry.go and load_signals.go: the index of loaded manifests. */
module Registry {
  import opened Wrappers
  import opened Text
  import opened Sorting
  import opened Provider

  datatype ResolvedProfile = ResolvedProfile(
    providerID: string, providerVersion: string, profile: SolutionProfile, erroneous: bool)

  datatype ProfileRef = ProfileRef(providerID: string, profileID: string, manifestVersion: string)

  /** The two maps of the registry, as a value. */
  datatype Index = Index(byKey: map<string, ResolvedProfile>, manifests: map<string, ProviderManifest>)

  const EMPTY_INDEX: Index := Index(map[], map[])

  // -------------------------------------------------------------------- keys

  const NUL: char := 0 as char

  function ProviderKey(providerID: string): (r: string) {
    Lower(Trim(providerID))
  }

  function ProfileKey(providerID: string, profileID: string): (r: string) {
    ProviderKey(providerID) + [NUL] + Trim(profileID)
  }

  predicate NulFree(s: string) {
    NUL !in s
  }

  lemma ProviderKeyNulFree(providerID: string)
    requires NulFree(providerID)
    ensures NulFree(ProviderKey(providerID))
  {
    hide Trim;
    var t := Trim(providerID);
    assert forall i :: 0 <= i < |t| ==> t[i] in t && Lower(t)[i] != NUL;
  }

  /** b goes on after a with a NUL and something a profile id could start with. */
  predicate Reaches(a: string, b: string) {
    && |a| < |b|
    && b[..|a|] == a
    && b[|a|] == NUL
    && (|b| == |a| + 1 || !IsSpace(b[|a| + 1]))
  }

  predicate Unreached(a: string, b: string) {
    !Reaches(a, b) && !Reaches(b, a)
  }

  lemma NulFreeUnreached(p1: string, p2: string)
    requires NulFree(p1) && NulFree(p2)
    ensures Unreached(ProviderKey(p1), ProviderKey(p2))
  {
    hide ProviderKey;
    ProviderKeyNulFree(p1);
    ProviderKeyNulFree(p2);
  }

  lemma SharedTextReaches(a: string, t1: string, b: string, t2: string)
    requires Trimmed(t1) && |a| < |b|
    requires a + [NUL] + t1 == b + [NUL] + t2
    ensures Reaches(a, b)
  {
    var s := a + [NUL] + t1;
    assert s == b + [NUL] + t2;
    assert a == s[..|a|] && b == s[..|b|];
    assert b[|a|] == s[|a|] == NUL;
    if |b| > |a| + 1 {
      assert b[|a| + 1] == s[|a| + 1] == t1[0];
    }
  }

  /** If neither provider key reaches the other, the NUL-joined key names one provider and one profile. */
  lemma ProfileKeyInjective(p1: string, s1: string, p2: string, s2: string)
    requires Unreached(ProviderKey(p1), ProviderKey(p2))
    ensures ProfileKey(p1, s1) == ProfileKey(p2, s2) <==> ProviderKey(p1) == ProviderKey(p2) && Trim(s1) == Trim(s2)
  {
    hide Trim, ProviderKey, Reaches;
    var a, b, t1, t2 := ProviderKey(p1), ProviderKey(p2), Trim(s1), Trim(s2);
    if a + [NUL] + t1 == b + [NUL] + t2 {
      if |a| < |b| {
        SharedTextReaches(a, t1, b, t2);
        assert false;
      } else if |b| < |a| {
        SharedTextReaches(b, t2, a, t1);
        assert false;
      } else {
        var s := a + [NUL] + t1;
        assert s == b + [NUL] + t2;
        assert a == s[..|a|] == b;
        assert t1 == s[|a| + 1..] == t2;
      }
    }
  }

  /** If one reaches the other, two profiles with ids a manifest may hold share a key. */
  lemma ReachedCollides(p1: string, p2: string) returns (s1: string, s2: string)
    requires Reaches(ProviderKey(p1), ProviderKey(p2))
    ensures ProfileKey(p1, s1) == ProfileKey(p2, s2)
    ensures s1 != "" && Trimmed(s1) && s2 != "" && Trimmed(s2)
  {
    hide Trim, ProviderKey;
    var a, b := ProviderKey(p1), ProviderKey(p2);
    var rest := b[|a| + 1..];
    s1, s2 := rest + [NUL] + "x", "x";
    assert s1[0] == if rest == [] then NUL else b[|a| + 1];
    assert Trimmed(s1) && Trimmed(s2);
    assert b == a + [NUL] + rest;
    assert a + [NUL] + s1 == b + [NUL] + s2;
  }

  /** The key of a profile of either provider tells provider and profile. */
  ghost predicate KeysInjective(p1: string, p2: string) {
    forall s1: string, s2: string :: ProfileKey(p1, s1) == ProfileKey(p2, s2) ==>
      ProviderKey(p1) == ProviderKey(p2) && Trim(s1) == Trim(s2)
  }

  /** Exactly when registry keys can be told apart, for any two provider ids. */
  lemma ProfileKeyExact(p1: string, p2: string)
    ensures KeysInjective(p1, p2) <==> Unreached(ProviderKey(p1), ProviderKey(p2))
    ensures KeysInjective(p1, p2) <== NulFree(p1) && NulFree(p2)
  {
    hide Trim, ProviderKey, ProfileKey, Reaches;
    var a, b := ProviderKey(p1), ProviderKey(p2);
    if NulFree(p1) && NulFree(p2) {
      NulFreeUnreached(p1, p2);
    }
    if Unreached(a, b) {
      forall s1: string, s2: string | ProfileKey(p1, s1) == ProfileKey(p2, s2) ensures a == b && Trim(s1) == Trim(s2) {
        ProfileKeyInjective(p1, s1, p2, s2);
      }
    } else {
      ReachesDiffer(a, b);
      if Reaches(a, b) {
        var s1, s2 := ReachedCollides(p1, p2);
      } else {
        var s2, s1 := ReachedCollides(p2, p1);
        assert ProfileKey(p1, s1) == ProfileKey(p2, s2);
      }
    }
  }

  /** Such a pair: a NUL in a provider id lets two profiles share a key. */
  lemma ProfileKeyCollision()
    ensures ProfileKey("a" + [NUL] + "b", "c") == ProfileKey("a", "b" + [NUL] + "c")
    ensures ProviderKey("a" + [NUL] + "b") != ProviderKey("a")
  {
    var p := "a" + [NUL] + "b";
    var s := "b" + [NUL] + "c";
    assert Trimmed(p) && Trimmed("a") && Trimmed(s) && Trimmed("c");
    assert Lower(p) == p && Lower("a") == "a";
    assert |p| == 3 && |"a"| == 1;
    assert p + [NUL] + "c" == "a" + [NUL] + s;
  }

  lemma ReachesDiffer(a: string, b: string)
    requires !Unreached(a, b)
    ensures a != b
  {
  }

  // ---------------------------------------------------------------- invariant

  /** The entry addManifest writes for profile i of m. */
  function Entry(m: ProviderManifest, i: nat): (r: ResolvedProfile)
    requires i < |m.profiles|
  {
    ResolvedProfile(m.providerID, m.providerVersion, m.profiles[i], false)
  }

  function KeyOf(m: ProviderManifest, i: nat): (r: string)
    requires i < |m.profiles|
  {
    ProfileKey(m.providerID, m.profiles[i].id)
  }

  /** Entries may have been flagged erroneous since they were written. */
  predicate Indexes(byKey: map<string, ResolvedProfile>, m: ProviderManifest, i: nat)
    requires i < |m.profiles|
  {
    KeyOf(m, i) in byKey && byKey[KeyOf(m, i)].(erroneous := false) == Entry(m, i)
  }

  predicate Owned(x: Index, key: string) {
    exists k :: k in x.manifests && OwnedBy(x.manifests[k], key)
  }

  predicate OwnedBy(m: ProviderManifest, key: string) {
    exists i :: 0 <= i < |m.profiles| && KeyOf(m, i) == key
  }

  predicate LoadedAt(x: Index, k: string) {
    k in x.manifests && LoadedManifest(x.manifests[k])
  }

  /** Manifests sit under their own key, every profile is indexed, and nothing else is. */
  ghost predicate Valid(x: Index) {
    && (forall k {:trigger LoadedAt(x, k)} :: k in x.manifests ==> LoadedAt(x, k))
    && (forall k :: k in x.manifests ==> ProviderKey(x.manifests[k].providerID) == k)
    && (forall k, i :: k in x.manifests && 0 <= i < |x.manifests[k].profiles| ==> Indexes(x.byKey, x.manifests[k], i))
    && (forall key :: key in x.byKey ==> Owned(x, key))
  }

  lemma KeysDistinctWithin(m: ProviderManifest, i: nat, j: nat)
    requires LoadedManifest(m) && i < |m.profiles| && j < |m.profiles|
    requires KeyOf(m, i) == KeyOf(m, j)
    ensures i == j
  {
    hide Trim, NormalizeManifest, NormalizeProfile;
    LoadedProfileFixed(m, i);
    LoadedProfileFixed(m, j);
    ProfileKeyInjective(m.providerID, m.profiles[i].id, m.providerID, m.profiles[j].id);
  }

  /** Exactly one entry per (manifest, profile): the keys of a valid index are in bijection with such pairs. */
  lemma OneEntryPerProfile(x: Index, k1: string, i: nat, k2: string, j: nat)
    requires Valid(x)
    requires k1 in x.manifests && i < |x.manifests[k1].profiles|
    requires k2 in x.manifests && j < |x.manifests[k2].profiles|
    ensures KeyOf(x.manifests[k1], i) == KeyOf(x.manifests[k2], j) <==> k1 == k2 && i == j
  {
    hide LoadedManifest, ProviderKey, KeyOf;
    var m1, m2 := x.manifests[k1], x.manifests[k2];
    assert LoadedAt(x, k1);
    assert Indexes(x.byKey, m1, i) && Indexes(x.byKey, m2, j);
    if KeyOf(m1, i) == KeyOf(m2, j) {
      assert m1.providerID == m2.providerID;
      assert k1 == k2;
      KeysDistinctWithin(m1, i, j);
    }
  }

  // ---------------------------------------------------------------- adding

  /** The first n entries of a manifest. */
  function Entries(m: ProviderManifest, n: nat): (r: map<string, ResolvedProfile>)
    requires n <= |m.profiles|
  {
    if n == 0 then map[] else Entries(m, n - 1)[KeyOf(m, n - 1) := Entry(m, n - 1)]
  }

  lemma {:induction false} EntriesKeys(m: ProviderManifest, n: nat)
    requires n <= |m.profiles|
    ensures forall key :: key in Entries(m, n) <==> exists i :: 0 <= i < n && KeyOf(m, i) == key
  {
    hide KeyOf, Entry;
    if n == 0 {
    } else {
      EntriesKeys(m, n - 1);
      forall key ensures key in Entries(m, n) <==> exists i :: 0 <= i < n && KeyOf(m, i) == key {
        assert key == KeyOf(m, n - 1) ==> exists i :: 0 <= i < n && KeyOf(m, i) == key;
      }
    }
  }

  lemma {:induction false} EntriesAt(m: ProviderManifest, n: nat, i: nat)
    requires LoadedManifest(m) && i < n <= |m.profiles|
    ensures KeyOf(m, i) in Entries(m, n) && Entries(m, n)[KeyOf(m, i)] == Entry(m, i)
  {
    hide LoadedManifest, KeyOf, Entry;
    if i < n - 1 {
      EntriesAt(m, n - 1, i);
      if KeyOf(m, i) == KeyOf(m, n - 1) {
        KeysDistinctWithin(m, i, n - 1);
        assert false;
      }
    }
  }

  /** Profile i can be written after its predecessors. */
  predicate Vacant(byKey: map<string, ResolvedProfile>, m: ProviderManifest, i: nat)
    requires i < |m.profiles|
  {
    KeyOf(m, i) !in byKey && forall j :: 0 <= j < i ==> KeyOf(m, j) != KeyOf(m, i)
  }

  predicate Fits(byKey: map<string, ResolvedProfile>, m: ProviderManifest) {
    forall i :: 0 <= i < |m.profiles| ==> Vacant(byKey, m, i)
  }

  /** No registered provider key reaches this one or is reached by it. */
  predicate Separate(x: Index, key: string) {
    forall k :: k in x.manifests ==> Unreached(k, key)
  }

  lemma VacantWithin(byKey: map<string, ResolvedProfile>, m: ProviderManifest, i: nat)
    requires LoadedManifest(m) && i < |m.profiles|
    ensures Vacant(byKey, m, i) <==> KeyOf(m, i) !in byKey
  {
    hide LoadedManifest, KeyOf;
    forall j | 0 <= j < i ensures KeyOf(m, j) != KeyOf(m, i) {
      if KeyOf(m, j) == KeyOf(m, i) {
        KeysDistinctWithin(m, j, i);
        assert false;
      }
    }
  }

  /** A taken key belongs to a profile of some registered manifest. */
  lemma TakenBy(x: Index, key: string) returns (k: string, j: nat)
    requires Valid(x) && key in x.byKey
    ensures k in x.manifests && j < |x.manifests[k].profiles| && KeyOf(x.manifests[k], j) == key
    ensures Indexes(x.byKey, x.manifests[k], j)
  {
    hide LoadedManifest, ProviderKey, ProfileKey;
    assert Owned(x, key);
    k :| k in x.manifests && OwnedBy(x.manifests[k], key);
    j :| 0 <= j < |x.manifests[k].profiles| && KeyOf(x.manifests[k], j) == key;
  }

  /** A new provider whose key is separate meets no taken key: the duplicate-profile error is unreachable. */
  lemma NewProviderVacant(x: Index, m: ProviderManifest, i: nat)
    requires Valid(x) && LoadedManifest(m) && i < |m.profiles|
    requires ProviderKey(m.providerID) !in x.manifests && Separate(x, ProviderKey(m.providerID))
    ensures Vacant(x.byKey, m, i)
  {
    hide LoadedManifest, ProviderKey, ProfileKey, Unreached;
    VacantWithin(x.byKey, m, i);
    if KeyOf(m, i) in x.byKey {
      var k, j := TakenBy(x, KeyOf(m, i));
      var o := x.manifests[k];
      assert ProviderKey(o.providerID) == k;
      ProfileKeyInjective(o.providerID, o.profiles[j].id, m.providerID, m.profiles[i].id);
      assert false;
    }
  }

  /** How many profiles, from i on, are written before one meets a taken key. */
  function Written(byKey: map<string, ResolvedProfile>, m: ProviderManifest, i: nat): (n: nat)
    requires i <= |m.profiles|
    ensures i <= n <= |m.profiles|
    decreases |m.profiles| - i
  {
    if i == |m.profiles| || !Vacant(byKey, m, i) then i else Written(byKey, m, i + 1)
  }

  lemma {:induction false} WrittenStops(byKey: map<string, ResolvedProfile>, m: ProviderManifest, i: nat)
    requires i <= |m.profiles|
    ensures var n := Written(byKey, m, i);
            && (n < |m.profiles| ==> !Vacant(byKey, m, n))
            && (forall j :: i <= j < n ==> Vacant(byKey, m, j))
    decreases |m.profiles| - i
  {
    hide Vacant;
    if i == |m.profiles| || !Vacant(byKey, m, i) {
    } else {
      WrittenStops(byKey, m, i + 1);
    }
  }

  lemma EntriesNone(byKey: map<string, ResolvedProfile>, m: ProviderManifest)
    ensures byKey + Entries(m, 0) == byKey
  {
  }

  lemma AllWritten(byKey: map<string, ResolvedProfile>, m: ProviderManifest)
    ensures Written(byKey, m, |m.profiles|) == |m.profiles|
  {
  }

  /** One round of the writing loop. */
  lemma EntriesNext(byKey: map<string, ResolvedProfile>, m: ProviderManifest, i: nat)
    requires i < |m.profiles|
    ensures KeyOf(m, i) in byKey + Entries(m, i) <==> !Vacant(byKey, m, i)
    ensures (byKey + Entries(m, i))[KeyOf(m, i) := Entry(m, i)] == byKey + Entries(m, i + 1)
    ensures Written(byKey, m, i) == if Vacant(byKey, m, i) then Written(byKey, m, i + 1) else i
  {
    hide KeyOf, Entry;
    EntriesKeys(m, i);
  }

  /** What AddManifest leaves behind, also when it stops at a taken key. */
  function AddTo(x: Index, m: ProviderManifest): (r: Index) {
    if ProviderKey(m.providerID) in x.manifests then x
    else Index(x.byKey + Entries(m, Written(x.byKey, m, 0)), x.manifests[ProviderKey(m.providerID) := m])
  }

  lemma AddedKeepsOld(x: Index, m: ProviderManifest, k: string, i: nat)
    requires Valid(x) && Fits(x.byKey, m)
    requires ProviderKey(m.providerID) !in x.manifests
    requires k in x.manifests && i < |x.manifests[k].profiles|
    ensures Indexes(AddTo(x, m).byKey, x.manifests[k], i)
  {
    hide LoadedManifest, ProviderKey, KeyOf, Entries;
    WrittenStops(x.byKey, m, 0);
    var o := x.manifests[k];
    assert Indexes(x.byKey, o, i);
    EntriesKeys(m, |m.profiles|);
    forall j | 0 <= j < |m.profiles| ensures KeyOf(m, j) != KeyOf(o, i) {
      assert Vacant(x.byKey, m, j);
    }
  }

  lemma AddedIndexesNew(x: Index, m: ProviderManifest, i: nat)
    requires LoadedManifest(m) && i < |m.profiles|
    requires ProviderKey(m.providerID) !in x.manifests && Fits(x.byKey, m)
    ensures Indexes(AddTo(x, m).byKey, m, i)
  {
    hide LoadedManifest, ProviderKey, KeyOf, Entries;
    WrittenStops(x.byKey, m, 0);
    EntriesAt(m, |m.profiles|, i);
  }

  lemma FittingAddValid(x: Index, m: ProviderManifest)
    requires Valid(x) && LoadedManifest(m) && Fits(x.byKey, m)
    requires ProviderKey(m.providerID) !in x.manifests
    ensures Valid(AddTo(x, m))
  {
    hide LoadedManifest, ProviderKey, ProfileKey, Entries, Indexes, KeyOf, Vacant;
    WrittenStops(x.byKey, m, 0);
    var y := AddTo(x, m);
    var key := ProviderKey(m.providerID);
    forall k | k in y.manifests ensures LoadedAt(y, k) {
      assert k != key ==> LoadedAt(x, k);
    }
    forall k, i | k in y.manifests && 0 <= i < |y.manifests[k].profiles|
      ensures Indexes(y.byKey, y.manifests[k], i)
    {
      if k == key {
        AddedIndexesNew(x, m, i);
      } else {
        AddedKeepsOld(x, m, k, i);
      }
    }
    EntriesKeys(m, |m.profiles|);
    forall e | e in y.byKey ensures Owned(y, e) {
      if e in Entries(m, |m.profiles|) {
        assert OwnedBy(y.manifests[key], e);
      } else {
        assert Owned(x, e);
        var k :| k in x.manifests && OwnedBy(x.manifests[k], e);
        assert y.manifests[k] == x.manifests[k];
      }
    }
  }

  /** A key that was already taken keeps its old entry, which names another provider. */
  lemma StoppedAddInvalid(x: Index, m: ProviderManifest)
    requires Valid(x) && LoadedManifest(m) && !Fits(x.byKey, m)
    requires ProviderKey(m.providerID) !in x.manifests
    ensures !Valid(AddTo(x, m))
  {
    hide LoadedManifest, ProviderKey, KeyOf, Entries;
    var n := Written(x.byKey, m, 0);
    WrittenStops(x.byKey, m, 0);
    var y := AddTo(x, m);
    assert n < |m.profiles|;
    VacantWithin(x.byKey, m, n);
    var k, j := TakenBy(x, KeyOf(m, n));
    EntriesKeys(m, n);
    VacantWithin(map[], m, n);
    assert Vacant(map[], m, n);
    assert KeyOf(m, n) !in Entries(m, n);
    assert y.byKey[KeyOf(m, n)].providerID == x.manifests[k].providerID;
    assert k != ProviderKey(m.providerID);
    assert !Indexes(y.byKey, m, n);
    assert y.manifests[ProviderKey(m.providerID)] == m;
  }

  /** Adding a manifest of a new provider keeps the invariant exactly when it meets no taken key. */
  lemma AddedValid(x: Index, m: ProviderManifest)
    requires Valid(x) && LoadedManifest(m)
    requires ProviderKey(m.providerID) !in x.manifests
    ensures Valid(AddTo(x, m)) <==> Fits(x.byKey, m)
    ensures Separate(x, ProviderKey(m.providerID)) ==> Valid(AddTo(x, m))
  {
    hide Valid, LoadedManifest, ProviderKey, Vacant, AddTo, Unreached;
    if Separate(x, ProviderKey(m.providerID)) {
      forall i | 0 <= i < |m.profiles| ensures Vacant(x.byKey, m, i) {
        NewProviderVacant(x, m, i);
      }
    }
    if Fits(x.byKey, m) {
      FittingAddValid(x, m);
    } else {
      StoppedAddInvalid(x, m);
    }
  }

  // ---------------------------------------------------------------- reading

  function LookupIn(x: Index, ref: ProfileRef): (r: Option<ResolvedProfile>) {
    var key := ProfileKey(ref.providerID, ref.profileID);
    if key !in x.byKey then None
    else if Trim(ref.manifestVersion) != "" && Trim(ref.manifestVersion) != x.byKey[key].providerVersion then None
    else Some(x.byKey[key])
  }

  predicate ByProfileID(a: ResolvedProfile, b: ResolvedProfile) {
    Less(a.profile.id, b.profile.id)
  }

  lemma ByProfileIDOrder()
    ensures StrictWeakOrder(ByProfileID)
  {
    LessIsOrder();
  }

  /** The index entries of the first n profiles of m, in manifest order. */
  function Collected(byKey: map<string, ResolvedProfile>, m: ProviderManifest, n: nat): (r: seq<ResolvedProfile>)
    requires n <= |m.profiles|
  {
    if n == 0 then []
    else Collected(byKey, m, n - 1) + (if KeyOf(m, n - 1) in byKey then [byKey[KeyOf(m, n - 1)]] else [])
  }

  /** ProfilesForProvider: nothing for an unknown provider, else the entries by profile id. */
  function ProfilesIn(x: Index, providerID: string): (r: seq<ResolvedProfile>) {
    var k := ProviderKey(providerID);
    if k !in x.manifests then []
    else StableSort(ByProfileID, Collected(x.byKey, x.manifests[k], |x.manifests[k].profiles|))
  }

  /** Nothing for an unknown provider, else some order of its entries by profile id. */
  ghost predicate ListsProfiles(x: Index, providerID: string, out: seq<ResolvedProfile>) {
    var k := ProviderKey(providerID);
    if k !in x.manifests then out == []
    else SortedVersion(ByProfileID, Collected(x.byKey, x.manifests[k], |x.manifests[k].profiles|), out)
  }

  lemma {:induction false} CollectedAt(x: Index, k: string, n: nat)
    requires Valid(x) && k in x.manifests && n <= |x.manifests[k].profiles|
    ensures |Collected(x.byKey, x.manifests[k], n)| == n
    ensures forall i :: 0 <= i < n ==>
              && KeyOf(x.manifests[k], i) in x.byKey
              && Collected(x.byKey, x.manifests[k], n)[i] == x.byKey[KeyOf(x.manifests[k], i)]
              && Collected(x.byKey, x.manifests[k], n)[i].(erroneous := false) == Entry(x.manifests[k], i)
  {
    hide LoadedManifest, ProviderKey, KeyOf;
    if n == 0 {
    } else {
      CollectedAt(x, k, n - 1);
      assert Indexes(x.byKey, x.manifests[k], n - 1);
    }
  }

  /** Profiles of one manifest never tie on their id, so any sort gives the same list. */
  lemma CollectedSorts(x: Index, k: string, r: seq<ResolvedProfile>)
    requires Valid(x) && k in x.manifests
    requires SortedVersion(ByProfileID, Collected(x.byKey, x.manifests[k], |x.manifests[k].profiles|), r)
    ensures r == StableSort(ByProfileID, Collected(x.byKey, x.manifests[k], |x.manifests[k].profiles|))
  {
    hide ProviderKey, KeyOf, LoadedManifest, Less, Collected;
    var m := x.manifests[k];
    assert LoadedAt(x, k);
    var s := Collected(x.byKey, m, |m.profiles|);
    CollectedAt(x, k, |m.profiles|);
    ManifestIDsDistinct(m);
    SameElements(s, r);
    forall a, b | a in r && b in r && a != b ensures ByProfileID(a, b) || ByProfileID(b, a) {
      LessTrichotomy(a.profile.id, b.profile.id);
    }
    ByProfileIDOrder();
    StableSortAscending(ByProfileID, s);
    AscendingUnique(ByProfileID, r, StableSort(ByProfileID, s));
  }

  lemma ManifestIDsDistinct(m: ProviderManifest)
    requires LoadedManifest(m)
    ensures DistinctProfileIDs(m.profiles)
  {
  }

  /** A listed profile is the entry of some profile of that provider's manifest, and conversely. */
  lemma ProfilesInElements(x: Index, providerID: string, rp: ResolvedProfile)
    requires Valid(x)
    ensures rp in ProfilesIn(x, providerID) <==>
            && ProviderKey(providerID) in x.manifests
            && exists i :: 0 <= i < |x.manifests[ProviderKey(providerID)].profiles|
                        && KeyOf(x.manifests[ProviderKey(providerID)], i) in x.byKey
                        && x.byKey[KeyOf(x.manifests[ProviderKey(providerID)], i)] == rp
  {
    hide ProviderKey, KeyOf, LoadedManifest, Collected;
    var k := ProviderKey(providerID);
    if k in x.manifests {
      var n := |x.manifests[k].profiles|;
      CollectedAt(x, k, n);
      StableSortPermutes(ByProfileID, Collected(x.byKey, x.manifests[k], n));
      var s := Collected(x.byKey, x.manifests[k], n);
      assert rp in ProfilesIn(x, providerID) <==> rp in s;
      assert forall i :: 0 <= i < n ==> s[i] == x.byKey[KeyOf(x.manifests[k], i)];
    }
  }

  function RefOf(rp: ResolvedProfile): (r: ProfileRef) {
    ProfileRef(rp.providerID, rp.profile.id, rp.providerVersion)
  }

  /** Every listed profile is a loaded profile and Lookup finds it under its own version. */
  lemma ListedIsFound(x: Index, providerID: string, rp: ResolvedProfile)
    requires Valid(x) && rp in ProfilesIn(x, providerID)
    ensures LookupIn(x, RefOf(rp)) == Some(rp)
    ensures ProviderKey(rp.providerID) == ProviderKey(providerID)
    ensures ProviderKey(providerID) in x.manifests
    ensures exists i :: 0 <= i < |x.manifests[ProviderKey(providerID)].profiles|
                     && rp.(erroneous := false) == Entry(x.manifests[ProviderKey(providerID)], i)
  {
    hide ProviderKey, ProfileKey, LoadedManifest, ProfilesIn, Trim;
    ProfilesInElements(x, providerID, rp);
    var k := ProviderKey(providerID);
    var m := x.manifests[k];
    var i :| 0 <= i < |m.profiles| && KeyOf(m, i) in x.byKey && x.byKey[KeyOf(m, i)] == rp;
    assert Indexes(x.byKey, m, i);
    assert rp.(erroneous := false) == Entry(m, i);
    assert rp.providerID == m.providerID && rp.profile == m.profiles[i];
    assert LoadedAt(x, k);
    LoadedProfileFixed(m, i);
  }

  lemma SameKeySameProfiles(x: Index, a: string, b: string)
    ensures ProviderKey(a) == ProviderKey(b) ==> ProfilesIn(x, a) == ProfilesIn(x, b)
  {
    hide ProviderKey, Collected, StableSort;
  }

  // ------------------------------------------------- whose profile Lookup finds

  /** A lookup for the provider with this key can ask for this index key. */
  predicate Continues(key: string, full: string) {
    && |key| < |full|
    && full[..|key|] == key
    && full[|key|] == NUL
    && Trimmed(full[|key| + 1..])
  }

  lemma KeyContinues(p: string, s: string)
    ensures Continues(ProviderKey(p), ProfileKey(p, s))
    ensures ProfileKey(p, s)[|ProviderKey(p)| + 1..] == Trim(s)
  {
    hide Trim, ProviderKey;
    assert ProfileKey(p, s)[..|ProviderKey(p)|] == ProviderKey(p);
    assert ProfileKey(p, s)[|ProviderKey(p)| + 1..] == Trim(s);
  }

  lemma ContinuedKey(p: string, full: string)
    requires Continues(ProviderKey(p), full)
    ensures ProfileKey(p, full[|ProviderKey(p)| + 1..]) == full
  {
    hide Trim, ProviderKey;
    var a := ProviderKey(p);
    assert full == a + [NUL] + full[|a| + 1..];
  }

  /** Whatever profile id and version are asked for, Lookup answers with a profile of this provider. */
  ghost predicate AnswersOwn(x: Index, p: string) {
    forall s: string, v: string :: LookupIn(x, ProfileRef(p, s, v)).Some? ==>
      ProviderKey(LookupIn(x, ProfileRef(p, s, v)).value.providerID) == ProviderKey(p)
  }

  /** No profile key of another registered provider continues the key of this one. */
  predicate NoForeignKey(x: Index, p: string) {
    forall k, i :: k in x.manifests && k != ProviderKey(p) && 0 <= i < |x.manifests[k].profiles| ==>
      !Continues(ProviderKey(p), KeyOf(x.manifests[k], i))
  }

  lemma ForeignKeyAnswers(x: Index, p: string, k: string, i: nat)
    requires Valid(x) && k in x.manifests && i < |x.manifests[k].profiles|
    requires k != ProviderKey(p) && Continues(ProviderKey(p), KeyOf(x.manifests[k], i))
    ensures !AnswersOwn(x, p)
  {
    hide ProviderKey, ProfileKey, LoadedManifest, Trim;
    var m := x.manifests[k];
    var s := KeyOf(m, i)[|ProviderKey(p)| + 1..];
    assert Indexes(x.byKey, m, i);
    ContinuedKey(p, KeyOf(m, i));
    assert Trimmed("");
    assert LookupIn(x, ProfileRef(p, s, "")).Some?;
  }

  /** Lookups for a provider id stay with that provider exactly when no foreign profile key continues its key. */
  lemma LookupExact(x: Index, p: string)
    requires Valid(x)
    ensures AnswersOwn(x, p) <==> NoForeignKey(x, p)
    ensures Separate(x, ProviderKey(p)) ==> NoForeignKey(x, p)
  {
    hide Valid, ProviderKey, ProfileKey, Continues, KeyOf, LookupIn, Unreached;
    if AnswersOwn(x, p) {
      forall k, i | k in x.manifests && k != ProviderKey(p) && 0 <= i < |x.manifests[k].profiles|
        ensures !Continues(ProviderKey(p), KeyOf(x.manifests[k], i))
      {
        if Continues(ProviderKey(p), KeyOf(x.manifests[k], i)) {
          ForeignKeyAnswers(x, p, k, i);
        }
      }
    }
    if NoForeignKey(x, p) {
      forall s: string, v: string | LookupIn(x, ProfileRef(p, s, v)).Some?
        ensures ProviderKey(LookupIn(x, ProfileRef(p, s, v)).value.providerID) == ProviderKey(p)
      {
        var k, i := FoundAt(x, ProfileRef(p, s, v));
        KeyContinues(p, s);
      }
    }
    if Separate(x, ProviderKey(p)) {
      SeparateHasNoForeignKey(x, p);
    }
  }

  /** The manifest and profile a successful lookup comes from. */
  lemma FoundAt(x: Index, ref: ProfileRef) returns (k: string, i: nat)
    requires Valid(x) && LookupIn(x, ref).Some?
    ensures k in x.manifests && i < |x.manifests[k].profiles|
    ensures KeyOf(x.manifests[k], i) == ProfileKey(ref.providerID, ref.profileID)
    ensures ProviderKey(x.manifests[k].providerID) == k
    ensures LookupIn(x, ref).value.(erroneous := false) == Entry(x.manifests[k], i)
  {
    hide ProviderKey, ProfileKey, LoadedManifest, Trim;
    k, i := TakenBy(x, ProfileKey(ref.providerID, ref.profileID));
  }

  /** Profile i of manifest k is what a reference to (p, s) in version v names. */
  predicate Names(x: Index, p: string, s: string, v: string, k: string, i: nat) {
    && k in x.manifests && i < |x.manifests[k].profiles|
    && ProviderKey(p) + [NUL] + Trim(s)
       == ProviderKey(x.manifests[k].providerID) + [NUL] + Trim(x.manifests[k].profiles[i].id)
    && (Trim(v) == "" || Trim(v) == x.manifests[k].providerVersion)
  }

  /**
   Lookup answers with a profile exactly when the reference names it: its key, and its version
   if one is given. It answers nothing exactly when the reference names nothing.
   */
  lemma LookupAnswers(x: Index, p: string, s: string, v: string)
    requires Valid(x)
    ensures LookupIn(x, ProfileRef(p, s, v)).None? <==> forall k, i: nat :: !Names(x, p, s, v, k, i)
    ensures forall k, i: nat :: Names(x, p, s, v, k, i) ==>
              && LookupIn(x, ProfileRef(p, s, v)).Some?
              && LookupIn(x, ProfileRef(p, s, v)).value.(erroneous := false)
                 == ResolvedProfile(x.manifests[k].providerID, x.manifests[k].providerVersion,
                                    x.manifests[k].profiles[i], false)
  {
    hide LoadedManifest, ProviderKey, Trim;
    var ref := ProfileRef(p, s, v);
    forall k, i: nat | Names(x, p, s, v, k, i)
      ensures LookupIn(x, ref).Some? && LookupIn(x, ref).value.(erroneous := false) == Entry(x.manifests[k], i)
    {
      assert Indexes(x.byKey, x.manifests[k], i);
    }
    if LookupIn(x, ref).Some? {
      var k, i := FoundAt(x, ref);
      assert Names(x, p, s, v, k, i);
    }
  }

  lemma SeparateHasNoForeignKey(x: Index, p: string)
    requires Valid(x) && Separate(x, ProviderKey(p))
    ensures NoForeignKey(x, p)
  {
    hide ProviderKey, ProfileKey, LoadedManifest, Unreached, Indexes;
    forall k, i | k in x.manifests && k != ProviderKey(p) && 0 <= i < |x.manifests[k].profiles|
      ensures !Continues(ProviderKey(p), KeyOf(x.manifests[k], i))
    {
      var m := x.manifests[k];
      var full := KeyOf(m, i);
      if Continues(ProviderKey(p), full) {
        ContinuedKey(p, full);
        ProfileKeyInjective(m.providerID, m.profiles[i].id, p, full[|ProviderKey(p)| + 1..]);
        assert false;
      }
    }
  }

  /**
   What Lookup finds is listed for its own provider, and for the provider asked for exactly when
   that is the same one.
   */
  lemma FoundIsListed(x: Index, ref: ProfileRef)
    requires Valid(x) && LookupIn(x, ref).Some?
    ensures var rp := LookupIn(x, ref).value;
            && rp in ProfilesIn(x, rp.providerID)
            && (rp in ProfilesIn(x, ref.providerID) <==> ProviderKey(rp.providerID) == ProviderKey(ref.providerID))
            && (NoForeignKey(x, ref.providerID) ==> ProviderKey(rp.providerID) == ProviderKey(ref.providerID))
  {
    hide ProviderKey, ProfileKey, LoadedManifest, ProfilesIn, Trim, NoForeignKey;
    var rp := LookupIn(x, ref).value;
    var k, i := FoundAt(x, ref);
    ProfilesInElements(x, rp.providerID, rp);
    SameKeySameProfiles(x, rp.providerID, ref.providerID);
    if rp in ProfilesIn(x, ref.providerID) {
      ListedIsFound(x, ref.providerID, rp);
    }
    if NoForeignKey(x, ref.providerID) {
      LookupExact(x, ref.providerID);
      assert ref == ProfileRef(ref.providerID, ref.profileID, ref.manifestVersion);
    }
  }

  // ------------------------------------------------------- listings, any index

  /** What ProfilesForProvider may answer for each entry in turn. */
  ghost predicate Listings(x: Index, entries: seq<string>, listed: seq<seq<ResolvedProfile>>) {
    |listed| == |entries| && forall i :: 0 <= i < |entries| ==> ListsProfiles(x, entries[i], listed[i])
  }

  lemma ProfilesInLists(x: Index, providerID: string)
    ensures ListsProfiles(x, providerID, ProfilesIn(x, providerID))
  {
    hide ProviderKey, Collected, StableSort;
    ByProfileIDOrder();
    var k := ProviderKey(providerID);
    if k in x.manifests {
      StableSortAscending(ByProfileID, Collected(x.byKey, x.manifests[k], |x.manifests[k].profiles|));
    }
  }

  /** Every answer holds the same profiles; on a valid index it is the same list. */
  lemma ListedElements(x: Index, providerID: string, out: seq<ResolvedProfile>)
    requires ListsProfiles(x, providerID, out)
    ensures forall rp :: rp in out <==> rp in ProfilesIn(x, providerID)
    ensures Valid(x) ==> out == ProfilesIn(x, providerID)
  {
    hide ProviderKey, Collected, StableSort, Valid;
    var k := ProviderKey(providerID);
    if k in x.manifests {
      var s := Collected(x.byKey, x.manifests[k], |x.manifests[k].profiles|);
      SameElements(s, out);
      StableSortPermutes(ByProfileID, s);
      if Valid(x) {
        CollectedSorts(x, k, out);
      }
    }
  }

  /** Whatever the sort does with ties, no profile is listed after one whose id comes later. */
  lemma ListedInOrder(x: Index, providerID: string, out: seq<ResolvedProfile>, i: nat, j: nat)
    requires ListsProfiles(x, providerID, out) && i < j < |out|
    ensures !Precedes(out[j].profile.id, out[i].profile.id)
  {
    hide ProviderKey, Collected, Precedes;
    LessExact(out[j].profile.id, out[i].profile.id);
  }

  lemma SameProvider(x: Index, entry: string)
    ensures ProviderKey(Trim(entry)) == ProviderKey(entry)
    ensures ProfilesIn(x, Trim(entry)) == ProfilesIn(x, entry)
    ensures forall out :: ListsProfiles(x, Trim(entry), out) <==> ListsProfiles(x, entry, out)
  {
    hide Trim, Collected, StableSort, SortedVersion;
  }

  // ------------------------------------------------------------------- class

  class Registry {
    var byKey: map<string, ResolvedProfile>
    var manifests: map<string, ProviderManifest>

    function State(): (r: Index)
      reads this
    {
      Index(byKey, manifests)
    }

    constructor ()
      ensures State() == EMPTY_INDEX && Valid(State())
    {
      byKey := map[];
      manifests := map[];
    }

    /**
     Exact for every manifest: rejected when the provider is known, which changes nothing, or
     when some profile key is taken, which leaves the profiles written before it. From a valid
     index and a loaded manifest the first keeps the index valid and the second never does.
     */
    method AddManifest(m: ProviderManifest) returns (ok: bool)
      modifies this
      ensures State() == AddTo(old(State()), m)
      ensures ok <==> ProviderKey(m.providerID) !in old(manifests) && Fits(old(byKey), m)
      ensures old(Valid(State())) && LoadedManifest(m) ==>
                (Valid(State()) <==> ok || ProviderKey(m.providerID) in old(manifests))
    {
      hide LoadedManifest, ProviderKey, ProfileKey, Valid, Entries, Unreached, Vacant, Written, Fits, Separate;
      var providerID := ProviderKey(m.providerID);
      if providerID in manifests {
        return false;
      }
      ghost var before := State();
      if Valid(before) && LoadedManifest(m) {
        AddedValid(before, m);
      }
      manifests := manifests[providerID := m];
      ok := AddEntries(m);
    }

    method AddEntries(m: ProviderManifest) returns (ok: bool)
      modifies this`byKey
      ensures ok <==> Fits(old(byKey), m)
      ensures byKey == old(byKey) + Entries(m, Written(old(byKey), m, 0))
    {
      hide KeyOf, Entry, Entries, Vacant, Written;
      ghost var before := byKey;
      EntriesNone(before, m);
      var i := 0;
      while i < |m.profiles|
        invariant 0 <= i <= |m.profiles|
        invariant byKey == before + Entries(m, i)
        invariant forall j :: 0 <= j < i ==> Vacant(before, m, j)
        invariant Written(before, m, 0) == Written(before, m, i)
      {
        var key := KeyOf(m, i);
        EntriesNext(before, m, i);
        if key in byKey {
          return false;
        }
        byKey := byKey[key := Entry(m, i)];
        i := i + 1;
      }
      AllWritten(before, m);
      return true;
    }

    method Lookup(ref: ProfileRef) returns (r: Option<ResolvedProfile>)
      ensures r == LookupIn(State(), ref)
    {
      hide Trim, ProfileKey;
      var key := ProfileKey(ref.providerID, ref.profileID);
      if key !in byKey {
        return None;
      }
      var wantVer := Trim(ref.manifestVersion);
      if wantVer != "" && wantVer != byKey[key].providerVersion {
        return None;
      }
      return Some(byKey[key]);
    }

    /** The source sorts with an unstable sort; a valid index leaves it no choice. */
    method ProfilesForProvider(providerID: string) returns (out: seq<ResolvedProfile>)
      ensures ListsProfiles(State(), providerID, out)
      ensures Valid(State()) ==> out == ProfilesIn(State(), providerID)
    {
      hide ProviderKey, KeyOf, Valid;
      var k := ProviderKey(providerID);
      if k !in manifests {
        return [];
      }
      var m := manifests[k];
      out := [];
      var i := 0;
      while i < |m.profiles|
        invariant 0 <= i <= |m.profiles|
        invariant out == Collected(byKey, m, i)
      {
        var key := KeyOf(m, i);
        if key in byKey {
          out := out + [byKey[key]];
        }
        i := i + 1;
      }
      ByProfileIDOrder();
      out := SortSlice(ByProfileID, out);
      if Valid(State()) {
        CollectedSorts(State(), k, out);
      }
    }

    /** Marks every profile whose suggestion contradicts its constraints and counts them. */
    method ApplyManifestLoadSignals() returns (n: nat)
      modifies this`byKey
      ensures byKey == Signalled(old(byKey))
      ensures n == |Contradictory(old(byKey))|
      ensures old(Valid(State())) ==> Valid(State())
    {
      ghost var before := byKey;
      byKey, n := FlagContradictory(byKey);
      if Valid(Index(before, manifests)) {
        hide Valid;
        SignalledValid(Index(before, manifests));
      }
    }
  }

  /** The loop over the index, in whatever order the map yields its entries. */
  method FlagContradictory(byKey: map<string, ResolvedProfile>) returns (flagged: map<string, ResolvedProfile>, n: nat)
    ensures flagged == Signalled(byKey)
    ensures n == |Contradictory(byKey)|
  {
    hide SuggestionConsistent, Signalled, Contradictory;
    flagged := byKey;
    var todo := byKey.Keys;
    ghost var found: set<string> := {};
    n := 0;
    while todo != {}
      invariant todo <= byKey.Keys && flagged.Keys == byKey.Keys
      invariant forall k :: k in byKey ==> flagged[k] == if k in todo then byKey[k] else Flagged(byKey[k])
      invariant n == |found|
      invariant forall k :: k in found <==> k in byKey && !SuggestionConsistent(byKey[k].profile) && k !in todo
      decreases |todo|
    {
      var k :| k in todo;
      if !SuggestionConsistent(flagged[k].profile) {
        flagged := flagged[k := flagged[k].(erroneous := true)];
        found := found + {k};
        n := n + 1;
      }
      todo := todo - {k};
    }
    AllFlagged(byKey, flagged, found);
  }

  lemma AllFlagged(byKey: map<string, ResolvedProfile>, flagged: map<string, ResolvedProfile>, found: set<string>)
    requires flagged.Keys == byKey.Keys && forall k :: k in byKey ==> flagged[k] == Flagged(byKey[k])
    requires forall k :: k in found <==> k in byKey && !SuggestionConsistent(byKey[k].profile)
    ensures flagged == Signalled(byKey) && found == Contradictory(byKey)
  {
    hide SuggestionConsistent, Flagged;
  }

  function Flagged(rp: ResolvedProfile): (r: ResolvedProfile) {
    if SuggestionConsistent(rp.profile) then rp else rp.(erroneous := true)
  }

  function Signalled(byKey: map<string, ResolvedProfile>): (r: map<string, ResolvedProfile>)
    ensures r.Keys == byKey.Keys
  {
    map k | k in byKey :: Flagged(byKey[k])
  }

  function Contradictory(byKey: map<string, ResolvedProfile>): (r: set<string>) {
    set k | k in byKey && !SuggestionConsistent(byKey[k].profile)
  }

  lemma SignalledValid(x: Index)
    requires Valid(x)
    ensures Valid(Index(Signalled(x.byKey), x.manifests))
  {
    hide LoadedManifest, ProviderKey, KeyOf, SuggestionConsistent;
    var y := Index(Signalled(x.byKey), x.manifests);
    forall k | k in y.manifests ensures LoadedAt(y, k) {
      assert LoadedAt(x, k);
    }
    forall k, i | k in y.manifests && 0 <= i < |y.manifests[k].profiles|
      ensures Indexes(y.byKey, y.manifests[k], i)
    {
      assert Indexes(x.byKey, x.manifests[k], i);
    }
    forall key | key in y.byKey ensures Owned(y, key) {
      assert Owned(x, key);
    }
  }

  // -------------------------------------------------------------------- runs

  /** The index after offering manifests one after another, whatever AddManifest answers. */
  function Load(ms: seq<ProviderManifest>): (r: Index) {
    if ms == [] then EMPTY_INDEX else AddTo(Load(ms[..|ms| - 1]), ms[|ms| - 1])
  }

  /** The first manifest of its provider. */
  predicate Kept(ms: seq<ProviderManifest>, a: nat)
    requires a < |ms|
  {
    forall b :: 0 <= b < a ==> ProviderKey(ms[b].providerID) != ProviderKey(ms[a].providerID)
  }

  predicate Apart(m1: ProviderManifest, m2: ProviderManifest) {
    forall i, j :: 0 <= i < |m1.profiles| && 0 <= j < |m2.profiles| ==> KeyOf(m1, i) != KeyOf(m2, j)
  }

  /** No two manifests that are kept share a profile key. */
  predicate KeysApart(ms: seq<ProviderManifest>) {
    forall a, b :: 0 <= a < b < |ms| && Kept(ms, a) && Kept(ms, b) ==> Apart(ms[a], ms[b])
  }

  predicate AllLoaded(ms: seq<ProviderManifest>) {
    forall a :: 0 <= a < |ms| ==> LoadedManifest(ms[a])
  }

  lemma KeptUnderGrows(ms: seq<ProviderManifest>, m: ProviderManifest, k: string)
    requires ms != [] && KeptUnder(ms[..|ms| - 1], m, k)
    ensures KeptUnder(ms, m, k)
  {
    hide ProviderKey;
    var n := |ms| - 1;
    var a :| 0 <= a < n && Kept(ms[..n], a) && ms[..n][a] == m && ProviderKey(ms[..n][a].providerID) == k;
    assert forall b :: 0 <= b <= a ==> ms[..n][b] == ms[b];
    assert Kept(ms, a);
  }

  lemma AddToManifests(x: Index, m: ProviderManifest)
    ensures AddTo(x, m).manifests ==
            if ProviderKey(m.providerID) in x.manifests then x.manifests
            else x.manifests[ProviderKey(m.providerID) := m]
  {
    hide ProviderKey;
  }

  /** Exactly the kept manifests are registered, under their own keys. */
  lemma {:induction false} LoadKeepsFirst(ms: seq<ProviderManifest>)
    ensures forall a :: 0 <= a < |ms| ==> ProviderKey(ms[a].providerID) in Load(ms).manifests
    ensures forall k :: k in Load(ms).manifests ==> KeptUnder(ms, Load(ms).manifests[k], k)
  {
    hide ProviderKey, AddTo, KeptUnder;
    if ms == [] {
    } else {
      var n := |ms| - 1;
      LoadKeepsFirst(ms[..n]);
      var x := Load(ms[..n]);
      AddToManifests(x, ms[n]);
      assert forall a :: 0 <= a < n ==> ms[..n][a] == ms[a];
      forall k | k in Load(ms).manifests ensures KeptUnder(ms, Load(ms).manifests[k], k) {
        if k in x.manifests {
          KeptUnderGrows(ms, x.manifests[k], k);
        } else {
          LastKept(ms, k);
        }
      }
    }
  }

  lemma LastKept(ms: seq<ProviderManifest>, k: string)
    requires ms != [] && ProviderKey(ms[|ms| - 1].providerID) == k
    requires forall a :: 0 <= a < |ms| - 1 ==> ProviderKey(ms[a].providerID) != k
    ensures KeptUnder(ms, ms[|ms| - 1], k)
  {
    hide ProviderKey;
    assert Kept(ms, |ms| - 1);
  }

  predicate KeptUnder(ms: seq<ProviderManifest>, m: ProviderManifest, k: string) {
    exists a :: 0 <= a < |ms| && Kept(ms, a) && ms[a] == m && ProviderKey(ms[a].providerID) == k
  }

  lemma KeptIsRegistered(ms: seq<ProviderManifest>, a: nat)
    requires a < |ms| && Kept(ms, a)
    ensures var k := ProviderKey(ms[a].providerID);
            k in Load(ms).manifests && Load(ms).manifests[k] == ms[a]
  {
    hide ProviderKey, Load;
    LoadKeepsFirst(ms);
    var k := ProviderKey(ms[a].providerID);
    var b :| 0 <= b < |ms| && Kept(ms, b) && ms[b] == Load(ms).manifests[k] && ProviderKey(ms[b].providerID) == k;
    assert a == b;
  }

  /** A manifest that fits a valid index shares no key with a kept one. */
  lemma FittingIsApart(ms: seq<ProviderManifest>, m: ProviderManifest, a: nat)
    requires Valid(Load(ms)) && Fits(Load(ms).byKey, m)
    requires a < |ms| && Kept(ms, a)
    ensures Apart(ms[a], m)
  {
    hide LoadedManifest, ProviderKey, KeyOf, Load, Kept;
    var x := Load(ms);
    KeptIsRegistered(ms, a);
    forall i, j | 0 <= i < |ms[a].profiles| && 0 <= j < |m.profiles| ensures KeyOf(ms[a], i) != KeyOf(m, j) {
      assert Indexes(x.byKey, ms[a], i) && Vacant(x.byKey, m, j);
    }
  }

  /** One that does not fit shares a key with some kept one. */
  lemma TakenIsShared(ms: seq<ProviderManifest>, m: ProviderManifest) returns (a: nat)
    requires Valid(Load(ms)) && LoadedManifest(m) && !Fits(Load(ms).byKey, m)
    ensures a < |ms| && Kept(ms, a) && !Apart(ms[a], m)
  {
    hide Valid, LoadedManifest, ProviderKey, KeyOf, Load, Kept, Vacant, Indexes;
    var x := Load(ms);
    var i :| 0 <= i < |m.profiles| && !Vacant(x.byKey, m, i);
    VacantWithin(x.byKey, m, i);
    var k, j := TakenBy(x, KeyOf(m, i));
    LoadKeepsFirst(ms);
    assert KeptUnder(ms, x.manifests[k], k);
    a :| 0 <= a < |ms| && Kept(ms, a) && ms[a] == x.manifests[k] && ProviderKey(ms[a].providerID) == k;
  }

  lemma ApartPrefix(ms: seq<ProviderManifest>)
    requires ms != [] && AllLoaded(ms) && KeysApart(ms)
    ensures AllLoaded(ms[..|ms| - 1]) && KeysApart(ms[..|ms| - 1])
  {
    hide LoadedManifest, ProviderKey, Apart;
    var front := ms[..|ms| - 1];
    assert forall a :: 0 <= a < |front| ==> front[a] == ms[a];
    assert forall a :: 0 <= a < |front| && Kept(front, a) ==> Kept(ms, a);
  }

  lemma LastFits(ms: seq<ProviderManifest>)
    requires ms != [] && AllLoaded(ms) && KeysApart(ms)
    requires Valid(Load(ms[..|ms| - 1]))
    requires ProviderKey(ms[|ms| - 1].providerID) !in Load(ms[..|ms| - 1]).manifests
    ensures Fits(Load(ms[..|ms| - 1]).byKey, ms[|ms| - 1])
  {
    hide Valid, LoadedManifest, ProviderKey, Load, Apart, Fits;
    var n := |ms| - 1;
    var front := ms[..n];
    LoadKeepsFirst(front);
    assert forall a :: 0 <= a < n ==> front[a] == ms[a];
    assert Kept(ms, n);
    assert forall a :: 0 <= a < n && Kept(front, a) ==> Apart(front[a], ms[n]);
    if !Fits(Load(front).byKey, ms[n]) {
      var a := TakenIsShared(front, ms[n]);
      assert false;
    }
  }

  lemma {:induction false} ApartLoadsValid(ms: seq<ProviderManifest>)
    requires AllLoaded(ms) && KeysApart(ms)
    ensures Valid(Load(ms))
  {
    hide Valid, LoadedManifest, ProviderKey, AddTo, KeysApart, Fits;
    if ms == [] {
      EmptyValid();
    } else {
      var n := |ms| - 1;
      ApartPrefix(ms);
      ApartLoadsValid(ms[..n]);
      var x := Load(ms[..n]);
      if ProviderKey(ms[n].providerID) in x.manifests {
        KnownChangesNothing(x, ms[n]);
      } else {
        LastFits(ms);
        AddedValid(x, ms[n]);
      }
    }
  }

  lemma KnownChangesNothing(x: Index, m: ProviderManifest)
    requires ProviderKey(m.providerID) in x.manifests
    ensures AddTo(x, m) == x
  {
  }

  lemma EmptyValid()
    ensures Valid(EMPTY_INDEX)
  {
  }

  /**
   The invariant over every run of AddManifest on loaded manifests: it holds in the end exactly
   when no two manifests of different providers share a profile key. Providers whose keys do not
   reach one another never do.
   */
  lemma LoadValid(ms: seq<ProviderManifest>)
    requires AllLoaded(ms)
    ensures Valid(Load(ms)) <==> KeysApart(ms)
    ensures KeysApart(ms) <== forall a, b :: 0 <= a < b < |ms| ==>
              Unreached(ProviderKey(ms[a].providerID), ProviderKey(ms[b].providerID))
  {
    hide LoadedManifest, ProviderKey, ProfileKey, Load, Unreached;
    if KeysApart(ms) {
      ApartLoadsValid(ms);
    }
    if Valid(Load(ms)) {
      forall a, b | 0 <= a < b < |ms| && Kept(ms, a) && Kept(ms, b) ensures Apart(ms[a], ms[b]) {
        KeptIsRegistered(ms, a);
        KeptIsRegistered(ms, b);
        forall i, j | 0 <= i < |ms[a].profiles| && 0 <= j < |ms[b].profiles|
          ensures KeyOf(ms[a], i) != KeyOf(ms[b], j)
        {
          OneEntryPerProfile(Load(ms), ProviderKey(ms[a].providerID), i, ProviderKey(ms[b].providerID), j);
        }
      }
    }
    if forall a, b :: 0 <= a < b < |ms| ==> Unreached(ProviderKey(ms[a].providerID), ProviderKey(ms[b].providerID)) {
      forall a, b | 0 <= a < b < |ms| && Kept(ms, a) && Kept(ms, b) ensures Apart(ms[a], ms[b]) {
        forall i, j | 0 <= i < |ms[a].profiles| && 0 <= j < |ms[b].profiles|
          ensures KeyOf(ms[a], i) != KeyOf(ms[b], j)
        {
          ProfileKeyInjective(ms[a].providerID, ms[a].profiles[i].id, ms[b].providerID, ms[b].profiles[j].id);
        }
      }
    }
  }

  // ------------------------------------------------------------------ loading

  function NormalizeAll(raw: seq<ProviderManifest>): (r: seq<ProviderManifest>)
    ensures |r| == |raw| && forall a :: 0 <= a < |raw| ==> r[a] == NormalizeManifest(raw[a])
  {
    seq(|raw|, a requires 0 <= a < |raw| => NormalizeManifest(raw[a]))
  }

  /** Valid manifests of different providers that share no profile key. */
  predicate Loadable(ms: seq<ProviderManifest>) {
    && (forall a :: 0 <= a < |ms| ==> ValidManifest(ms[a]))
    && (forall a, b :: 0 <= a < b < |ms| ==> ProviderKey(ms[a].providerID) != ProviderKey(ms[b].providerID))
    && (forall a, b :: 0 <= a < b < |ms| ==> Apart(ms[a], ms[b]))
  }

  /** LoadRegistryFromFiles on decoded files: any error gives up the whole registry, so what it returns is valid. */
  method LoadRegistryFromFiles(raw: seq<ProviderManifest>) returns (reg: Registry?)
    ensures reg != null <==> Loadable(NormalizeAll(raw))
    ensures reg != null ==> fresh(reg) && reg.State() == Load(NormalizeAll(raw)) && Valid(reg.State())
  {
    hide Valid, NormalizeManifest, ValidManifest, ProviderKey, AddTo, Apart, Fits;
    ghost var ms := NormalizeAll(raw);
    var r := new Registry();
    var i := 0;
    while i < |raw|
      invariant 0 <= i <= |raw|
      invariant fresh(r)
      invariant r.State() == Load(ms[..i]) && Valid(r.State())
      invariant Loadable(ms[..i])
    {
      var m := NormalizeAndValidate(raw[i]);
      if m.None? {
        return null;
      }
      LoadStep(ms, i);
      assert ms[..i + 1][..i] == ms[..i];
      var ok := r.AddManifest(m.value);
      if !ok {
        return null;
      }
      i := i + 1;
    }
    assert ms[..i] == ms;
    return r;
  }

  lemma LoadStep(ms: seq<ProviderManifest>, i: nat)
    requires i < |ms| && Loadable(ms[..i]) && Valid(Load(ms[..i])) && LoadedManifest(ms[i])
    ensures var x := Load(ms[..i]);
            && (ProviderKey(ms[i].providerID) !in x.manifests && Fits(x.byKey, ms[i]) <==> Loadable(ms[..i + 1]))
            && (Loadable(ms) ==> Loadable(ms[..i + 1]))
  {
    hide Valid, NormalizeManifest, ValidManifest, ProviderKey, Apart, Fits, Load;
    var front := ms[..i];
    var m := ms[i];
    var x := Load(front);
    LoadKeepsFirst(front);
    assert forall a :: 0 <= a < i ==> front[a] == ms[a] && Kept(front, a);
    if Fits(x.byKey, m) {
      forall a | 0 <= a < i ensures Apart(front[a], m) {
        FittingIsApart(front, m, a);
      }
    } else {
      var a := TakenIsShared(front, m);
    }
    assert forall a :: 0 <= a < i ==> ms[..i + 1][a] == front[a];
    assert ms[..i + 1][i] == m;
  }
}
