/**
 internal/domain/policy/accepted_provider_snapshot.go: freezing a registry profile into the
 snapshot a client persists, and what that snapshot still means when it is read back.
 */
module Assist {
  import opened Wrappers
  import opened Text
  import opened Sorting
  import opened Provider
  import opened Compatibility
  import opened Registry
  import opened Explore
  import opened PayloadHash

  datatype SnapshotChain = SnapshotChain(chainID: Int64, status: string, capabilities: seq<string>)

  datatype Snapshot = Snapshot(
    maturity: string, claimStatus: string, resultingPosture: string,
    inputRequirements: InputRequirements, signature: SignatureProfile, accountModel: AccountModel,
    constraints: ProfileConstraints, chainSupportUsed: seq<SnapshotChain>, references: seq<Reference>,
    acceptedFindings: seq<string>, acceptedRiskNotes: seq<string>)

  datatype AssistResult = AssistResult(ref: SolutionProfileRef, snapshot: Snapshot)

  datatype AssistError = RefIncomplete | ProviderNotAllowed | ProfileNotFound | ChainNotSupported | FindingsUnknown

  // ------------------------------------------------------------------ chains

  predicate Persistable(c: ChainSupport) {
    c.chainID > 0 && c.status != PLANNED && Trim(c.status) != ""
  }

  function Pin(c: ChainSupport): (r: SnapshotChain) {
    SnapshotChain(c.chainID, c.status, c.capabilities)
  }

  function Persistables(entries: seq<ChainSupport>): (r: seq<SnapshotChain>) {
    if entries == [] then []
    else
      var n := |entries| - 1;
      Persistables(entries[..n]) + (if Persistable(entries[n]) then [Pin(entries[n])] else [])
  }

  lemma {:induction false} PersistablesElements(entries: seq<ChainSupport>, s: SnapshotChain)
    ensures s in Persistables(entries) <==>
            exists i :: 0 <= i < |entries| && Persistable(entries[i]) && Pin(entries[i]) == s
  {
    hide Persistable, Pin;
    if entries == [] {
    } else {
      var n := |entries| - 1;
      PersistablesElements(entries[..n], s);
      assert forall i :: 0 <= i < n ==> entries[..n][i] == entries[i];
    }
  }

  predicate ByChainID(a: SnapshotChain, b: SnapshotChain) {
    a.chainID < b.chainID
  }

  /** The pinned chains are the deployable entries, by ascending chain id. */
  lemma PinnedChainsAre(entries: seq<ChainSupport>, chains: seq<SnapshotChain>)
    requires PinnedChains(entries, chains)
    ensures forall i, j :: 0 <= i < j < |chains| ==> chains[i].chainID <= chains[j].chainID
    ensures forall c :: c in chains <==>
              exists i :: 0 <= i < |entries| && entries[i].chainID > 0 && entries[i].status != "planned"
                       && Trim(entries[i].status) != ""
                          && c == SnapshotChain(entries[i].chainID, entries[i].status, entries[i].capabilities)
  {
    hide Trim, Persistables;
    SameElements(Persistables(entries), chains);
    forall c ensures c in chains
      <==> exists i :: 0 <= i < |entries| && Persistable(entries[i]) && Pin(entries[i]) == c {
      PersistablesElements(entries, c);
    }
  }

  /** Some ascending order of the persistable chains; the source sorts unstably. */
  ghost predicate PinnedChains(entries: seq<ChainSupport>, chains: seq<SnapshotChain>) {
    SortedVersion(ByChainID, Persistables(entries), chains)
  }

  method CollectPersistableChainSupport(entries: seq<ChainSupport>) returns (r: Option<seq<SnapshotChain>>)
    ensures r.None? <==> Persistables(entries) == []
    ensures r.Some? ==> PinnedChains(entries, r.value)
  {
    hide Trim, StableSort;
    var out: seq<SnapshotChain> := [];
    var i := 0;
    while i < |entries|
      invariant 0 <= i <= |entries|
      invariant out == Persistables(entries[..i])
    {
      assert entries[..i + 1][..i] == entries[..i];
      var cs := entries[i];
      if cs.chainID > 0 && cs.status != PLANNED && Trim(cs.status) != "" {
        out := out + [Pin(cs)];
      }
      i := i + 1;
    }
    assert entries[..i] == entries;
    if |out| == 0 {
      return None;
    }
    assert StrictWeakOrder(ByChainID);
    var sorted := SortSlice(ByChainID, out);
    return Some(sorted);
  }

  // ---------------------------------------------------------------- findings

  predicate KnownCode(code: string) {
    code == REQUIRES_BUNDLER || code == REQUIRES_LOCAL_SIGNER_STATE
  }

  predicate AllKnown(codes: seq<string>) {
    forall i :: 0 <= i < |codes| ==> KnownCode(codes[i])
  }

  function ProfileSoftCodes(p: SolutionProfile): (r: seq<string>) {
    SoftCodes(p.accountModel.requiresBundler, p.constraints.requiresLocalSignerState)
  }

  function MergedFindings(p: SolutionProfile, client: seq<string>): (r: seq<string>) {
    NormalizeFindings(TrimNonEmpty(client) + ProfileSoftCodes(p))
  }

  method MergeAssistAcceptedFindings(p: SolutionProfile, client: seq<string>) returns (r: Option<seq<string>>)
    ensures r.Some? <==> AllKnown(TrimNonEmpty(client))
    ensures r.Some? ==> r.value == MergedFindings(p, client)
  {
    hide Trim, NormalizeFindings, SoftCodes;
    var merged: seq<string> := [];
    var i := 0;
    while i < |client|
      invariant 0 <= i <= |client|
      invariant merged == TrimNonEmpty(client[..i])
      invariant AllKnown(merged)
    {
      assert client[..i + 1][..i] == client[..i];
      var code := Trim(client[i]);
      if code != "" {
        if !(code == REQUIRES_BUNDLER || code == REQUIRES_LOCAL_SIGNER_STATE) {
          UnknownStays(client, i);
          return None;
        }
        merged := merged + [code];
      }
      i := i + 1;
    }
    assert client[..i] == client;
    var soft := EvaluateSoftFindings(p);
    var out := NormalizeAcceptedFindings(merged + soft);
    return Some(out);
  }

  lemma {:induction false} UnknownStays(client: seq<string>, i: nat)
    requires i < |client| && Trim(client[i]) != "" && !KnownCode(Trim(client[i]))
    ensures !AllKnown(TrimNonEmpty(client))
  {
    hide Trim, KnownCode;
    var n := |client| - 1;
    if i < n {
      UnknownStays(client[..n], i);
      var front := TrimNonEmpty(client[..n]);
      var k :| 0 <= k < |front| && !KnownCode(front[k]);
      assert TrimNonEmpty(client)[k] == front[k];
    } else {
      var codes := TrimNonEmpty(client);
      assert codes[|codes| - 1] == Trim(client[n]);
    }
  }

  /** The merged findings always cover what the profile requires. */
  lemma MergedFindingsCover(p: SolutionProfile, client: seq<string>)
    ensures p.accountModel.requiresBundler ==> REQUIRES_BUNDLER in MergedFindings(p, client)
    ensures p.constraints.requiresLocalSignerState ==> REQUIRES_LOCAL_SIGNER_STATE in MergedFindings(p, client)
    ensures StrictlyAscending(Less, MergedFindings(p, client))
  {
    hide NormalizeFindings, TrimNonEmpty;
    NormalizeFindingsCanonical(TrimNonEmpty(client) + ProfileSoftCodes(p));
  }

  /** The merged findings are exactly the non-blank client codes and what the profile requires. */
  lemma MergedFindingsExact(p: SolutionProfile, client: seq<string>, x: string)
    ensures x in MergedFindings(p, client) <==>
            || (x != "" && exists i :: 0 <= i < |client| && Trim(client[i]) == x)
            || (x == "requires_bundler" && p.accountModel.requiresBundler)
            || (x == "requires_local_signer_state" && p.constraints.requiresLocalSignerState)
    ensures forall i, j :: 0 <= i < j < |MergedFindings(p, client)| ==>
              Precedes(MergedFindings(p, client)[i], MergedFindings(p, client)[j])
  {
    hide NormalizeFindings, TrimNonEmpty, Trim, Precedes, Less;
    NormalizeFindingsCanonical(TrimNonEmpty(client) + ProfileSoftCodes(p));
    TrimNonEmptyElements(client, x);
  }

  // ------------------------------------------------------------------ assist

  predicate ProviderAllowed(cp: CryptoPolicy, providerID: string) {
    exists i :: 0 <= i < |cp.allowedProviders| && Lower(Trim(cp.allowedProviders[i])) == Lower(Trim(providerID))
  }

  method ProviderAllowedByCryptoPolicy(cp: CryptoPolicy, providerID: string) returns (ok: bool)
    ensures ok <==> ProviderAllowed(cp, providerID)
  {
    hide Trim;
    var want := Lower(Trim(providerID));
    var i := 0;
    while i < |cp.allowedProviders|
      invariant 0 <= i <= |cp.allowedProviders|
      invariant forall k :: 0 <= k < i ==> Lower(Trim(cp.allowedProviders[k])) != want
    {
      if Lower(Trim(cp.allowedProviders[i])) == want {
        return true;
      }
      i := i + 1;
    }
    return false;
  }

  function TrimRef(ref: SolutionProfileRef): (r: SolutionProfileRef) {
    SolutionProfileRef(Trim(ref.providerID), Trim(ref.profileID), Trim(ref.manifestVersion), Trim(ref.verificationDate))
  }

  function LookupRef(ref: SolutionProfileRef): (r: ProfileRef) {
    ProfileRef(ref.providerID, ref.profileID, ref.manifestVersion)
  }

  /** The first check that fails, if any. */
  function AssistFailure(x: Index, cp: CryptoPolicy, raw: SolutionProfileRef,
                         client: seq<string>): (r: Option<AssistError>) {
    var ref := TrimRef(raw);
    if !ref.Complete() then Some(RefIncomplete)
    else if !ProviderAllowed(cp, ref.providerID) then Some(ProviderNotAllowed)
    else
      var found := LookupIn(x, LookupRef(ref));
      if found.None? then Some(ProfileNotFound)
      else if Persistables(found.value.profile.chainSupport) == [] then Some(ChainNotSupported)
      else if !AllKnown(TrimNonEmpty(client)) then Some(FindingsUnknown)
      else None
  }

  predicate AllowedEntryFor(cp: CryptoPolicy, key: string) {
    exists i :: 0 <= i < |cp.allowedProviders| && Lower(Trim(cp.allowedProviders[i])) == key
  }

  predicate SomeDeployableEntry(entries: seq<ChainSupport>) {
    exists i :: 0 <= i < |entries| && entries[i].chainID > 0 && entries[i].status != "planned"
      && Trim(entries[i].status) != ""
  }

  /** Which refusal assist gives: that of the first check that fails. */
  lemma AssistRefusals(x: Index, cp: CryptoPolicy, raw: SolutionProfileRef, client: seq<string>)
    ensures var r := AssistFailure(x, cp, raw, client);
            var complete := Trim(raw.providerID) != "" && Trim(raw.profileID) != "" && Trim(raw.manifestVersion) != "";
            var allowed := complete && AllowedEntryFor(cp, Lower(Trim(raw.providerID)));
            var found := LookupIn(x, ProfileRef(Trim(raw.providerID), Trim(raw.profileID), Trim(raw.manifestVersion)));
            var chains := allowed && found.Some? && SomeDeployableEntry(found.value.profile.chainSupport);
            var known := forall i :: 0 <= i < |client| && Trim(client[i]) != "" ==>
                           Trim(client[i]) == "requires_bundler" || Trim(client[i]) == "requires_local_signer_state";
            && (!complete ==> r == Some(RefIncomplete))
            && (complete && !allowed ==> r == Some(ProviderNotAllowed))
            && (allowed && found.None? ==> r == Some(ProfileNotFound))
            && (allowed && found.Some? && !chains ==> r == Some(ChainNotSupported))
            && (chains && !known ==> r == Some(FindingsUnknown))
            && (chains && known ==> r == None)
  {
    hide Trim, Lower, LookupIn, Persistables, TrimNonEmpty;
    KnownClients(client);
    var found := LookupIn(x, ProfileRef(Trim(raw.providerID), Trim(raw.profileID), Trim(raw.manifestVersion)));
    if found.Some? {
      SomePersistable(found.value.profile.chainSupport);
    }
  }

  lemma SomePersistable(entries: seq<ChainSupport>)
    ensures Persistables(entries) != [] <==> SomeDeployableEntry(entries)
  {
    hide Trim, Persistables;
    if Persistables(entries) != [] {
      PersistablesElements(entries, Persistables(entries)[0]);
    }
    if i :| 0 <= i < |entries| && Persistable(entries[i]) {
      PersistablesElements(entries, Pin(entries[i]));
    }
  }

  lemma KnownClients(client: seq<string>)
    ensures AllKnown(TrimNonEmpty(client)) <==>
            forall i :: 0 <= i < |client| && Trim(client[i]) != "" ==>
              Trim(client[i]) == "requires_bundler" || Trim(client[i]) == "requires_local_signer_state"
  {
    hide Trim, TrimNonEmpty;
    var t := TrimNonEmpty(client);
    forall i | 0 <= i < |client| && Trim(client[i]) != "" ensures Trim(client[i]) in t {
      TrimNonEmptyElements(client, Trim(client[i]));
    }
    forall k | 0 <= k < |t| ensures exists i :: 0 <= i < |client| && Trim(client[i]) != "" && Trim(client[i]) == t[k] {
      TrimNonEmptyElements(client, t[k]);
    }
  }

  /** The snapshot freezes this profile. */
  ghost predicate SnapshotOf(p: SolutionProfile, client: seq<string>, s: Snapshot) {
    && s == Snapshot(p.maturity, p.claimStatus, p.resultingPosture, p.inputRequirements, p.signature,
                     p.accountModel, p.constraints, s.chainSupportUsed, p.references,
                     MergedFindings(p, client), p.riskNotes)
    && PinnedChains(p.chainSupport, s.chainSupportUsed)
  }

  /** What a snapshot freezes, field by field. */
  lemma SnapshotReads(p: SolutionProfile, client: seq<string>, s: Snapshot)
    requires SnapshotOf(p, client, s)
    ensures s.maturity == p.maturity && s.claimStatus == p.claimStatus && s.resultingPosture == p.resultingPosture
    ensures s.inputRequirements == p.inputRequirements && s.signature == p.signature && s.accountModel == p.accountModel
    ensures s.constraints == p.constraints && s.references == p.references && s.acceptedRiskNotes == p.riskNotes
    ensures s.acceptedFindings == MergedFindings(p, client) && PinnedChains(p.chainSupport, s.chainSupportUsed)
  {
    hide MergedFindings, PinnedChains;
  }

  function ResultRef(rp: ResolvedProfile, raw: SolutionProfileRef): (r: SolutionProfileRef) {
    SolutionProfileRef(rp.providerID, rp.profile.id, rp.providerVersion, Trim(raw.verificationDate))
  }

  /** The answers assist may give; only the order of tied chains is left open. */
  ghost predicate AssistAnswers(x: Index, cp: CryptoPolicy, raw: SolutionProfileRef, client: seq<string>,
                                r: Result<AssistResult, AssistError>) {
    match r
    case Err(e) => AssistFailure(x, cp, raw, client) == Some(e)
    case Ok(a) =>
      && AssistFailure(x, cp, raw, client) == None
      && FreezesProfile(LookupIn(x, LookupRef(TrimRef(raw))), raw, client, a)
  }

  ghost predicate FreezesProfile(found: Option<ResolvedProfile>, raw: SolutionProfileRef, client: seq<string>,
                                 a: AssistResult) {
    && found.Some?
    && a.ref == ResultRef(found.value, raw)
    && SnapshotOf(found.value.profile, client, a.snapshot)
  }

  /** A nil registry finds nothing, as the empty index does. */
  method BuildAcceptedProviderSnapshot(reg: Registry?, cp: CryptoPolicy, raw: SolutionProfileRef, client: seq<string>)
    returns (r: Result<AssistResult, AssistError>)
    ensures AssistAnswers(if reg == null then EMPTY_INDEX else reg.State(), cp, raw, client, r)
  {
    hide Trim, ProviderAllowed, PinnedChains, Persistables, AllKnown, MergedFindings, LookupIn;
    var ref := TrimRef(raw);
    if !ref.Complete() {
      return Err(RefIncomplete);
    }
    var allowed := ProviderAllowedByCryptoPolicy(cp, ref.providerID);
    if !allowed {
      return Err(ProviderNotAllowed);
    }
    if reg == null {
      EmptyFindsNothing(LookupRef(ref));
      return Err(ProfileNotFound);
    }
    var found := reg.Lookup(LookupRef(ref));
    if found.None? {
      return Err(ProfileNotFound);
    }
    var p := found.value.profile;
    var chains := CollectPersistableChainSupport(p.chainSupport);
    if chains.None? {
      return Err(ChainNotSupported);
    }
    var findings := MergeAssistAcceptedFindings(p, client);
    if findings.None? {
      return Err(FindingsUnknown);
    }
    var snapshot := Snapshot(p.maturity, p.claimStatus, p.resultingPosture, p.inputRequirements, p.signature,
      p.accountModel, p.constraints, chains.value, p.references, findings.value, p.riskNotes);
    return Ok(AssistResult(ResultRef(found.value, raw), snapshot));
  }

  lemma EmptyFindsNothing(ref: ProfileRef)
    ensures LookupIn(EMPTY_INDEX, ref).None?
  {
  }

  // ----------------------------------------------- whose profiles assist freezes

  /** The answer is pinned to the version asked for, and to the profile that version of the reference names. */
  lemma AnswerKeepsReference(x: Index, cp: CryptoPolicy, raw: SolutionProfileRef, client: seq<string>, a: AssistResult)
    returns (k: string, i: nat)
    requires Valid(x) && AssistAnswers(x, cp, raw, client, Ok(a))
    ensures a.ref.manifestVersion == Trim(raw.manifestVersion) && a.ref.manifestVersion != ""
    ensures a.ref.verificationDate == Trim(raw.verificationDate)
    ensures Names(x, raw.providerID, raw.profileID, raw.manifestVersion, k, i)
    ensures a.ref.providerID == x.manifests[k].providerID && a.ref.profileID == x.manifests[k].profiles[i].id
    ensures a.ref.manifestVersion == x.manifests[k].providerVersion
    ensures SnapshotOf(x.manifests[k].profiles[i], client, a.snapshot)
  {
    hide Valid, LookupIn, Persistables, AllKnown, SnapshotOf, Trim, Lower, ProviderAllowed, Names;
    var ref := TrimRef(raw);
    LookupAnswers(x, ref.providerID, ref.profileID, ref.manifestVersion);
    k, i :| Names(x, ref.providerID, ref.profileID, ref.manifestVersion, k, i);
    SameNames(x, raw, k, i);
  }

  lemma SameNames(x: Index, raw: SolutionProfileRef, k: string, i: nat)
    requires Names(x, Trim(raw.providerID), Trim(raw.profileID), Trim(raw.manifestVersion), k, i)
    ensures Names(x, raw.providerID, raw.profileID, raw.manifestVersion, k, i)
    ensures Trim(raw.manifestVersion) != "" ==> Trim(raw.manifestVersion) == x.manifests[k].providerVersion
  {
    hide Trim, Lower;
  }

  /** A reference to provider p can name profile i of manifest k, and that profile can be frozen. */
  predicate Freezable(x: Index, p: string, k: string, i: nat)
    requires k in x.manifests && i < |x.manifests[k].profiles|
  {
    && Continues(ProviderKey(p), KeyOf(x.manifests[k], i))
    && |KeyOf(x.manifests[k], i)| > |ProviderKey(p)| + 1
    && Persistables(x.manifests[k].profiles[i].chainSupport) != []
  }

  lemma FrozenIsFreezable(x: Index, cp: CryptoPolicy, raw: SolutionProfileRef, client: seq<string>, a: AssistResult)
    returns (k: string, i: nat)
    requires Valid(x) && AssistAnswers(x, cp, raw, client, Ok(a))
    ensures k in x.manifests && i < |x.manifests[k].profiles| && Freezable(x, raw.providerID, k, i)
    ensures a.ref.providerID == x.manifests[k].providerID
    ensures SnapshotOf(x.manifests[k].profiles[i], client, a.snapshot)
    ensures Trim(raw.providerID) != "" && ProviderAllowed(cp, raw.providerID)
  {
    hide Valid, LookupIn, ProfileKey, KeyOf, Persistables, AllKnown, SnapshotOf, Trim, Lower;
    var ref := TrimRef(raw);
    k, i := FoundAt(x, LookupRef(ref));
    KeyContinues(ref.providerID, ref.profileID);
    assert ProviderKey(ref.providerID) == ProviderKey(raw.providerID);
    assert ref.profileID != "" && Trim(ref.profileID) == ref.profileID;
  }

  /** The reference that names a freezable profile, and what Lookup answers to it. */
  lemma FreezableIsFound(x: Index, p: string, k: string, i: nat) returns (raw: SolutionProfileRef)
    requires Valid(x) && Trim(p) != ""
    requires k in x.manifests && i < |x.manifests[k].profiles| && Freezable(x, p, k, i)
    ensures raw.providerID == p && TrimRef(raw).Complete()
    ensures var found := LookupIn(x, LookupRef(TrimRef(raw)));
            found.Some? && found.value.(erroneous := false) == Entry(x.manifests[k], i)
  {
    hide ProfileKey, KeyOf, Persistables, Trim, Lower, LoadedManifest;
    var m := x.manifests[k];
    var full := KeyOf(m, i);
    var s := full[|ProviderKey(p)| + 1..];
    assert LoadedAt(x, k);
    LoadedVersion(m);
    assert Indexes(x.byKey, m, i);
    raw := SolutionProfileRef(p, s, m.providerVersion, "");
    assert ProviderKey(Trim(p)) == ProviderKey(p);
    ContinuedKey(Trim(p), full);
  }

  lemma FreezableIsFrozen(x: Index, cp: CryptoPolicy, p: string, k: string, i: nat)
    returns (raw: SolutionProfileRef, a: AssistResult)
    requires Valid(x) && Trim(p) != "" && ProviderAllowed(cp, p)
    requires k in x.manifests && i < |x.manifests[k].profiles| && Freezable(x, p, k, i)
    ensures raw.providerID == p && AssistAnswers(x, cp, raw, [], Ok(a))
    ensures a.ref.providerID == x.manifests[k].providerID
    ensures SnapshotOf(x.manifests[k].profiles[i], [], a.snapshot)
  {
    hide Valid, LookupIn, KeyOf, Continues, Persistables, MergedFindings, Trim, Lower, StableSort;
    raw := FreezableIsFound(x, p, k, i);
    var rp := LookupIn(x, LookupRef(TrimRef(raw))).value;
    assert rp.profile == x.manifests[k].profiles[i];
    var all := Persistables(rp.profile.chainSupport);
    assert StrictWeakOrder(ByChainID);
    StableSortAscending(ByChainID, all);
    a := AssistResult(ResultRef(rp, raw), FrozenWith(rp.profile, StableSort(ByChainID, all)));
    assert ProviderAllowed(cp, Trim(p));
  }

  function FrozenWith(p: SolutionProfile, chains: seq<SnapshotChain>): (r: Snapshot) {
    Snapshot(p.maturity, p.claimStatus, p.resultingPosture, p.inputRequirements, p.signature,
      p.accountModel, p.constraints, chains, p.references, MergedFindings(p, []), p.riskNotes)
  }

  lemma LoadedVersion(m: ProviderManifest)
    requires LoadedManifest(m)
    ensures m.providerVersion != "" && Trim(m.providerVersion) == m.providerVersion
  {
    hide Trim, NormalizeProfiles, ValidProfile;
  }

  /** Asked for this provider, assist only ever freezes profiles of providers the policy allows. */
  ghost predicate FreezesAllowedFor(x: Index, cp: CryptoPolicy, p: string) {
    forall raw: SolutionProfileRef, client: seq<string>, a: AssistResult ::
      raw.providerID == p && AssistAnswers(x, cp, raw, client, Ok(a)) ==> ProviderAllowed(cp, a.ref.providerID)
  }

  predicate FreezableAllowed(x: Index, cp: CryptoPolicy, p: string) {
    forall k, i :: k in x.manifests && 0 <= i < |x.manifests[k].profiles| && Freezable(x, p, k, i) ==>
      ProviderAllowed(cp, x.manifests[k].providerID)
  }

  /** For an allowed provider that is so exactly when every profile its references can reach is of an allowed one. */
  lemma FreezesAllowedExact(x: Index, cp: CryptoPolicy, p: string)
    requires Valid(x)
    ensures FreezesAllowedFor(x, cp, p) <==> (Trim(p) != "" && ProviderAllowed(cp, p) ==> FreezableAllowed(x, cp, p))
    ensures NoForeignKey(x, p) ==> FreezesAllowedFor(x, cp, p)
  {
    hide Valid, AssistAnswers, Freezable, ProviderAllowed, SnapshotOf, Trim, NoForeignKey;
    if Trim(p) != "" && ProviderAllowed(cp, p) ==> FreezableAllowed(x, cp, p) {
      forall raw: SolutionProfileRef, client: seq<string>, a: AssistResult
        | raw.providerID == p && AssistAnswers(x, cp, raw, client, Ok(a))
        ensures ProviderAllowed(cp, a.ref.providerID)
      {
        var k, i := FrozenIsFreezable(x, cp, raw, client, a);
      }
    } else {
      var k, i :| k in x.manifests && 0 <= i < |x.manifests[k].profiles| && Freezable(x, p, k, i)
                  && !ProviderAllowed(cp, x.manifests[k].providerID);
      var raw, a := FreezableIsFrozen(x, cp, p, k, i);
    }
    if NoForeignKey(x, p) && ProviderAllowed(cp, p) {
      OwnKeysAllowed(x, cp, p);
    }
  }

  lemma OwnKeysAllowed(x: Index, cp: CryptoPolicy, p: string)
    requires Valid(x) && NoForeignKey(x, p) && ProviderAllowed(cp, p)
    ensures FreezableAllowed(x, cp, p)
  {
    hide LoadedManifest, KeyOf, Continues, Persistables, Trim, Lower;
    assert forall k :: k in x.manifests && k == ProviderKey(p) ==>
             ProviderKey(x.manifests[k].providerID) == Lower(Trim(p));
  }

  /** Whatever assist is asked for under this policy. */
  ghost predicate FreezesOnlyAllowed(x: Index, cp: CryptoPolicy) {
    forall raw: SolutionProfileRef, client: seq<string>, a: AssistResult ::
      AssistAnswers(x, cp, raw, client, Ok(a)) ==> ProviderAllowed(cp, a.ref.providerID)
  }

  /** Assist stays within the policy exactly when the profiles reachable from each allowed entry do. */
  lemma FreezesOnlyAllowedExact(x: Index, cp: CryptoPolicy)
    requires Valid(x)
    ensures FreezesOnlyAllowed(x, cp) <==>
            forall j :: 0 <= j < |cp.allowedProviders| && Trim(cp.allowedProviders[j]) != "" ==>
              FreezableAllowed(x, cp, cp.allowedProviders[j])
  {
    hide Valid, AssistAnswers, Freezable, ProviderAllowed, SnapshotOf, Trim;
    if FreezesOnlyAllowed(x, cp) {
      forall j | 0 <= j < |cp.allowedProviders| && Trim(cp.allowedProviders[j]) != ""
        ensures FreezableAllowed(x, cp, cp.allowedProviders[j])
      {
        EntryAllowed(cp, j);
        FreezesAllowedExact(x, cp, cp.allowedProviders[j]);
      }
    } else {
      var raw: SolutionProfileRef, client: seq<string>, a: AssistResult :|
        AssistAnswers(x, cp, raw, client, Ok(a)) && !ProviderAllowed(cp, a.ref.providerID);
      var k, i := FrozenIsFreezable(x, cp, raw, client, a);
      var j := AllowedEntry(cp, raw.providerID);
      SameFreezable(x, raw.providerID, cp.allowedProviders[j], k, i);
      assert !FreezableAllowed(x, cp, cp.allowedProviders[j]);
    }
  }

  lemma EntryAllowed(cp: CryptoPolicy, j: nat)
    requires j < |cp.allowedProviders|
    ensures ProviderAllowed(cp, cp.allowedProviders[j])
  {
    hide Trim, Lower;
  }

  lemma AllowedEntry(cp: CryptoPolicy, p: string) returns (j: nat)
    requires ProviderAllowed(cp, p) && Trim(p) != ""
    ensures j < |cp.allowedProviders| && ProviderKey(cp.allowedProviders[j]) == ProviderKey(p)
    ensures Trim(cp.allowedProviders[j]) != ""
  {
    hide Trim;
    j :| 0 <= j < |cp.allowedProviders| && Lower(Trim(cp.allowedProviders[j])) == Lower(Trim(p));
    assert |Trim(cp.allowedProviders[j])| == |Lower(Trim(p))| == |Trim(p)|;
  }

  lemma SameFreezable(x: Index, p: string, q: string, k: string, i: nat)
    requires k in x.manifests && i < |x.manifests[k].profiles| && ProviderKey(p) == ProviderKey(q)
    ensures Freezable(x, p, k, i) <==> Freezable(x, q, k, i)
  {
    hide ProviderKey, KeyOf, Continues, Persistables;
  }

  // -------------------------------------------------- what the snapshot means

  function Unpin(s: SnapshotChain): (r: ChainSupport) {
    ChainSupport(s.chainID, "", s.status, s.capabilities)
  }

  function Unpins(chains: seq<SnapshotChain>): (r: seq<ChainSupport>)
    ensures |r| == |chains| && forall i :: 0 <= i < |chains| ==> r[i] == Unpin(chains[i])
  {
    seq(|chains|, i requires 0 <= i < |chains| => Unpin(chains[i]))
  }

  /** snapshotAsProfile: the profile the persist gate replays against. */
  function SnapshotAsProfile(profileID: string, s: Snapshot): (r: SolutionProfile) {
    SolutionProfile(profileID, "", s.maturity, s.claimStatus, s.resultingPosture, s.inputRequirements, s.signature,
      s.accountModel, s.constraints, None, Unpins(s.chainSupportUsed), s.references, [])
  }

  /** What the replayed profile shows, field by field. */
  lemma SnapshotAsProfileReads(profileID: string, s: Snapshot)
    ensures var p := SnapshotAsProfile(profileID, s);
            && p.id == profileID && p.maturity == s.maturity && p.claimStatus == s.claimStatus
            && p.resultingPosture == s.resultingPosture && p.inputRequirements == s.inputRequirements
            && p.signature == s.signature && p.accountModel == s.accountModel && p.constraints == s.constraints
            && p.references == s.references && p.displayName == "" && p.suggested == None && p.riskNotes == []
            && |p.chainSupport| == |s.chainSupportUsed|
            && forall i :: 0 <= i < |s.chainSupportUsed| ==>
                 && p.chainSupport[i].chainID == s.chainSupportUsed[i].chainID && p.chainSupport[i].network == ""
                 && p.chainSupport[i].status == s.chainSupportUsed[i].status
                 && p.chainSupport[i].capabilities == s.chainSupportUsed[i].capabilities
  {
  }

  predicate ValidChains(cs: seq<ChainSupport>) {
    forall i :: 0 <= i < |cs| ==> ValidChain(cs[i])
  }

  predicate DistinctChains(cs: seq<ChainSupport>) {
    forall i, j :: 0 <= i < j < |cs| ==> cs[i].chainID != cs[j].chainID
  }

  function RequiredCaps(p: SolutionProfile): (r: seq<string>) {
    MinimumCapabilities(p.signature.keyRotationModel)
  }

  /** Entry j and the entry a first-match lookup of its chain id returns give the same verdict. */
  predicate AgreesWithFirst(p: SolutionProfile, j: nat)
    requires j < |p.chainSupport|
  {
    var first := FindChain(p.chainSupport, p.chainSupport[j].chainID);
    && first.Some?
    && first.value.status != PLANNED
    && (HasCapabilities(first.value.capabilities, RequiredCaps(p)) <==>
        HasCapabilities(p.chainSupport[j].capabilities, RequiredCaps(p)))
  }

  /** No deployable entry is shadowed by an earlier entry of the same chain with another verdict. */
  predicate NothingShadowed(p: SolutionProfile) {
    forall j :: 0 <= j < |p.chainSupport| && p.chainSupport[j].status != PLANNED ==> AgreesWithFirst(p, j)
  }

  lemma {:induction false} FindDistinct(cs: seq<ChainSupport>, j: nat)
    requires DistinctChains(cs) && j < |cs|
    ensures FindChain(cs, cs[j].chainID) == Some(cs[j])
  {
    if j == 0 {
    } else {
      FindDistinct(cs[1..], j - 1);
    }
  }

  lemma DistinctNothingShadowed(p: SolutionProfile)
    requires DistinctChains(p.chainSupport)
    ensures NothingShadowed(p)
  {
    hide FindChain, HasCapabilities;
    forall j | 0 <= j < |p.chainSupport| && p.chainSupport[j].status != PLANNED ensures AgreesWithFirst(p, j) {
      FindDistinct(p.chainSupport, j);
    }
  }

  lemma ValidIsPersistable(c: ChainSupport)
    requires ValidChain(c)
    ensures Persistable(c) <==> c.status != PLANNED
  {
    hide Trim;
    assert Trimmed("testnet_supported") && Trimmed("production_supported");
  }

  /** A chain found in the pinned list is a deployable entry of the profile. */
  lemma PinnedFound(p: SolutionProfile, chains: seq<SnapshotChain>, chainID: int) returns (j: nat)
    requires ValidChains(p.chainSupport) && PinnedChains(p.chainSupport, chains)
    requires FindChain(Unpins(chains), chainID).Some?
    ensures j < |p.chainSupport| && p.chainSupport[j].chainID == chainID && p.chainSupport[j].status != PLANNED
    ensures FindChain(Unpins(chains), chainID).value == Unpin(Pin(p.chainSupport[j]))
  {
    hide FindChain, Persistables, Trim, ValidChain;
    var u := FindChain(Unpins(chains), chainID).value;
    var i :| 0 <= i < |chains| && Unpins(chains)[i] == u;
    SameElements(Persistables(p.chainSupport), chains);
    assert chains[i] in Persistables(p.chainSupport);
    PersistablesElements(p.chainSupport, chains[i]);
    j :| 0 <= j < |p.chainSupport| && Persistable(p.chainSupport[j]) && Pin(p.chainSupport[j]) == chains[i];
  }

  /** Every deployable entry of the profile is found in the pinned list. */
  lemma DeployablePinned(p: SolutionProfile, chains: seq<SnapshotChain>, j: nat)
    requires ValidChains(p.chainSupport) && PinnedChains(p.chainSupport, chains)
    requires j < |p.chainSupport| && p.chainSupport[j].status != PLANNED
    ensures FindChain(Unpins(chains), p.chainSupport[j].chainID).Some?
  {
    hide Persistables, Trim, ValidChain;
    ValidIsPersistable(p.chainSupport[j]);
    SameElements(Persistables(p.chainSupport), chains);
    PersistablesElements(p.chainSupport, Pin(p.chainSupport[j]));
    assert Pin(p.chainSupport[j]) in chains;
    var i :| 0 <= i < |chains| && chains[i] == Pin(p.chainSupport[j]);
    assert Unpins(chains)[i].chainID == p.chainSupport[j].chainID;
  }

  lemma SameVerdicts(p: SolutionProfile, q: SolutionProfile, chains: seq<SnapshotChain>, chainID: int)
    requires ValidChains(p.chainSupport) && NothingShadowed(p)
    requires PinnedChains(p.chainSupport, chains)
    requires q.chainSupport == Unpins(chains) && q.signature == p.signature
    ensures Deployable(q, chainID) == Deployable(p, chainID)
    ensures Capable(q, chainID) == Capable(p, chainID)
  {
    hide FindChain, HasCapabilities, PinnedChains, MinimumCapabilities, ValidChain;
    var f := FindChain(p.chainSupport, chainID);
    var g := FindChain(q.chainSupport, chainID);
    if g.Some? {
      var j := PinnedFound(p, chains, chainID);
      assert AgreesWithFirst(p, j);
    } else if f.Some? && f.value.status != PLANNED {
      var j :| 0 <= j < |p.chainSupport| && p.chainSupport[j] == f.value;
      DeployablePinned(p, chains, j);
      assert false;
    }
  }

  /**
   Dropping planned chains, sorting and rebuilding gives exactly the couche A findings of the
   original profile, for every scan and posture.
   */
  lemma SnapshotPreservesMeaning(p: SolutionProfile, client: seq<string>, s: Snapshot, profileID: string,
                                 obs: Observation, required: string)
    requires ValidChains(p.chainSupport) && NothingShadowed(p)
    requires SnapshotOf(p, client, s)
    ensures ScanFindings(obs, required, SnapshotAsProfile(profileID, s)) == ScanFindings(obs, required, p)
  {
    hide Deployable, Capable, PinnedChains, NothingShadowed, ValidChains, WalletTypeAccepted, Trim, MergedFindings;
    var q := SnapshotAsProfile(profileID, s);
    forall i | 0 <= i < |obs.chainIDs|
      ensures Deployable(q, obs.chainIDs[i]) == Deployable(p, obs.chainIDs[i])
      ensures Capable(q, obs.chainIDs[i]) == Capable(p, obs.chainIDs[i])
    {
      SameVerdicts(p, q, s.chainSupportUsed, obs.chainIDs[i]);
    }
  }

  // ------------------------------------------------------- the exact condition

  /** The findings of a scan of a single chain tell its verdict. */
  lemma SingleChainVerdict(p: SolutionProfile, q: SolutionProfile, required: string, kind: string, chainID: Int64)
    requires chainID > 0
    requires ScanFindings(Observation(kind, [chainID]), required, p)
             == ScanFindings(Observation(kind, [chainID]), required, q)
    requires q.resultingPosture == p.resultingPosture && q.inputRequirements == p.inputRequirements
    ensures Deployable(p, chainID) == Deployable(q, chainID)
    ensures Capable(p, chainID) == Capable(q, chainID)
  {
    hide Deployable, WalletTypeAccepted, Trim, HasCapabilities, MinimumCapabilities;
    var obs := Observation(kind, [chainID]);
    var head := PostureFindings(required, p) + WalletFindings(obs, p);
    assert ScanFindings(obs, required, p)[|head|..] == ScanChainFindings([chainID], p);
    assert ScanFindings(obs, required, q)[|head|..] == ScanChainFindings([chainID], q);
    assert [chainID][0] == chainID;
    assert Constrained([chainID]);
    assert SomeDeployable(p, [chainID]) <==> Deployable(p, chainID);
    assert SomeDeployable(q, [chainID]) <==> Deployable(q, chainID);
    assert SomeCapable(p, [chainID]) <==> Capable(p, chainID);
    assert SomeCapable(q, [chainID]) <==> Capable(q, chainID);
  }

  lemma FindCons(e: SnapshotChain, rest: seq<SnapshotChain>, chainID: int)
    ensures FindChain(Unpins([e] + rest), chainID) ==
            if e.chainID == chainID then Some(Unpin(e)) else FindChain(Unpins(rest), chainID)
  {
    assert Unpins([e] + rest)[0] == Unpin(e);
    assert Unpins([e] + rest)[1..] == Unpins(rest);
  }

  /** A first-match lookup finds the first entry that ties with one of its chain id. */
  lemma {:induction false} FindIsFirstTied(s: seq<SnapshotChain>, e: SnapshotChain)
    ensures FindChain(Unpins(s), e.chainID) ==
            match FirstTied(ByChainID, s, e)
            case None => None
            case Some(c) => Some(Unpin(c))
  {
    if s == [] {
      assert Unpins(s) == [];
    } else {
      FindIsFirstTied(s[1..], e);
      FindCons(s[0], s[1..], e.chainID);
      assert s == [s[0]] + s[1..];
    }
  }

  lemma FindsHeld(s: seq<SnapshotChain>, chainID: int)
    ensures FindChain(Unpins(s), chainID).Some? <==> exists i :: 0 <= i < |s| && s[i].chainID == chainID
  {
    hide FindChain;
    assert forall i :: 0 <= i < |s| ==> Unpins(s)[i].chainID == s[i].chainID;
  }

  /** A stable sort leaves the first entry of a chain id first. */
  lemma SortKeepsFirst(s: seq<SnapshotChain>, chainID: int)
    ensures FindChain(Unpins(StableSort(ByChainID, s)), chainID) == FindChain(Unpins(s), chainID)
  {
    hide FindChain, StableSort, FirstTied, Unpins;
    var sorted := StableSort(ByChainID, s);
    FindsHeld(s, chainID);
    FindsHeld(sorted, chainID);
    StableSortPermutes(ByChainID, s);
    if i :| 0 <= i < |s| && s[i].chainID == chainID {
      assert StrictWeakOrder(ByChainID);
      StableSortKeepsFirstTied(ByChainID, s, s[i]);
      FindIsFirstTied(s, s[i]);
      FindIsFirstTied(sorted, s[i]);
    } else {
      assert forall i :: 0 <= i < |sorted| ==> sorted[i] in s;
    }
  }

  /** Some order an unstable sort may produce puts a chosen persistable entry first among its chain id. */
  lemma ChosenFirst(entries: seq<ChainSupport>, j: nat) returns (chains: seq<SnapshotChain>)
    requires j < |entries| && Persistable(entries[j])
    ensures PinnedChains(entries, chains)
    ensures FindChain(Unpins(chains), entries[j].chainID) == Some(Unpin(Pin(entries[j])))
  {
    hide Persistable, FindChain, Persistables, StableSort;
    var all := Persistables(entries);
    var e := Pin(entries[j]);
    PersistablesElements(entries, e);
    assert e in all;
    var k :| 0 <= k < |all| && all[k] == e;
    var front := [e] + (all[..k] + all[k + 1..]);
    assert all == all[..k] + [e] + all[k + 1..];
    assert multiset(front) == multiset(all);
    chains := StableSort(ByChainID, front);
    assert StrictWeakOrder(ByChainID);
    StableSortAscending(ByChainID, front);
    SortKeepsFirst(front, e.chainID);
    FindHead(front, e.chainID);
  }

  lemma FindHead(s: seq<SnapshotChain>, chainID: int)
    requires s != [] && s[0].chainID == chainID
    ensures FindChain(Unpins(s), chainID) == Some(Unpin(s[0]))
  {
    assert Unpins(s)[0] == Unpin(s[0]);
  }

  /**
   The condition is exact: if some deployable entry is shadowed, one of the orders the sort may
   choose and a scan of that one chain tell the snapshot from the profile.
   */
  lemma ShadowedChangesMeaning(p: SolutionProfile, profileID: string, required: string, kind: string)
    returns (chains: seq<SnapshotChain>, chainID: Int64)
    requires ValidChains(p.chainSupport) && !NothingShadowed(p)
    ensures PinnedChains(p.chainSupport, chains)
    ensures forall s: Snapshot :: SnapshotOf(p, [], s) && s.chainSupportUsed == chains ==>
              ScanFindings(Observation(kind, [chainID]), required, SnapshotAsProfile(profileID, s))
              != ScanFindings(Observation(kind, [chainID]), required, p)
  {
    hide FindChain, HasCapabilities, ScanFindings, PinnedChains, MinimumCapabilities, Trim, MergedFindings;
    var j :| 0 <= j < |p.chainSupport| && p.chainSupport[j].status != PLANNED && !AgreesWithFirst(p, j);
    ValidIsPersistable(p.chainSupport[j]);
    chains := ChosenFirst(p.chainSupport, j);
    chainID := p.chainSupport[j].chainID;
    forall s: Snapshot | SnapshotOf(p, [], s) && s.chainSupportUsed == chains
      ensures ScanFindings(Observation(kind, [chainID]), required, SnapshotAsProfile(profileID, s))
              != ScanFindings(Observation(kind, [chainID]), required, p)
    {
      var q := SnapshotAsProfile(profileID, s);
      assert Deployable(q, chainID);
      assert Capable(q, chainID) <==> HasCapabilities(p.chainSupport[j].capabilities, RequiredCaps(p));
      if ScanFindings(Observation(kind, [chainID]), required, q)
        == ScanFindings(Observation(kind, [chainID]), required, p) {
        SingleChainVerdict(p, q, required, kind, chainID);
        assert false;
      }
    }
  }

  /** Every snapshot assist may build of this profile reads back with the profile's own couche A findings. */
  ghost predicate MeaningPreserved(p: SolutionProfile) {
    forall client: seq<string>, s: Snapshot, profileID: string, obs: Observation, required: string
      {:trigger SnapshotOf(p, client, s), ScanFindings(obs, required, SnapshotAsProfile(profileID, s))} ::
      SnapshotOf(p, client, s) ==>
        ScanFindings(obs, required, SnapshotAsProfile(profileID, s)) == ScanFindings(obs, required, p)
  }

  /** Freezing a profile preserves its meaning exactly when no deployable entry is shadowed. */
  lemma SnapshotMeaningExact(p: SolutionProfile)
    requires ValidChains(p.chainSupport)
    ensures MeaningPreserved(p) <==> NothingShadowed(p)
  {
    hide ScanFindings, NothingShadowed, PinnedChains, ValidChains, MergedFindings, SnapshotAsProfile;
    if NothingShadowed(p) {
      forall client: seq<string>, s: Snapshot, profileID: string, obs: Observation, required: string
        | SnapshotOf(p, client, s)
        ensures ScanFindings(obs, required, SnapshotAsProfile(profileID, s)) == ScanFindings(obs, required, p)
      {
        SnapshotPreservesMeaning(p, client, s, profileID, obs, required);
      }
    } else {
      var chains, chainID := ShadowedChangesMeaning(p, "", "", "");
      var s := Snapshot(p.maturity, p.claimStatus, p.resultingPosture, p.inputRequirements, p.signature,
                        p.accountModel, p.constraints, chains, p.references, MergedFindings(p, []), p.riskNotes);
      assert SnapshotOf(p, [], s);
      assert ScanFindings(Observation("", [chainID]), "", SnapshotAsProfile("", s))
        != ScanFindings(Observation("", [chainID]), "", p);
    }
  }
}
