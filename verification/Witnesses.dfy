/**
 Concrete manifests the loader accepts, one for each condition of the exact theorems: what the
 code does with them shows that none of those conditions holds of every input.
 */
module Witnesses {
  import opened Wrappers
  import opened Text
  import opened Sorting
  import opened Provider
  import opened Compatibility
  import opened Registry
  import opened Explore
  import opened Assist
  import opened Catalogue

  // ------------------------------------------------------------------ samples

  const CAPABLE: seq<string> := ["deploy", "sign_userop"]
  const PLANNED_CHAIN: ChainSupport := ChainSupport(1, "mainnet", "planned", [])
  const READY_CHAIN: ChainSupport := ChainSupport(1, "mainnet", "testnet_supported", CAPABLE)

  function SampleProfile(id: string, chains: seq<ChainSupport>): (r: SolutionProfile) {
    SolutionProfile(id, "Sample", "testnet", "declared", "hybrid", InputRequirements(["eoa"], true),
      SignatureProfile("ml_dsa", "lattice", "none"), AccountModel("erc4337", "userop", false, true, []),
      ProfileConstraints(false, true, false), None, chains, [], [])
  }

  function Sample(providerID: string, profileID: string, chains: seq<ChainSupport>): (r: ProviderManifest) {
    ProviderManifest(MANIFEST_SCHEMA, providerID, "Sample", "1", "testnet", "", [SampleProfile(profileID, chains)])
  }

  function SamplePolicy(entries: seq<string>): (r: CryptoPolicy) {
    CryptoPolicy("P1", "Sample", "1", "", "hybrid", entries)
  }

  lemma SamplePolicyLoaded(entries: seq<string>)
    requires entries != [] && forall i :: 0 <= i < |entries| ==> entries[i] != "" && Trimmed(entries[i])
    ensures LoadedPolicy(SamplePolicy(entries))
  {
    hide Trim;
    assert Trimmed("P1") && |"P1"| == 2 && |"Sample"| == 6;
    assert POSTURES[1] == "hybrid";
    assert forall i :: 0 <= i < |entries| ==> Trim(entries[i]) == entries[i];
  }

  lemma ChainsLoaded()
    ensures ValidChain(PLANNED_CHAIN) && NormalizeChain(PLANNED_CHAIN) == PLANNED_CHAIN
    ensures ValidChain(READY_CHAIN) && NormalizeChain(READY_CHAIN) == READY_CHAIN
  {
    hide Trim;
    assert Trimmed("mainnet") && Trimmed("planned") && Trimmed("testnet_supported");
    assert CHAIN_STATUSES[0] == "testnet_supported" && CHAIN_STATUSES[1] == "planned";
    assert "deploy"[0] == 'd' && "sign_userop"[0] == 's';
    DedupeFixed(CAPABLE);
    DedupeFixed([]);
  }

  /** Every sample is a manifest the loader accepts as it stands. */
  lemma SampleLoaded(providerID: string, profileID: string, chains: seq<ChainSupport>)
    requires providerID != "" && Trimmed(providerID) && profileID != "" && Trimmed(profileID)
    requires chains != [] && forall i :: 0 <= i < |chains| ==> chains[i] == PLANNED_CHAIN || chains[i] == READY_CHAIN
    ensures LoadedManifest(Sample(providerID, profileID, chains))
  {
    hide Trim, NormalizeChain, ValidChain, NormalizeProfile;
    var m := Sample(providerID, profileID, chains);
    SampleProfileLoaded(profileID, chains);
    assert NormalizeProfiles(m.profiles) == m.profiles;
    assert Trimmed(MANIFEST_SCHEMA) && Trimmed("Sample") && Trimmed("1") && Trimmed("testnet") && Trimmed("");
    assert MATURITIES[1] == "testnet";
  }

  lemma SampleTexts()
    ensures Trim("Sample") == "Sample" && Trim("testnet") == "testnet" && Trim("declared") == "declared"
    ensures Trim("hybrid") == "hybrid" && Trim("ml_dsa") == "ml_dsa" && Trim("lattice") == "lattice"
    ensures Trim("none") == "none" && Trim("erc4337") == "erc4337" && Trim("userop") == "userop"
  {
    hide Trim;
    assert Trimmed("Sample") && Trimmed("testnet") && Trimmed("declared") && Trimmed("hybrid") && Trimmed("ml_dsa");
    assert Trimmed("lattice") && Trimmed("none") && Trimmed("erc4337") && Trimmed("userop");
  }

  lemma SampleLists()
    ensures Dedupe(["eoa"]) == ["eoa"] && Dedupe([]) == []
    ensures "testnet" in MATURITIES && "declared" in CLAIM_STATUSES && "hybrid" in POSTURES && "none" in ROTATIONS
  {
    hide Trim, Dedupe;
    assert Trimmed("eoa");
    DedupeFixed(["eoa"]);
    DedupeFixed([]);
    assert MATURITIES[1] == "testnet" && CLAIM_STATUSES[0] == "declared" && POSTURES[1] == "hybrid"
      && ROTATIONS[0] == "none";
  }

  lemma SampleProfileLoaded(id: string, chains: seq<ChainSupport>)
    requires id != "" && Trimmed(id)
    requires chains != [] && forall i :: 0 <= i < |chains| ==> chains[i] == PLANNED_CHAIN || chains[i] == READY_CHAIN
    ensures NormalizeProfile(SampleProfile(id, chains)) == SampleProfile(id, chains)
    ensures ValidProfile(SampleProfile(id, chains))
  {
    hide Trim, Trimmed, NormalizeChain, ValidChain, Dedupe, MATURITIES, CLAIM_STATUSES, POSTURES, ROTATIONS;
    ChainsLoaded();
    SampleTexts();
    SampleLists();
    assert NormalizeChains(chains) == chains;
    assert |"Sample"| == 6 && |"declared"| == 8 && |"ml_dsa"| == 6 && |"lattice"| == 7 && |"erc4337"| == 7
      && |"userop"| == 6;
  }

  // ------------------------------------------------------------ shadowed chains

  const SHADOWED: seq<ChainSupport> := [PLANNED_CHAIN, READY_CHAIN]

  lemma ReadyIsCapable()
    ensures HasCapabilities(CAPABLE, MinimumCapabilities("none"))
  {
    hide Trim;
    assert CAPABLE[0] == "deploy" && CAPABLE[1] == "sign_userop";
    assert |"none"| == 4 && |PER_USEROP| == 10;
  }

  lemma EoaOnHybrid(p: SolutionProfile)
    requires p.resultingPosture == "hybrid" && p.inputRequirements.walletTypes == ["eoa"]
    ensures PostureFindings("hybrid", p) == []
    ensures forall chainIDs :: WalletFindings(Observation("EOA", chainIDs), p) == []
  {
    hide Trim;
    assert Trimmed("EOA") && Trimmed("eoa") && Trimmed("hybrid");
    assert Lower("EOA") == "eoa" && Lower("eoa") == "eoa";
    assert WalletTypeToken(["eoa"][0]) == "eoa";
    assert WalletTypeAccepted("EOA", ["eoa"]);
  }

  lemma OnlyReadyPinned(chains: seq<SnapshotChain>)
    requires PinnedChains(SHADOWED, chains)
    ensures chains == [Pin(READY_CHAIN)]
  {
    hide Trim;
    ChainsLoaded();
    ValidIsPersistable(PLANNED_CHAIN);
    ValidIsPersistable(READY_CHAIN);
    assert |"testnet_supported"| == 17 && |PLANNED| == 7;
    assert SHADOWED[..1] == [PLANNED_CHAIN] && [PLANNED_CHAIN][..0] == [];
    assert Persistables([PLANNED_CHAIN]) == [];
    assert Persistables(SHADOWED) == [Pin(READY_CHAIN)];
    SameElements(chains, [Pin(READY_CHAIN)]);
    assert chains[0] in chains;
  }

  /**
   A manifest may list a chain as planned and again as supported. Explore then rejects the profile
   on that chain, while every snapshot of it reads back as compatible.
   */
  lemma ShadowedManifest()
    ensures var m := Sample("acme", "p", SHADOWED);
            var p := m.profiles[0];
            && LoadedManifest(m)
            && !NothingShadowed(p)
            && ScanFindings(Observation("EOA", [1]), "hybrid", p) == [HardFinding(Chain, "policy_context.chain_ids")]
            && forall client: seq<string>, s: Snapshot, profileID: string :: SnapshotOf(p, client, s) ==>
                 ScanFindings(Observation("EOA", [1]), "hybrid", SnapshotAsProfile(profileID, s)) == []
  {
    hide Trim, LoadedManifest, MergedFindings, PostureFindings, WalletFindings, PinnedChains, HasCapabilities,
         MinimumCapabilities;
    var m := Sample("acme", "p", SHADOWED);
    var p := m.profiles[0];
    assert Trimmed("acme") && Trimmed("p");
    SampleLoaded("acme", "p", SHADOWED);
    EoaOnHybrid(p);
    assert |"testnet_supported"| == 17 && |PLANNED| == 7;
    assert FindChain(p.chainSupport, 1) == Some(PLANNED_CHAIN);
    assert !AgreesWithFirst(p, 1);
    assert [1][0] == 1;
    assert Constrained([1]);
    assert !SomeDeployable(p, [1]) && !SomeCapable(p, [1]);
    forall client: seq<string>, s: Snapshot, profileID: string | SnapshotOf(p, client, s)
      ensures ScanFindings(Observation("EOA", [1]), "hybrid", SnapshotAsProfile(profileID, s)) == []
    {
      OnlyReadyPinned(s.chainSupportUsed);
      ReadBackCapable(client, s, profileID);
    }
  }

  lemma ReadBackCapable(client: seq<string>, s: Snapshot, profileID: string)
    requires SnapshotOf(SampleProfile("p", SHADOWED), client, s) && s.chainSupportUsed == [Pin(READY_CHAIN)]
    ensures ScanFindings(Observation("EOA", [1]), "hybrid", SnapshotAsProfile(profileID, s)) == []
  {
    hide Trim, MergedFindings, PostureFindings, WalletFindings, PinnedChains, HasCapabilities, MinimumCapabilities;
    var q := SnapshotAsProfile(profileID, s);
    EoaOnHybrid(q);
    ReadyIsCapable();
    assert |"testnet_supported"| == 17 && |PLANNED| == 7;
    assert FindChain(q.chainSupport, 1) == Some(Unpin(Pin(READY_CHAIN)));
    assert [1][0] == 1;
    assert Capable(q, 1);
    assert SomeCapable(q, [1]);
  }

  // ------------------------------------------------------------- order of ties

  /** The entry of a kept sample in the registry loaded from a list of samples. */
  lemma SampleListed(ms: seq<ProviderManifest>, a: nat) returns (rp: ResolvedProfile)
    requires Valid(Load(ms)) && a < |ms| && Kept(ms, a) && |ms[a].profiles| == 1
    ensures rp in ProfilesIn(Load(ms), ms[a].providerID)
    ensures rp.providerID == ms[a].providerID && rp.providerVersion == ms[a].providerVersion
    ensures rp.profile == ms[a].profiles[0]
    ensures KeyOf(ms[a], 0) in Load(ms).byKey && Load(ms).byKey[KeyOf(ms[a], 0)] == rp
  {
    hide Load, ProviderKey, KeyOf, LoadedManifest, ProfilesIn;
    var x := Load(ms);
    KeptIsRegistered(ms, a);
    assert Indexes(x.byKey, ms[a], 0);
    rp := x.byKey[KeyOf(ms[a], 0)];
    ProfilesInElements(x, ms[a].providerID, rp);
  }

  const TWINS: seq<ProviderManifest> := [Sample("a", "b/c", [READY_CHAIN]), Sample("a/b", "c", [READY_CHAIN])]

  lemma TwinsLoad()
    ensures AllLoaded(TWINS) && Valid(Load(TWINS)) && Kept(TWINS, 0) && Kept(TWINS, 1)
  {
    hide Trim, LoadedManifest, Valid, Load, KeysApart, Reaches;
    assert Trimmed("a") && Trimmed("b/c") && Trimmed("a/b") && Trimmed("c");
    SampleLoaded("a", "b/c", [READY_CHAIN]);
    SampleLoaded("a/b", "c", [READY_CHAIN]);
    NulFreeUnreached("a", "a/b");
    assert |ProviderKey("a")| == 1 && |ProviderKey("a/b")| == 3;
    LoadValid(TWINS);
  }

  const TWIN_POLICY: CryptoPolicy := SamplePolicy(["a", "a/b"])

  lemma TwinRows() returns (r1: Row, r2: Row)
    ensures var rows := Rows(Load(TWINS), TWIN_POLICY, Seen(Observation("EOA", [])), TWIN_POLICY.allowedProviders);
            r1 in rows && r2 in rows
    ensures r1.Ranked? && r1.CandidateID() == "a" + "/" + "b/c" && r1.ranked.ref.providerID == "a"
    ensures r2.Ranked? && r2.CandidateID() == "a/b" + "/" + "c" && r2.ranked.ref.providerID == "a/b"
  {
    hide Trim, Valid, Load, ProfilesIn, Rows, AllLoaded;
    TwinsLoad();
    var rp1 := SampleListed(TWINS, 0);
    var rp2 := SampleListed(TWINS, 1);
    assert Trimmed("a") && Trimmed("a/b");
    assert rp1.profile == SampleProfile("b/c", [READY_CHAIN]) && rp2.profile == SampleProfile("c", [READY_CHAIN]);
    r1 := SampleRanked(Load(TWINS), TWIN_POLICY, 0, rp1);
    r2 := SampleRanked(Load(TWINS), TWIN_POLICY, 1, rp2);
  }

  /** Profile "b/c" of provider "a" and profile "c" of provider "a/b" tie, so listing order decides their ranking. */
  lemma TiedCandidates()
    ensures AllLoaded(TWINS) && Valid(Load(TWINS)) && LoadedPolicy(TWIN_POLICY)
    ensures !OrderIrrelevant(Load(TWINS), TWIN_POLICY, Observation("EOA", []))
  {
    hide Valid, Load, Rows, AllLoaded, OrderIrrelevant, Seen, LoadedPolicy;
    TwinsLoad();
    assert Trimmed("a") && Trimmed("a/b");
    SamplePolicyLoaded(["a", "a/b"]);
    var r1, r2 := TwinRows();
    assert |"a"| == 1 && |"a/b"| == 3;
    assert "a" + "/" + "b/c" == "a/b" + "/" + "c";
    TieChangesOrder(Load(TWINS), TWIN_POLICY, Observation("EOA", []), r1, r2);
  }

  lemma SampleRanked(x: Index, cp: CryptoPolicy, i: nat, rp: ResolvedProfile) returns (row: Row)
    requires Valid(x) && cp.requiredPosture == "hybrid" && i < |cp.allowedProviders|
    requires CandidateAt(x, cp.allowedProviders[i], rp)
    requires exists id :: rp.profile == SampleProfile(id, [READY_CHAIN])
    ensures row in Rows(x, cp, Seen(Observation("EOA", [])), cp.allowedProviders)
    ensures row.Ranked? && row.CandidateID() == CandidateOf(rp) && row.ranked.ref == FullRef(rp)
  {
    hide Trim, Valid, ProfilesIn, EntryRows, Rows, ProfileRow, PostureFindings, WalletFindings, CandidateAt,
         AsciiUpper, SomeCapable, SomeDeployable, SoftCodes;
    var obs := Seen(Observation("EOA", []));
    assert obs.chainIDs == [];
    EoaOnHybrid(rp.profile);
    assert !Constrained([]);
    CandidateRow(x, cp, obs, cp.allowedProviders[i], rp);
    row := ProfileRow(x, cp, obs, rp);
    EntryRowsElements(x, cp, obs, cp.allowedProviders[i], row);
    RowsElements(x, cp, obs, cp.allowedProviders, row);
  }

  // ------------------------------------------------------------- NUL in an id

  const PLAIN: ProviderManifest := Sample("a", "b" + [NUL] + "c", [READY_CHAIN])
  const NULLED: ProviderManifest := Sample("a" + [NUL] + "b", "c", [READY_CHAIN])

  lemma NulSamplesLoaded()
    ensures LoadedManifest(PLAIN) && LoadedManifest(NULLED)
  {
    hide LoadedManifest;
    var p, s := "a" + [NUL] + "b", "b" + [NUL] + "c";
    assert Trimmed("a") && Trimmed(p) && Trimmed(s) && Trimmed("c");
    SampleLoaded("a", s, [READY_CHAIN]);
    SampleLoaded(p, "c", [READY_CHAIN]);
  }

  /** Two manifests the loader accepts one by one and cannot accept together. */
  lemma CollidingManifests()
    ensures LoadedManifest(PLAIN) && LoadedManifest(NULLED)
    ensures Valid(Load([PLAIN])) && !Valid(Load([PLAIN, NULLED]))
  {
    hide LoadedManifest, Valid, Load, Trim, Lower, ProviderKey, ProfileKey;
    NulSamplesLoaded();
    ProfileKeyCollision();
    LoadValid([PLAIN]);
    LoadValid([PLAIN, NULLED]);
    var ms := [PLAIN, NULLED];
    assert KeyOf(PLAIN, 0) == KeyOf(NULLED, 0);
    assert !Apart(ms[0], ms[1]);
    assert Kept(ms, 0) && Kept(ms, 1);
  }

  lemma ForeignFound()
    ensures Valid(Load([PLAIN]))
    ensures var found := LookupIn(Load([PLAIN]), ProfileRef("a" + [NUL] + "b", "c", "1"));
            found.Some? && found.value.providerID == "a" && found.value.profile == PLAIN.profiles[0]
  {
    hide LoadedManifest, Valid, Load, ProviderKey, ProfileKey, Trim;
    CollidingManifests();
    var rp := SampleListed([PLAIN], 0);
    ProfileKeyCollision();
    assert Trimmed("1");
  }

  /** A policy whose only provider is not registered has no compatible networks. */
  lemma NothingCompatible(x: Index, cp: CryptoPolicy)
    requires |cp.allowedProviders| == 1 && ProfilesIn(x, cp.allowedProviders[0]) == []
    ensures CompatibleNetworks(x, cp) == []
  {
    hide ProfilesIn, CompatibleNetworks, Lists;
    var networks := CompatibleNetworks(x, cp);
    assert networks != [] ==> HasID(networks, networks[0].chainID);
    CompatibleNetworksExact(x, cp);
  }

  lemma NulledUnknown()
    ensures ProfilesIn(Load([PLAIN]), "a" + [NUL] + "b") == []
  {
    hide Load, ProviderKey, Collected, StableSort;
    ProfileKeyCollision();
    LoadKeepsFirst([PLAIN]);
    assert ProviderKey("a" + [NUL] + "b") !in Load([PLAIN]).manifests;
  }

  lemma AllowedOnlyNulled(cp: CryptoPolicy)
    requires cp.allowedProviders == ["a" + [NUL] + "b"]
    ensures ProviderAllowed(cp, "a" + [NUL] + "b") && !ProviderAllowed(cp, "a")
  {
    hide Trim, Lower, ProfileKey;
    ProfileKeyCollision();
    var p := "a" + [NUL] + "b";
    assert cp.allowedProviders[0] == p && |cp.allowedProviders| == 1;
    assert Lower(Trim(p)) == ProviderKey(p) && Lower(Trim("a")) == ProviderKey("a");
  }

  lemma ReadyPersists()
    ensures Persistables([READY_CHAIN]) == [Pin(READY_CHAIN)]
  {
    hide Trim, Dedupe, Pin;
    ChainsLoaded();
    ValidIsPersistable(READY_CHAIN);
    assert |"testnet_supported"| == 17 && |PLANNED| == 7;
    assert [READY_CHAIN][..0] == [];
  }

  const NUL_POLICY: CryptoPolicy := SamplePolicy(["a" + [NUL] + "b"])
  const NUL_REF: SolutionProfileRef := SolutionProfileRef("a" + [NUL] + "b", "c", "1", "")

  /**
   Asked for profile "c" of an allowed but unregistered provider whose id holds a NUL, assist freezes a
   profile of another provider, which the policy does not allow and whose chains its catalogue does not show.
   */
  lemma ForeignProfileFrozen()
    ensures Valid(Load([PLAIN])) && LoadedPolicy(NUL_POLICY)
    ensures AssistFailure(Load([PLAIN]), NUL_POLICY, NUL_REF, []) == None
    ensures forall a :: AssistAnswers(Load([PLAIN]), NUL_POLICY, NUL_REF, [], Ok(a)) ==>
              && a.ref.providerID == "a" && !ProviderAllowed(NUL_POLICY, a.ref.providerID)
              && a.snapshot.chainSupportUsed != []
    ensures CompatibleNetworks(Load([PLAIN]), NUL_POLICY) == []
  {
    hide Valid, Load, ProfilesIn, CompatibleNetworks, LookupIn, ProviderAllowed, Persistables, MergedFindings, Trim,
         LoadedPolicy;
    var x := Load([PLAIN]);
    var p := "a" + [NUL] + "b";
    assert Trimmed(p) && Trimmed("c") && Trimmed("1") && Trimmed("") && |p| == 3;
    SamplePolicyLoaded([p]);
    ForeignFound();
    NulledUnknown();
    NothingCompatible(x, NUL_POLICY);
    AllowedOnlyNulled(NUL_POLICY);
    ReadyPersists();
    forall a | AssistAnswers(x, NUL_POLICY, NUL_REF, [], Ok(a)) ensures a.snapshot.chainSupportUsed != [] {
      SameElements(Persistables([READY_CHAIN]), a.snapshot.chainSupportUsed);
    }
  }
}
