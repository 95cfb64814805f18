/** internal/domain/provider/manifest.go: provider manifests, their normalization and validation. */
module Provider {
  import opened Wrappers
  import opened Text

  const PLANNED: string := "planned"
  const PER_USEROP: string := "per_userop"
  const UNPINNED: string := "unpinned_pending_fixture"
  const MANIFEST_SCHEMA: string := "cafe.provider_manifest.v0.1"

  const MATURITIES: seq<string> := ["research", "testnet", "production"]
  const CLAIM_STATUSES: seq<string> := ["declared", "cafe_reviewed", "externally_audited", "executed_observed"]
  const POSTURES: seq<string> := ["classical_only", "hybrid", "full_pq"]
  const ROTATIONS: seq<string> := ["none", "per_userop"]
  const CHAIN_STATUSES: seq<string> := ["testnet_supported", "planned", "production_supported"]
  const REFERENCE_KINDS: seq<string> := ["source_repo", "protocol_spec"]

  datatype ChainSupport = ChainSupport(chainID: Int64, network: string, status: string, capabilities: seq<string>)

  datatype Reference = Reference(kind: string, url: string, commit: string, version: string) {
    predicate IsUnpinned() {
      || commit == UNPINNED
      || version == UNPINNED
      || (commit == "" && version == "")
    }
  }

  /** Both the suggested and the user-validated couche B choices. */
  datatype UserConstraints = UserConstraints(
    allowNewWallet: bool, addressContinuityRequired: bool, keyRotationModel: string)

  datatype InputRequirements = InputRequirements(walletTypes: seq<string>, requiresWalletControlProof: bool)

  datatype SignatureProfile = SignatureProfile(scheme: string, family: string, keyRotationModel: string)

  datatype AccountModel = AccountModel(
    standard: string, executionModel: string, requiresBundler: bool,
    requiresEntrypoint: bool, entrypointVersions: seq<string>)

  datatype ProfileConstraints = ProfileConstraints(
    requiresNewAccount: bool, addressContinuitySupported: bool, requiresLocalSignerState: bool)

  datatype SolutionProfile = SolutionProfile(
    id: string, displayName: string, maturity: string, claimStatus: string, resultingPosture: string,
    inputRequirements: InputRequirements, signature: SignatureProfile, accountModel: AccountModel,
    constraints: ProfileConstraints, suggested: Option<UserConstraints>,
    chainSupport: seq<ChainSupport>, references: seq<Reference>, riskNotes: seq<string>)

  datatype ProviderManifest = ProviderManifest(
    schemaVersion: string, providerID: string, providerName: string, providerVersion: string,
    providerMaturity: string, website: string, profiles: seq<SolutionProfile>)

  // ----------------------------------------------------------- normalization

  /** Trims, drops blanks, and keeps the first occurrence of each value. */
  function Dedupe(items: seq<string>): (r: seq<string>)
    ensures forall i, j :: 0 <= i < j < |r| ==> r[i] != r[j]
    ensures forall i :: 0 <= i < |r| ==> Trimmed(r[i]) && r[i] != ""
  {
    if items == [] then []
    else
      var n := |items| - 1;
      var r := Dedupe(items[..n]);
      var s := Trim(items[n]);
      if s == "" || s in r then r else r + [s]
  }

  method DedupeStrings(items: seq<string>) returns (out: seq<string>)
    ensures out == Dedupe(items)
  {
    var seen: set<string> := {};
    out := [];
    var i := 0;
    while i < |items|
      invariant 0 <= i <= |items|
      invariant out == Dedupe(items[..i])
      invariant forall x :: x in seen <==> x in out
    {
      hide Trim;
      assert items[..i + 1][..i] == items[..i];
      var s := Trim(items[i]);
      if s != "" && s !in seen {
        seen := seen + {s};
        out := out + [s];
      }
      i := i + 1;
    }
    assert items[..i] == items;
  }

  /** Nothing but blanks and repeats is lost. */
  lemma {:induction false} DedupeElements(items: seq<string>, x: string)
    ensures x in Dedupe(items) <==> x != "" && exists i :: 0 <= i < |items| && Trim(items[i]) == x
  {
    hide Trim, Trimmed;
    if items == [] {
    } else {
      var n := |items| - 1;
      DedupeElements(items[..n], x);
      var front := exists i :: 0 <= i < n && Trim(items[..n][i]) == x;
      assert front <==> exists i :: 0 <= i < n && Trim(items[i]) == x;
      assert (exists i :: 0 <= i < |items| && Trim(items[i]) == x) <==> front || Trim(items[n]) == x;
    }
  }

  lemma {:induction false} DedupeFixed(r: seq<string>)
    requires forall i, j :: 0 <= i < j < |r| ==> r[i] != r[j]
    requires forall i :: 0 <= i < |r| ==> r[i] != "" && Trimmed(r[i])
    ensures Dedupe(r) == r
  {
    hide Trim, Trimmed;
    if r == [] {
    } else {
      var n := |r| - 1;
      DedupeFixed(r[..n]);
      assert r == r[..n] + [r[n]];
      assert r[n] !in r[..n];
    }
  }

  lemma DedupeIdempotent(items: seq<string>)
    ensures Dedupe(Dedupe(items)) == Dedupe(items)
  {
    DedupeFixed(Dedupe(items));
  }

  /** Read from left to right: a blank or known item is passed over, a new one is appended trimmed. */
  lemma DedupeReads(items: seq<string>, x: string)
    ensures Dedupe([]) == []
    ensures Dedupe(items + [x]) ==
            if Trim(x) == "" || Trim(x) in Dedupe(items) then Dedupe(items) else Dedupe(items) + [Trim(x)]
  {
    hide Trim;
    assert (items + [x])[..|items|] == items;
  }

  function NormalizeChain(c: ChainSupport): (r: ChainSupport) {
    ChainSupport(c.chainID, Trim(c.network), Trim(c.status), Dedupe(c.capabilities))
  }

  function NormalizeReference(r: Reference): (r': Reference) {
    Reference(Trim(r.kind), Trim(r.url), Trim(r.commit), Trim(r.version))
  }

  function NormalizeChains(cs: seq<ChainSupport>): (r: seq<ChainSupport>)
    ensures |r| == |cs| && forall i :: 0 <= i < |cs| ==> r[i] == NormalizeChain(cs[i])
  {
    seq(|cs|, i requires 0 <= i < |cs| => NormalizeChain(cs[i]))
  }

  function NormalizeReferences(rs: seq<Reference>): (r: seq<Reference>)
    ensures |r| == |rs| && forall i :: 0 <= i < |rs| ==> r[i] == NormalizeReference(rs[i])
  {
    seq(|rs|, i requires 0 <= i < |rs| => NormalizeReference(rs[i]))
  }

  function NormalizeProfile(p: SolutionProfile): (r: SolutionProfile) {
    SolutionProfile(
      Trim(p.id), Trim(p.displayName), Trim(p.maturity), Trim(p.claimStatus), Trim(p.resultingPosture),
      p.inputRequirements.(walletTypes := Dedupe(p.inputRequirements.walletTypes)),
      SignatureProfile(Trim(p.signature.scheme), Trim(p.signature.family), Trim(p.signature.keyRotationModel)),
      p.accountModel.(standard := Trim(p.accountModel.standard),
        executionModel := Trim(p.accountModel.executionModel),
        entrypointVersions := Dedupe(p.accountModel.entrypointVersions)),
      p.constraints,
      match p.suggested
      case None => None
      case Some(s) => Some(s.(keyRotationModel := Trim(s.keyRotationModel))),
      NormalizeChains(p.chainSupport), NormalizeReferences(p.references), Dedupe(p.riskNotes))
  }

  function NormalizeProfiles(ps: seq<SolutionProfile>): (r: seq<SolutionProfile>)
    ensures |r| == |ps| && forall i :: 0 <= i < |ps| ==> r[i] == NormalizeProfile(ps[i])
  {
    seq(|ps|, i requires 0 <= i < |ps| => NormalizeProfile(ps[i]))
  }

  function NormalizeManifest(m: ProviderManifest): (r: ProviderManifest) {
    ProviderManifest(Trim(m.schemaVersion), Trim(m.providerID), Trim(m.providerName), Trim(m.providerVersion),
      Trim(m.providerMaturity), Trim(m.website), NormalizeProfiles(m.profiles))
  }

  lemma NormalizeProfileIdempotent(p: SolutionProfile)
    ensures NormalizeProfile(NormalizeProfile(p)) == NormalizeProfile(p)
  {
    hide Trim, Dedupe;
    var q := NormalizeProfile(p);
    DedupeIdempotent(p.inputRequirements.walletTypes);
    DedupeIdempotent(p.accountModel.entrypointVersions);
    DedupeIdempotent(p.riskNotes);
    forall i | 0 <= i < |p.chainSupport|
      ensures NormalizeChain(q.chainSupport[i]) == q.chainSupport[i]
    {
      DedupeIdempotent(p.chainSupport[i].capabilities);
    }
    assert NormalizeChains(q.chainSupport) == q.chainSupport;
    assert NormalizeReferences(q.references) == q.references;
  }

  /** Loading a manifest leaves nothing for a second normalization to change. */
  lemma NormalizeManifestIdempotent(m: ProviderManifest)
    ensures NormalizeManifest(NormalizeManifest(m)) == NormalizeManifest(m)
  {
    hide Trim, NormalizeProfile;
    forall i | 0 <= i < |m.profiles|
      ensures NormalizeProfile(NormalizeProfile(m.profiles[i])) == NormalizeProfile(m.profiles[i])
    {
      NormalizeProfileIdempotent(m.profiles[i]);
    }
    assert NormalizeProfiles(NormalizeProfiles(m.profiles)) == NormalizeProfiles(m.profiles);
  }

  /** What normalization does to a manifest, text by text. */
  lemma NormalizeReads(m: ProviderManifest)
    ensures var n := NormalizeManifest(m);
            && n.schemaVersion == Trim(m.schemaVersion) && n.providerID == Trim(m.providerID)
            && n.providerName == Trim(m.providerName) && n.providerVersion == Trim(m.providerVersion)
            && n.providerMaturity == Trim(m.providerMaturity) && n.website == Trim(m.website)
            && |n.profiles| == |m.profiles|
            && forall i :: 0 <= i < |m.profiles| ==> n.profiles[i] == NormalizeProfile(m.profiles[i])
  {
    hide Trim, NormalizeProfile;
  }

  /** And to a profile. */
  lemma NormalizeProfileReads(p: SolutionProfile)
    ensures var n := NormalizeProfile(p);
            && n.id == Trim(p.id) && n.displayName == Trim(p.displayName) && n.maturity == Trim(p.maturity)
            && n.claimStatus == Trim(p.claimStatus) && n.resultingPosture == Trim(p.resultingPosture)
            && n.inputRequirements.walletTypes == Dedupe(p.inputRequirements.walletTypes)
            && n.inputRequirements.requiresWalletControlProof == p.inputRequirements.requiresWalletControlProof
            && n.signature.scheme == Trim(p.signature.scheme) && n.signature.family == Trim(p.signature.family)
            && n.signature.keyRotationModel == Trim(p.signature.keyRotationModel)
            && n.accountModel.standard == Trim(p.accountModel.standard)
            && n.accountModel.executionModel == Trim(p.accountModel.executionModel)
            && n.accountModel.requiresBundler == p.accountModel.requiresBundler
            && n.accountModel.requiresEntrypoint == p.accountModel.requiresEntrypoint
            && n.accountModel.entrypointVersions == Dedupe(p.accountModel.entrypointVersions)
            && n.constraints == p.constraints && n.riskNotes == Dedupe(p.riskNotes)
            && n.suggested.Some? == p.suggested.Some?
            && (p.suggested.Some? ==>
                  && n.suggested.value.allowNewWallet == p.suggested.value.allowNewWallet
                  && n.suggested.value.addressContinuityRequired == p.suggested.value.addressContinuityRequired
                  && n.suggested.value.keyRotationModel == Trim(p.suggested.value.keyRotationModel))
            && |n.chainSupport| == |p.chainSupport| && |n.references| == |p.references|
            && (forall i :: 0 <= i < |p.chainSupport| ==>
                  && n.chainSupport[i].chainID == p.chainSupport[i].chainID
                  && n.chainSupport[i].network == Trim(p.chainSupport[i].network)
                  && n.chainSupport[i].status == Trim(p.chainSupport[i].status)
                  && n.chainSupport[i].capabilities == Dedupe(p.chainSupport[i].capabilities))
            && (forall i :: 0 <= i < |p.references| ==>
                  && n.references[i].kind == Trim(p.references[i].kind)
                     && n.references[i].url == Trim(p.references[i].url)
                  && n.references[i].commit == Trim(p.references[i].commit)
                  && n.references[i].version == Trim(p.references[i].version))
  {
    hide Trim, Dedupe;
  }

  // -------------------------------------------------------------- validation

  predicate ValidChain(c: ChainSupport) {
    c.chainID > 0 && c.network != "" && c.status in CHAIN_STATUSES
  }

  predicate ValidReference(r: Reference) {
    r.kind in REFERENCE_KINDS && r.url != ""
  }

  predicate ValidProfile(p: SolutionProfile) {
    && p.id != "" && p.displayName != ""
    && p.maturity in MATURITIES
    && p.claimStatus != "" && p.claimStatus in CLAIM_STATUSES
    && p.resultingPosture in POSTURES
    && p.inputRequirements.walletTypes != []
    && p.signature.scheme != "" && p.signature.family != ""
    && p.signature.keyRotationModel in ROTATIONS
    && p.accountModel.standard != "" && p.accountModel.executionModel != ""
    && p.chainSupport != []
    && (forall i :: 0 <= i < |p.chainSupport| ==> ValidChain(p.chainSupport[i]))
    && (forall i :: 0 <= i < |p.references| ==> ValidReference(p.references[i]))
    && (p.suggested.Some? ==> p.suggested.value.keyRotationModel in ROTATIONS)
  }

  predicate ValidHeader(m: ProviderManifest) {
    && m.schemaVersion == MANIFEST_SCHEMA
    && m.providerID != "" && m.providerName != "" && m.providerVersion != ""
    && m.providerMaturity in MATURITIES
    && m.profiles != []
  }

  predicate DistinctProfileIDs(ps: seq<SolutionProfile>) {
    forall i, j :: 0 <= i < j < |ps| ==> ps[i].id != ps[j].id
  }

  predicate ValidManifest(m: ProviderManifest) {
    && ValidHeader(m)
    && (forall i :: 0 <= i < |m.profiles| ==> ValidProfile(m.profiles[i]))
    && DistinctProfileIDs(m.profiles)
  }

  method Validate(m: ProviderManifest) returns (ok: bool)
    ensures ok <==> ValidManifest(m)
  {
    hide ValidProfile, ValidHeader;
    if !ValidHeader(m) {
      return false;
    }
    var seen: set<string> := {};
    var i := 0;
    while i < |m.profiles|
      invariant 0 <= i <= |m.profiles|
      invariant forall k :: 0 <= k < i ==> ValidProfile(m.profiles[k])
      invariant forall j, k :: 0 <= j < k < i ==> m.profiles[j].id != m.profiles[k].id
      invariant forall k :: 0 <= k < i ==> m.profiles[k].id in seen
      invariant forall x :: x in seen ==> exists k :: 0 <= k < i && m.profiles[k].id == x
    {
      if !ValidProfile(m.profiles[i]) {
        return false;
      }
      var id := m.profiles[i].id;
      if id in seen {
        return false;
      }
      seen := seen + {id};
      i := i + 1;
    }
    return true;
  }

  /** The vocabulary of a profile, spelled out. */
  predicate Admitted(p: SolutionProfile) {
    && p.id != "" && p.displayName != ""
    && p.maturity in ["research", "testnet", "production"]
    && p.claimStatus in ["declared", "cafe_reviewed", "externally_audited", "executed_observed"]
    && p.resultingPosture in ["classical_only", "hybrid", "full_pq"]
    && |p.inputRequirements.walletTypes| >= 1
    && p.signature.scheme != "" && p.signature.family != ""
    && p.signature.keyRotationModel in ["none", "per_userop"]
    && p.accountModel.standard != "" && p.accountModel.executionModel != ""
    && |p.chainSupport| >= 1
    && (p.suggested.Some? ==> p.suggested.value.keyRotationModel in ["none", "per_userop"])
    && (forall c :: c in p.chainSupport ==>
          c.chainID > 0 && c.network != "" && c.status in ["testnet_supported", "planned", "production_supported"])
    && (forall r :: r in p.references ==> r.kind in ["source_repo", "protocol_spec"] && r.url != "")
  }

  lemma ValidProfileExact(p: SolutionProfile)
    ensures ValidProfile(p) <==> Admitted(p)
  {
    assert MATURITIES == ["research", "testnet", "production"] && POSTURES == ["classical_only", "hybrid", "full_pq"];
    assert CLAIM_STATUSES == ["declared", "cafe_reviewed", "externally_audited", "executed_observed"];
    assert ROTATIONS == ["none", "per_userop"] && REFERENCE_KINDS == ["source_repo", "protocol_spec"];
    assert CHAIN_STATUSES == ["testnet_supported", "planned", "production_supported"];
    assert |"declared"| == 8 && |"cafe_reviewed"| == 13 && |"externally_audited"| == 18 && |"executed_observed"| == 17;
  }

  /** A manifest is valid exactly when its header is, every profile is, and no two profiles share an id. */
  lemma ValidManifestExact(m: ProviderManifest)
    ensures ValidManifest(m) <==>
            && m.schemaVersion == "cafe.provider_manifest.v0.1"
            && m.providerID != "" && m.providerName != "" && m.providerVersion != ""
            && m.providerMaturity in ["research", "testnet", "production"]
            && |m.profiles| >= 1
            && (forall i :: 0 <= i < |m.profiles| ==> Admitted(m.profiles[i]))
            && (forall i, j :: 0 <= i < |m.profiles| && 0 <= j < |m.profiles| && m.profiles[i].id == m.profiles[j].id
                  ==> i == j)
  {
    hide ValidProfile, Admitted;
    assert MATURITIES == ["research", "testnet", "production"];
    forall i | 0 <= i < |m.profiles| ensures ValidProfile(m.profiles[i]) <==> Admitted(m.profiles[i]) {
      ValidProfileExact(m.profiles[i]);
    }
  }

  /** A manifest as the loader hands it over: normalized and valid. */
  predicate LoadedManifest(m: ProviderManifest) {
    NormalizeManifest(m) == m && ValidManifest(m)
  }

  /** LoadProviderManifestFromBytes after decoding. */
  method NormalizeAndValidate(m: ProviderManifest) returns (r: Option<ProviderManifest>)
    ensures r.Some? ==> LoadedManifest(r.value)
    ensures r.Some? <==> ValidManifest(NormalizeManifest(m))
    ensures r.Some? ==> r.value == NormalizeManifest(m)
  {
    hide ValidManifest;
    var n := NormalizeManifest(m);
    NormalizeManifestIdempotent(m);
    var ok := Validate(n);
    return if ok then Some(n) else None;
  }

  /** What a loaded profile guarantees about its texts. */
  lemma LoadedProfileFixed(m: ProviderManifest, i: nat)
    requires LoadedManifest(m) && i < |m.profiles|
    ensures NormalizeProfile(m.profiles[i]) == m.profiles[i]
    ensures ValidProfile(m.profiles[i])
    ensures Trim(m.providerID) == m.providerID && Trim(m.providerVersion) == m.providerVersion
    ensures Trim(m.profiles[i].id) == m.profiles[i].id
  {
    hide Trim, ValidProfile;
    assert NormalizeProfiles(m.profiles)[i] == m.profiles[i];
  }

  /** Suggested constraints that do not contradict the profile; a missing suggestion is fine. */
  predicate SuggestionConsistent(p: SolutionProfile) {
    match p.suggested
    case None => true
    case Some(s) =>
      && !(!s.allowNewWallet && p.constraints.requiresNewAccount)
      && !(s.addressContinuityRequired && !p.constraints.addressContinuitySupported)
      && !(s.keyRotationModel != "" && s.keyRotationModel != p.signature.keyRotationModel)
  }
}
