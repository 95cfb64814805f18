/**
 The whole path of a policy: explore ranks a candidate, assist freezes it, the client assembles
 a payload, a challenge is issued and signed, and the persist handler stores the policy.
 */
module EndToEnd {
  import opened Wrappers
  import opened Text
  import opened Sorting
  import opened Json
  import opened WalletTarget
  import opened Provider
  import opened Compatibility
  import opened Registry
  import opened Explore
  import opened Assist
  import opened Codec
  import opened PayloadHash
  import opened PersistGate
  import opened Message
  import opened WalletAuth
  import opened OwnerStore
  import opened Protocol

  // ------------------------------------------------------- explore to assist

  /** A resolved profile as the loader guarantees it. */
  predicate LoadedResolved(rp: ResolvedProfile) {
    && NormalizeProfile(rp.profile) == rp.profile
    && ValidProfile(rp.profile)
    && rp.providerID != "" && Trim(rp.providerID) == rp.providerID
    && rp.providerVersion != "" && Trim(rp.providerVersion) == rp.providerVersion
    && Trim(rp.profile.id) == rp.profile.id
  }

  lemma ListedIsLoaded(x: Index, providerID: string, rp: ResolvedProfile)
    requires Valid(x) && rp in ProfilesIn(x, providerID)
    ensures LoadedResolved(rp)
    ensures LookupIn(x, RefOf(rp)) == Some(rp)
    ensures ProviderKey(rp.providerID) == ProviderKey(providerID)
  {
    hide ProviderKey, ProfilesIn, LookupIn, Trim, NormalizeProfile, ValidProfile, KeyOf;
    ListedIsFound(x, providerID, rp);
    var k := ProviderKey(providerID);
    assert LoadedAt(x, k);
    var m := x.manifests[k];
    var i :| 0 <= i < |m.profiles| && rp.(erroneous := false) == Entry(m, i);
    LoadedProfileFixed(m, i);
  }

  /** A capable chain in the scan means the profile has something to pin. */
  lemma CapableHasPin(p: SolutionProfile, chainIDs: seq<Int64>)
    requires ValidProfile(p) && SomeCapable(p, chainIDs)
    ensures Persistables(p.chainSupport) != []
  {
    hide HasCapabilities, FindChain, Persistables, Trim, ValidChain, MinimumCapabilities;
    var i :| 0 <= i < |chainIDs| && chainIDs[i] > 0 && Capable(p, chainIDs[i]);
    var c := FindChain(p.chainSupport, chainIDs[i]).value;
    var j :| 0 <= j < |p.chainSupport| && p.chainSupport[j] == c;
    ValidIsPersistable(p.chainSupport[j]);
    PersistablesElements(p.chainSupport, Pin(c));
  }

  /** What ranking a row on a constrained scan has established about its profile. */
  predicate RankedFor(cp: CryptoPolicy, observation: Observation, row: RankedRow, rp: ResolvedProfile) {
    && row == RankedOf(cp, rp)
    && LoadedResolved(rp)
    && SuggestionConsistent(rp.profile)
    && ScanFindings(observation, cp.requiredPosture, rp.profile) == []
  }

  /** Every candidate ranked on a constrained scan gets a snapshot. */
  lemma RankedGetsSnapshot(x: Index, cp: CryptoPolicy, observation: Observation, row: RankedRow, client: seq<string>)
    returns (rp: ResolvedProfile)
    requires Valid(x) && Constrained(observation.chainIDs)
    requires row in ExploreSpec(x, cp, observation).ranked
    requires AllKnown(TrimNonEmpty(client))
    ensures RankedFor(cp, observation, row, rp)
    ensures LookupIn(x, LookupRef(TrimRef(row.ref))) == Some(rp)
    ensures AssistFailure(x, cp, row.ref, client).None?
  {
    hide Trim, ExploreSpec, ProfilesIn, LookupIn, Valid, NormalizeProfile, WalletTypeAccepted, PostureMatches,
         SomeCapable, SomeDeployable, SuggestionConsistent, Persistables, AllKnown, AsciiUpper, ValidChain, SoftCodes;
    RankedExactly(x, cp, observation, row);
    rp :| Candidate(x, cp, rp) && row == RankedOf(cp, rp) && SuggestionConsistent(rp.profile)
          && ScanFindings(observation, cp.requiredPosture, rp.profile) == [];
    var i :| 0 <= i < |cp.allowedProviders| && CandidateAt(x, cp.allowedProviders[i], rp);
    ListedIsLoaded(x, Trim(cp.allowedProviders[i]), rp);
    assert ScanChainFindings(observation.chainIDs, rp.profile) == [];
    CapableHasPin(rp.profile, observation.chainIDs);
    assert TrimRef(row.ref) == row.ref;
    assert LookupRef(row.ref) == RefOf(rp);
    assert Lower(Trim(cp.allowedProviders[i])) == Lower(Trim(rp.providerID));
    assert ProviderAllowed(cp, row.ref.providerID);
  }

  // ------------------------------------------------------- assist to the gate

  /** The payload a client assembles from an assist response and the user's choices. */
  function Assembled(cp: CryptoPolicy, uc: UserConstraints, a: AssistResult, findings: seq<string>): (r: Payload) {
    Payload(SCHEMA_V02, "", cp.id, cp.requiredPosture, uc, a.ref, a.snapshot, findings)
  }

  lemma KnownCodesTrimmed(code: string)
    requires KnownCode(code)
    ensures code != "" && Trimmed(code)
  {
    assert REQUIRES_BUNDLER[0] == 'r' && REQUIRES_BUNDLER[15] == 'r' && |REQUIRES_BUNDLER| == 16;
    assert REQUIRES_LOCAL_SIGNER_STATE[0] == 'r' && REQUIRES_LOCAL_SIGNER_STATE[26] == 'e'
      && |REQUIRES_LOCAL_SIGNER_STATE| == 27;
  }

  lemma MergedAreKnown(p: SolutionProfile, client: seq<string>)
    requires AllKnown(TrimNonEmpty(client))
    ensures AllKnown(MergedFindings(p, client))
  {
    hide NormalizeFindings, TrimNonEmpty;
    var all := TrimNonEmpty(client) + ProfileSoftCodes(p);
    NormalizeFindingsCanonical(all);
    var r := NormalizeFindings(all);
    forall i | 0 <= i < |r| ensures KnownCode(r[i]) {
      assert r[i] in r;
      assert r[i] in all;
    }
  }

  lemma SnapshotListsFixed(p: SolutionProfile, client: seq<string>, s: Snapshot)
    requires NormalizeProfile(p) == p && SnapshotOf(p, client, s) && AllKnown(TrimNonEmpty(client))
    ensures TrimNonEmpty(s.acceptedFindings) == s.acceptedFindings
    ensures TrimNonEmpty(s.acceptedRiskNotes) == s.acceptedRiskNotes
  {
    hide Trim, MergedFindings, KnownCode, PinnedChains;
    MergedAreKnown(p, client);
    forall i | 0 <= i < |s.acceptedFindings| ensures s.acceptedFindings[i] != "" && Trimmed(s.acceptedFindings[i]) {
      KnownCodesTrimmed(s.acceptedFindings[i]);
    }
    TrimNonEmptyFixed(s.acceptedFindings);
    assert Dedupe(p.riskNotes) == p.riskNotes;
    TrimNonEmptyFixed(s.acceptedRiskNotes);
  }

  lemma PinnedChainUsable(p: SolutionProfile, chains: seq<SnapshotChain>, k: nat)
    requires NormalizeProfile(p) == p && PinnedChains(p.chainSupport, chains) && k < |chains|
    ensures UsableChain(chains[k]) && Trim(chains[k].status) == chains[k].status
  {
    hide Trim, Dedupe, Persistables;
    SameElements(Persistables(p.chainSupport), chains);
    assert chains[k] in Persistables(p.chainSupport);
    PersistablesElements(p.chainSupport, chains[k]);
    var i :| 0 <= i < |p.chainSupport| && Persistable(p.chainSupport[i]) && Pin(p.chainSupport[i]) == chains[k];
    assert NormalizeChains(p.chainSupport)[i] == p.chainSupport[i];
  }

  /** A snapshot of a loaded profile is already in the form the gate normalizes to. */
  lemma SnapshotAlreadyNormal(p: SolutionProfile, client: seq<string>, s: Snapshot)
    requires NormalizeProfile(p) == p && SnapshotOf(p, client, s) && AllKnown(TrimNonEmpty(client))
    ensures NormalizeSnapshot(s) == s
  {
    hide Trim, Dedupe, MergedFindings, PinnedChains, TrimNonEmpty, NormalizeChain, AllKnown;
    SnapshotListsFixed(p, client, s);
    forall k | 0 <= k < |s.chainSupportUsed| ensures TrimChain(s.chainSupportUsed[k]) == s.chainSupportUsed[k] {
      PinnedChainUsable(p, s.chainSupportUsed, k);
    }
    assert TrimChains(s.chainSupportUsed) == s.chainSupportUsed;
    assert NormalizeReferences(s.references) == s.references;
  }

  /** What ranking an EOA candidate already guarantees about the closed path. */
  predicate ClosedPathOk(cp: CryptoPolicy, p: SolutionProfile) {
    && LoadedPolicy(cp)
    && PostureMatches(cp.requiredPosture, p)
    && WalletTypeAccepted("EOA", p.inputRequirements.walletTypes)
  }

  lemma HeaderConditions(cp: CryptoPolicy, uc: UserConstraints, rp: ResolvedProfile, client: seq<string>,
                         a: AssistResult, findings: seq<string>)
    requires LoadedResolved(rp) && ClosedPathOk(cp, rp.profile)
    requires SnapshotOf(rp.profile, client, a.snapshot) && AllKnown(TrimNonEmpty(client))
    requires Persistables(rp.profile.chainSupport) != []
    requires a.ref.providerID == rp.providerID && a.ref.profileID == rp.profile.id
             && a.ref.manifestVersion == rp.providerVersion
    ensures var q := NormalizePayload(Assembled(cp, uc, a, findings));
            && (IdentityOk(q) <==> Trim(uc.keyRotationModel) in ROTATIONS)
            && SnapshotHeaderOk(q.snapshot) && q.snapshot == a.snapshot
            && (forall i :: 0 <= i < |q.snapshot.chainSupportUsed| ==> UsableChain(q.snapshot.chainSupportUsed[i]))
            && q.acceptedFindings == findings && q.requiredPosture == cp.requiredPosture
            && q.userConstraints == uc.(keyRotationModel := Trim(uc.keyRotationModel))
  {
    hide Trim, NormalizeProfile, MergedFindings, PinnedChains, Persistables, AllKnown, ValidChain, NormalizeSnapshot,
         WalletTypeAccepted, Reference.IsUnpinned, UsableChain;
    var p := rp.profile;
    SnapshotAlreadyNormal(p, client, a.snapshot);
    SchemaTrimmed();
    PostureTrimmed(cp.requiredPosture);
    PinnedNotEmpty(p.chainSupport, a.snapshot.chainSupportUsed);
    forall k | 0 <= k < |a.snapshot.chainSupportUsed| ensures UsableChain(a.snapshot.chainSupportUsed[k]) {
      PinnedChainUsable(p, a.snapshot.chainSupportUsed, k);
    }
    assert p.maturity != "" by {
      assert |"research"| == 8 && |"testnet"| == 7 && |"production"| == 10;
    }
  }

  lemma SchemaTrimmed()
    ensures Trim(SCHEMA_V02) == SCHEMA_V02
  {
    hide Trim;
    assert |SCHEMA_V02| == 23 && SCHEMA_V02[0] == 'c' && SCHEMA_V02[22] == '2';
  }

  lemma PostureTrimmed(posture: string)
    requires posture in POSTURES
    ensures Trim(posture) == posture
  {
    hide Trim;
    assert Trimmed("classical_only") && Trimmed("hybrid") && Trimmed("full_pq");
  }

  lemma PinnedNotEmpty(entries: seq<ChainSupport>, chains: seq<SnapshotChain>)
    requires PinnedChains(entries, chains) && Persistables(entries) != []
    ensures chains != []
  {
    hide Persistables;
    SameElements(Persistables(entries), chains);
  }

  lemma FindingsConditions(p: SolutionProfile, client: seq<string>, q: Payload)
    requires SnapshotOf(p, client, q.snapshot)
    requires forall x :: x in q.acceptedFindings <==> x in q.snapshot.acceptedFindings
    ensures !FindingsDiverge(q) && SoftAccepted(q)
  {
    hide NormalizeFindings, MergedFindings, PinnedChains, SoftCodes;
    MergedFindingsCover(p, client);
    NormalizeFindingsFixed(q.snapshot.acceptedFindings);
    NormalizeFindingsSameSet(q.acceptedFindings, q.snapshot.acceptedFindings);
  }

  lemma ReplayConditionsHold(cp: CryptoPolicy, uc: UserConstraints, p: SolutionProfile, client: seq<string>, q: Payload)
    requires ClosedPathOk(cp, p) && SnapshotOf(p, client, q.snapshot)
    requires q.requiredPosture == cp.requiredPosture
    requires q.userConstraints == uc.(keyRotationModel := Trim(uc.keyRotationModel))
    ensures ReplayConditions(q, Observation("EOA", [])) <==> ConstraintsHonoured(uc, p)
  {
    hide Trim, WalletTypeAccepted, SomeCapable, TargetSupported, MergedFindings, PinnedChains, LoadedPolicy;
    var profile := SnapshotAsProfile(q.ref.profileID, q.snapshot);
    assert profile.inputRequirements == p.inputRequirements;
    assert !Constrained([]);
  }

  lemma EncodedShapeOk(p: Payload)
    ensures ShapeOk(EncodePayload(p))
  {
    hide EncodeRef, EncodeSnapshot, Strs;
    PayloadClosed(p);
    ClosedHasNoContext(EncodePayload(p));
    PayloadKeyLengths();
    assert EncodePayload(p)["user_constraints"] == Obj(EncodeUser(p.userConstraints));
  }

  /** Digest and gate both accept the payload. */
  predicate Admissible(p: Payload) {
    Digestible(Obj(EncodePayload(p))) && GateFailure(Canonical(EncodePayload(p))).None?
  }

  /**
   The assembled payload, whatever the order of its findings, is admitted exactly when the
   references are pinned and the user's choices satisfy couche B.
   */
  lemma AssembledAdmissible(cp: CryptoPolicy, uc: UserConstraints, rp: ResolvedProfile, client: seq<string>,
                            a: AssistResult, findings: seq<string>)
    requires LoadedResolved(rp) && ClosedPathOk(cp, rp.profile)
    requires SnapshotOf(rp.profile, client, a.snapshot) && AllKnown(TrimNonEmpty(client))
    requires Persistables(rp.profile.chainSupport) != []
    requires a.ref.providerID == rp.providerID && a.ref.profileID == rp.profile.id
             && a.ref.manifestVersion == rp.providerVersion
    requires forall x :: x in findings <==> x in a.snapshot.acceptedFindings
    ensures Admissible(Assembled(cp, uc, a, findings)) <==>
            RefsPinned(rp.profile.references) && ConstraintsHonoured(uc, rp.profile)
  {
    hide LoadedResolved, ClosedPathOk, SnapshotOf, AllKnown, Persistables, EncodePayload, NormalizePayload, ShapeOk,
         DecodePayload, Digestible, Canonical, PayloadConditions, ReplayConditions, NormalizedFailure,
         NormalizeFindings, ObservationOf, RefsPinned, ConstraintsHonoured;
    var p := Assembled(cp, uc, a, findings);
    FrozenParts(rp, client, a);
    PayloadDigestible(p);
    if a.snapshot.references == [] {
      NothingPinned();
    } else {
      CanonicalPayload(p);
      var top := NormalizeFindings(findings);
      var p' := p.(acceptedFindings := top);
      assert p' == Assembled(cp, uc, a, top);
      ClosedObservation(Obj(EncodePayload(p)));
      EncodedShapeOk(p');
      PayloadRoundTrip(p');
      var q := NormalizePayload(p');
      HeaderConditions(cp, uc, rp, client, a, top);
      NormalizeFindingsCanonical(findings);
      FindingsConditions(rp.profile, client, q);
      ReplayConditionsHold(cp, uc, rp.profile, client, q);
      RemainingConditions(uc, rp, q);
      NormalizedExact(q, Observation("EOA", []));
    }
  }

  lemma NothingPinned()
    ensures !RefsPinned([])
  {
  }

  lemma RemainingConditions(uc: UserConstraints, rp: ResolvedProfile, q: Payload)
    requires IdentityOk(q) <==> Trim(uc.keyRotationModel) in ROTATIONS
    requires SnapshotHeaderOk(q.snapshot)
    requires forall i :: 0 <= i < |q.snapshot.chainSupportUsed| ==> UsableChain(q.snapshot.chainSupportUsed[i])
    requires !FindingsDiverge(q) && SoftAccepted(q) && q.snapshot.references == rp.profile.references
    requires LoadedResolved(rp)
    ensures PayloadConditions(q) <==> Trim(uc.keyRotationModel) in ROTATIONS && RefsPinned(rp.profile.references)
    ensures ConstraintsHonoured(uc, rp.profile) ==> Trim(uc.keyRotationModel) in ROTATIONS
  {
    hide IdentityOk, SnapshotHeaderOk, UsableChain, FindingsDiverge, SoftAccepted, RefsPinned, Trim, NormalizeProfile,
         ValidChain;
  }

  lemma FrozenParts(rp: ResolvedProfile, client: seq<string>, a: AssistResult)
    requires LoadedResolved(rp) && SnapshotOf(rp.profile, client, a.snapshot)
    ensures a.snapshot.inputRequirements.walletTypes != [] && a.snapshot.references == rp.profile.references
  {
    hide Trim, NormalizeProfile, MergedFindings, PinnedChains, ValidChain;
  }

  /** The suggestion a ranked row carries is one of the choices that satisfy couche B. */
  lemma SuggestionHonoured(rp: ResolvedProfile)
    requires LoadedResolved(rp) && SuggestionConsistent(rp.profile) && rp.profile.suggested.Some?
    ensures ConstraintsHonoured(rp.profile.suggested.value, rp.profile)
  {
    hide NormalizeProfile, ValidChain, Trim, SuggestionConsistent;
    SuggestionSatisfiesCoucheB(rp.profile);
  }

  /** A ranked EOA candidate is accepted for the account kind the closed path replays. */
  lemma EoaAccepted(kind: string, walletTypes: seq<string>)
    requires WalletTypeToken(kind) == "eoa" && WalletTypeAccepted(kind, walletTypes)
    ensures WalletTypeAccepted("EOA", walletTypes)
  {
    hide Trim;
    assert Trimmed("EOA");
    assert Lower("EOA") == "eoa";
  }

  /** The user's choices, checked against what the assist answer shows. */
  predicate ChoicesHonoured(uc: UserConstraints, s: Snapshot) {
    ConstraintsHonoured(uc, SnapshotAsProfile("", s))
  }

  /** Explore ranked this row for a loaded policy, on a scan of an EOA that saw at least one chain. */
  ghost predicate RankedOnEoaScan(x: Index, cp: CryptoPolicy, observation: Observation, row: RankedRow) {
    && Valid(x) && LoadedPolicy(cp)
    && Constrained(observation.chainIDs) && WalletTypeToken(observation.accountKind) == "eoa"
    && row in ExploreSpec(x, cp, observation).ranked
  }

  /**
   Explore, assist and the persist gate agree. For every EOA candidate ranked on a constrained
   scan, whatever assist answers is a snapshot, and the payload built from it is admitted exactly
   when its references are pinned and the user's choices satisfy couche B.
   */
  lemma RankedCandidateAdmissible(x: Index, cp: CryptoPolicy, observation: Observation, row: RankedRow,
                                  client: seq<string>, r: Result<AssistResult, AssistError>, uc: UserConstraints,
                                  findings: seq<string>)
    returns (rp: ResolvedProfile)
    requires RankedOnEoaScan(x, cp, observation, row)
    requires AllKnown(TrimNonEmpty(client)) && AssistAnswers(x, cp, row.ref, client, r)
    requires r.Ok? ==> forall f :: f in findings <==> f in r.value.snapshot.acceptedFindings
    ensures r.Ok? && RankedFor(cp, observation, row, rp) && SnapshotOf(rp.profile, client, r.value.snapshot)
    ensures Admissible(Assembled(cp, uc, r.value, findings)) <==>
            RefsPinned(r.value.snapshot.references) && ChoicesHonoured(uc, r.value.snapshot)
  {
    hide Valid, LoadedPolicy, ExploreSpec, AllKnown, LookupIn, SnapshotOf, RefsPinned, ConstraintsHonoured,
         Admissible, LoadedResolved, ScanChainFindings, WalletTypeToken, WalletTypeAccepted, PostureMatches,
         SuggestionConsistent, Constrained, Trim, Persistables, ProviderAllowed, AsciiUpper, SoftCodes;
    rp := RankedGetsSnapshot(x, cp, observation, row, client);
    var a := r.value;
    assert WalletFindings(observation, rp.profile) == [] && PostureFindings(cp.requiredPosture, rp.profile) == [];
    EoaAccepted(observation.accountKind, rp.profile.inputRequirements.walletTypes);
    assert ClosedPathOk(cp, rp.profile);
    AssembledAdmissible(cp, uc, rp, client, a, findings);
    FrozenParts(rp, client, a);
    SameChoices(uc, rp.profile, client, a.snapshot);
  }

  lemma SameChoices(uc: UserConstraints, p: SolutionProfile, client: seq<string>, s: Snapshot)
    requires SnapshotOf(p, client, s)
    ensures ChoicesHonoured(uc, s) <==> ConstraintsHonoured(uc, p)
  {
    hide Trim, MergedFindings, PinnedChains;
  }

  /** In particular the choices the ranked row itself suggests are good ones. */
  lemma SuggestedChoicesAdmissible(x: Index, cp: CryptoPolicy, observation: Observation, row: RankedRow,
                                   client: seq<string>, r: Result<AssistResult, AssistError>, findings: seq<string>)
    requires RankedOnEoaScan(x, cp, observation, row) && row.suggested.Some?
    requires AllKnown(TrimNonEmpty(client)) && AssistAnswers(x, cp, row.ref, client, r)
    requires r.Ok? ==> forall f :: f in findings <==> f in r.value.snapshot.acceptedFindings
    ensures r.Ok?
    ensures Admissible(Assembled(cp, row.suggested.value, r.value, findings))
            <==> RefsPinned(r.value.snapshot.references)
  {
    hide RankedOnEoaScan, AllKnown, AssistAnswers, SnapshotOf, RefsPinned, ChoicesHonoured, Admissible,
         LoadedResolved, ScanFindings, WalletTypeToken, SuggestionConsistent, Constrained, AsciiUpper, SoftCodes,
         CandidateOf;
    var uc := row.suggested.value;
    var rp := RankedCandidateAdmissible(x, cp, observation, row, client, r, uc, findings);
    SuggestionHonoured(rp);
    SameChoices(uc, rp.profile, client, r.value.snapshot);
  }

  // --------------------------------------------------- challenge, sign, persist

  /** The digest is printable on one line. */
  predicate OneLineDigest(env: Env, c: Object) {
    '\n' !in env.hash(c) && Trim(env.hash(c)) != ""
  }

  /** The instants a challenge issued at `now` prints can be read back. */
  predicate ReadableChallenge(env: Env, now: int) {
    Readable(env.times, now / NANOS) && Readable(env.times, now / NANOS + 600)
  }

  lemma ChallengeOneLine(env: Env, domain: string, wallet: string, chainID: Int64, scanID: string, digest: string,
                         now: int)
    requires '\n' !in Trim(domain) && IsNormalWallet(wallet) && chainID >= 1
    requires '\n' !in scanID && '\n' !in digest && Trim(digest) != ""
    requires ReadableChallenge(env, now)
    ensures OneLineEach(env.times, ChallengeFields(domain, wallet, chainID, scanID, digest, now))
  {
    hide Trim, Readable;
    NormalWalletFixed(wallet);
    PersistActionTrimmed();
    SecondsOf(now);
  }

  /** Both requests are about the same wallet, chain, scan and payload. */
  predicate SameMatter(req: PersistRequest, ch: ChallengeRequest) {
    && NormalizeWallet(req.wallet) == NormalizeWallet(ch.wallet) && NormalizeWallet(ch.wallet).Some?
    && NormalizeScanID(req.scanID) == NormalizeScanID(ch.scanID)
    && req.chainID == ch.chainID && req.payload == ch.payload && req.host == ch.host
  }

  predicate SignedByWallet(env: Env, req: PersistRequest) {
    Trim(req.signature) != "" && Signer(env, req.signedMessage, req.signature) == NormalizeWallet(req.wallet)
  }

  /** From issuance to the expiry the challenge prints. */
  predicate WithinValidity(issueNow: int, verifyNow: int) {
    issueNow <= verifyNow <= issueNow / NANOS * NANOS + MAX_VALIDITY
  }

  /** W2 holds for the caller, who has no policy for this wallet yet. */
  predicate MayPersist(cfg: Config, oracle: Oracle, store: Store, principal: Principal, req: PersistRequest) {
    && W2Failure(cfg, oracle, principal, CanonicalWallet(req.wallet), CanonicalScanID(req.scanID)).None?
    && principal.Authenticated() && !Taken(store, principal.AsOwner(), CanonicalWallet(req.wallet))
  }

  lemma SignedIsAuthorized(env: Env, cfg: Config, ch: ChallengeRequest, req: PersistRequest, issueNow: int,
                           verifyNow: int, digest: string)
    requires ChallengeShapeOk(ch) && SameMatter(req, ch)
    requires '\n' !in Trim(AuthDomain(cfg, ch.host)) && '\n' !in digest && Trim(digest) != ""
    requires ReadableChallenge(env, issueNow)
    requires req.signedMessage
             == BuildMessage(env.times, ChallengeFields(AuthDomain(cfg, ch.host), CanonicalWallet(ch.wallet),
                                    ch.chainID, CanonicalScanID(ch.scanID), digest, issueNow))
    requires SignedByWallet(env, req) && WithinValidity(issueNow, verifyNow)
    ensures Authorized(env, AuthInput(cfg, req, digest, verifyNow))
    ensures Trim(req.signedMessage) != ""
  {
    hide Trim, NormalizeWallet, NormalizeScanID, BuildMessage, Authorized, OneLineEach, Signer, AuthDomain,
         ReadableChallenge, IsNormalWallet;
    var wallet, scanID := CanonicalWallet(ch.wallet), CanonicalScanID(ch.scanID);
    NormalScanIDFixed(ch.scanID);
    ChallengeOneLine(env, AuthDomain(cfg, ch.host), wallet, ch.chainID, scanID, digest, issueNow);
    ChallengeSeconds(issueNow);
    var input := AuthInput(cfg, req, digest, verifyNow);
    ChallengeVerifies(env, input, issueNow);
    BuiltNotBlank(env, ChallengeFields(AuthDomain(cfg, ch.host), wallet, ch.chainID, scanID, digest, issueNow));
  }

  /** The policy the store should hold after this request: canonical payload, stamps, wallet and digest. */
  function StoredPolicy(env: Env, principal: Principal, req: PersistRequest, canonical: Object, createNow: int,
                        id: string)
    : (r: PolicyRecord)
  {
    var wallet, scanID := CanonicalWallet(req.wallet), CanonicalScanID(req.scanID);
    PolicyRecord(id, principal.AsOwner(), scanID,
      Stamped(canonical, scanID, wallet, req.chainID, PrintInstant(env.times, createNow)),
      Trim(env.hash(canonical)), wallet, req.chainID, createNow, createNow)
  }

  /** The handler answers without error and adds exactly the policy the request describes. */
  predicate Persists(env: Env, cfg: Config, oracle: Oracle, store: Store, principal: Principal, req: PersistRequest,
                     verifyNow: int, createNow: int, id: string) {
    && PersistFailure(env, cfg, oracle, store, principal, req, verifyNow, createNow) == None
    && Digestible(req.payload)
    && StoreAfterPersist(env, cfg, oracle, store, principal, req, verifyNow, createNow, id)
       == store[id := StoredPolicy(env, principal, req, Canonical(req.payload.fields), createNow, id)]
  }

  /**
   A challenge that is signed by its wallet is honoured: any time before it expires, if W2 still
   holds and the wallet has no policy yet, the persist handler stores the policy.
   */
  lemma SignedChallengePersists(env: Env, cfg: Config, before: Oracle, oracle: Oracle, store: Store,
                                principal: Principal, ch: ChallengeRequest, req: PersistRequest, issueNow: int,
                                verifyNow: int, createNow: int, id: string)
    requires ChallengeMessage(env, cfg, before, principal, ch, issueNow) == Some(req.signedMessage)
    requires SameMatter(req, ch)
    requires Digestible(ch.payload) && GateFailure(Canonical(ch.payload.fields)).None?
    requires OneLineDigest(env, Canonical(ch.payload.fields)) && '\n' !in Trim(AuthDomain(cfg, ch.host))
    requires ReadableChallenge(env, issueNow)
    requires SignedByWallet(env, req) && WithinValidity(issueNow, verifyNow)
    requires MayPersist(cfg, oracle, store, principal, req)
    ensures Persists(env, cfg, oracle, store, principal, req, verifyNow, createNow, id)
  {
    hide Trim, NormalizeWallet, NormalizeScanID, BuildMessage, Authorized, Signer, AuthDomain, ReadableChallenge,
         GateFailure, AllowedSubtree, ClosedKeys, StringArray, Canonical, W2Failure, Taken, ChallengeFields, Stamped;
    var digest := env.hash(Canonical(ch.payload.fields));
    SignedIsAuthorized(env, cfg, ch, req, issueNow, verifyNow, digest);
    var a := Admitted(CanonicalWallet(req.wallet), CanonicalScanID(req.scanID), digest, Canonical(ch.payload.fields));
    RequestIsWellFormed(req, ch);
    AuthorizedMeans(env, AuthInput(cfg, req, digest, verifyNow));
    assert Admission(env, cfg, oracle, principal, req, verifyNow) == Ok(a);
    InsertIsValid(env, store, principal, req, a, createNow, id);
  }

  lemma AuthorizedMeans(env: Env, input: VerifyInput)
    requires Authorized(env, input)
    ensures VerifyFailure(env, input) == None
  {
    hide VerifyFailure;
  }

  lemma RequestIsWellFormed(req: PersistRequest, ch: ChallengeRequest)
    requires ChallengeShapeOk(ch) && SameMatter(req, ch)
    requires Trim(req.signedMessage) != "" && Trim(req.signature) != ""
    ensures RequestFailure(req) == None
  {
    WalletNotBlank(req.wallet);
    ScanNotBlank(req.scanID);
  }

  lemma WalletNotBlank(wallet: string)
    ensures NormalizeWallet(wallet).Some? ==> Trim(wallet) != ""
  {
    hide Trim;
  }

  lemma ScanNotBlank(scanID: string)
    ensures NormalizeScanID(scanID).Some? ==> Trim(scanID) != ""
  {
    hide Trim;
  }

  lemma InsertIsValid(env: Env, store: Store, principal: Principal, req: PersistRequest, a: Admitted, createNow: int,
                      id: string)
    requires principal.Authenticated() && !Taken(store, principal.AsOwner(), a.wallet)
    requires NormalizeWallet(req.wallet) == Some(a.wallet) && NormalizeScanID(req.scanID) == Some(a.scanID)
    requires req.chainID >= 1 && Trim(a.digest) != "" && a.digest == env.hash(a.canonical)
    ensures CreateFailure(store, principal, InsertInput(env, req, a, createNow)) == None
    ensures OwnerStore.Apply(store, CreateOp(principal, InsertInput(env, req, a, createNow), id))
            == store[id := StoredPolicy(env, principal, req, a.canonical, createNow, id)]
  {
    hide Trim, NormalizeWallet, NormalizeScanID, Taken, Stamped;
    NormalWalletFixed(a.wallet);
    NormalScanIDFixed(req.scanID);
  }

  /** The client assembled the payload from the answer, with pinned references, its findings and good choices. */
  ghost predicate AssembledFrom(cp: CryptoPolicy, a: AssistResult, uc: UserConstraints, findings: seq<string>,
                                payload: Json) {
    && (forall f :: f in findings <==> f in a.snapshot.acceptedFindings)
    && RefsPinned(a.snapshot.references) && ChoicesHonoured(uc, a.snapshot)
    && payload == Obj(EncodePayload(Assembled(cp, uc, a, findings)))
  }

  /** A well-formed challenge request for the latest scan, in a world that prints digests and instants on one line. */
  ghost predicate ChallengeIssued(env: Env, cfg: Config, oracle: Oracle, principal: Principal, ch: ChallengeRequest,
                                  issueNow: int) {
    && ChallengeShapeOk(ch)
    && W2Failure(cfg, oracle, principal, CanonicalWallet(ch.wallet), CanonicalScanID(ch.scanID)).None?
    && (forall c: Object :: OneLineDigest(env, c))
    && '\n' !in Trim(AuthDomain(cfg, ch.host)) && ReadableChallenge(env, issueNow)
  }

  /** The request is about the challenge and carries the message it printed, if it printed one. */
  predicate AnswersChallenge(env: Env, cfg: Config, oracle: Oracle, principal: Principal, ch: ChallengeRequest,
                             req: PersistRequest, issueNow: int) {
    var message := ChallengeMessage(env, cfg, oracle, principal, ch, issueNow);
    SameMatter(req, ch) && (message.Some? ==> message == Some(req.signedMessage))
  }

  /**
   End to end: a candidate ranked on a constrained scan by an EOA owner can always be persisted.
   Assist succeeds, the assembled payload can be challenged, and once the wallet has signed, the
   persist handler stores the policy at any instant before expiry.
   */
  lemma RankedCandidateCanBePersisted(
    env: Env, cfg: Config, before: Oracle, oracle: Oracle, store: Store, principal: Principal,
    x: Index, cp: CryptoPolicy, observation: Observation, row: RankedRow, client: seq<string>,
    r: Result<AssistResult, AssistError>, uc: UserConstraints, findings: seq<string>,
    ch: ChallengeRequest, req: PersistRequest, issueNow: int, verifyNow: int, createNow: int, id: string)
    requires RankedOnEoaScan(x, cp, observation, row)
    requires AllKnown(TrimNonEmpty(client)) && AssistAnswers(x, cp, row.ref, client, r)
    requires r.Ok? ==> AssembledFrom(cp, r.value, uc, findings, ch.payload)
    requires ChallengeIssued(env, cfg, before, principal, ch, issueNow)
    requires AnswersChallenge(env, cfg, before, principal, ch, req, issueNow)
    requires SignedByWallet(env, req) && WithinValidity(issueNow, verifyNow)
    requires MayPersist(cfg, oracle, store, principal, req)
    ensures r.Ok?
    ensures ChallengeMessage(env, cfg, before, principal, ch, issueNow).Some?
    ensures Persists(env, cfg, oracle, store, principal, req, verifyNow, createNow, id)
  {
    hide RankedOnEoaScan, AllKnown, AssistAnswers, SnapshotOf, RefsPinned, ChoicesHonoured, EncodePayload,
         AllowedSubtree, ClosedKeys, StringArray, Canonical, GateFailure, WalletTypeToken, Constrained, Trim,
         ChallengeShapeOk, W2Failure, SameMatter, SignedByWallet, WithinValidity, MayPersist, ReadableChallenge,
         AuthDomain, RankedFor, CanonicalWallet, CanonicalScanID, BuildMessage, Persists;
    var _ := RankedCandidateAdmissible(x, cp, observation, row, client, r, uc, findings);
    SignedChallengePersists(env, cfg, before, oracle, store, principal, ch, req, issueNow, verifyNow, createNow, id);
  }
}
