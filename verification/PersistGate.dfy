/**
 internal/domain/policy/persist_payload.go: the business gate a payload passes before it is
 stored. It reads only the payload, never the live registry.
 */
module PersistGate {
  import opened Wrappers
  import opened Text
  import opened Json
  import opened Provider
  import opened Compatibility
  import opened Assist
  import opened Codec
  import opened PayloadHash

  const SCHEMA_V02: string := "cafe.crypto_policy.v0.2"

  datatype GateError =
    | PayloadInvalid
    | ChainPlanned
    | FindingsDivergent
    | SoftFindingsRequired
    | RefsUnpinned
    | ScanCompatFailed
    | UserConstraintsIncompatible(code: HardCode)

  // ----------------------------------------------------------- normalization

  function TrimChain(c: SnapshotChain): (r: SnapshotChain) {
    c.(status := Trim(c.status))
  }

  function TrimChains(cs: seq<SnapshotChain>): (r: seq<SnapshotChain>)
    ensures |r| == |cs| && forall i :: 0 <= i < |cs| ==> r[i] == TrimChain(cs[i])
  {
    seq(|cs|, i requires 0 <= i < |cs| => TrimChain(cs[i]))
  }

  function NormalizeSnapshot(s: Snapshot): (r: Snapshot) {
    s.(maturity := Trim(s.maturity), claimStatus := Trim(s.claimStatus), resultingPosture := Trim(s.resultingPosture),
       signature := SignatureProfile(Trim(s.signature.scheme), Trim(s.signature.family),
                                     Trim(s.signature.keyRotationModel)),
       chainSupportUsed := TrimChains(s.chainSupportUsed), references := NormalizeReferences(s.references),
       acceptedFindings := TrimNonEmpty(s.acceptedFindings), acceptedRiskNotes := TrimNonEmpty(s.acceptedRiskNotes))
  }

  function NormalizePayload(p: Payload): (r: Payload) {
    Payload(Trim(p.schemaVersion), Trim(p.policyKind), Trim(p.cryptoPolicyID), Trim(p.requiredPosture),
      p.userConstraints.(keyRotationModel := Trim(p.userConstraints.keyRotationModel)),
      TrimRef(p.ref), NormalizeSnapshot(p.snapshot), p.acceptedFindings)
  }

  // ------------------------------------------------------------------ checks

  predicate IdentityOk(p: Payload) {
    && p.schemaVersion == SCHEMA_V02
    && p.cryptoPolicyID != ""
    && p.requiredPosture in POSTURES
    && p.userConstraints.keyRotationModel in ROTATIONS
    && p.ref.Complete()
  }

  predicate SnapshotHeaderOk(s: Snapshot) {
    && s.maturity != "" && s.claimStatus in CLAIM_STATUSES && s.resultingPosture in POSTURES
    && s.signature.scheme != "" && s.signature.family != ""
    && s.chainSupportUsed != []
  }

  /** The first unusable pinned chain decides the error. */
  function ChainsFailure(cs: seq<SnapshotChain>): (r: Option<GateError>) {
    if cs == [] then None
    else if cs[0].chainID <= 0 || cs[0].status == "" then Some(PayloadInvalid)
    else if cs[0].status == PLANNED then Some(ChainPlanned)
    else ChainsFailure(cs[1..])
  }

  predicate UsableChain(c: SnapshotChain) {
    c.chainID > 0 && c.status != "" && c.status != PLANNED
  }

  lemma {:induction false} ChainsPass(cs: seq<SnapshotChain>)
    ensures ChainsFailure(cs) == None <==> forall i :: 0 <= i < |cs| ==> UsableChain(cs[i])
  {
    if cs == [] {
    } else {
      ChainsPass(cs[1..]);
      assert forall i :: 0 <= i < |cs| - 1 ==> cs[1..][i] == cs[i + 1];
      assert (forall i :: 0 <= i < |cs| ==> UsableChain(cs[i])) <==>
             UsableChain(cs[0]) && forall i :: 0 <= i < |cs[1..]| ==> UsableChain(cs[1..][i]) by {
        if UsableChain(cs[0]) && forall i :: 0 <= i < |cs[1..]| ==> UsableChain(cs[1..][i]) {
          forall i | 0 <= i < |cs| ensures UsableChain(cs[i]) {
            assert i > 0 ==> cs[1..][i - 1] == cs[i];
          }
        }
      }
    }
  }

  function SnapshotFailure(s: Snapshot): (r: Option<GateError>) {
    if !SnapshotHeaderOk(s) then Some(PayloadInvalid) else ChainsFailure(s.chainSupportUsed)
  }

  predicate FindingsDiverge(p: Payload) {
    var top := NormalizeFindings(p.acceptedFindings);
    var snap := NormalizeFindings(p.snapshot.acceptedFindings);
    top != [] && snap != [] && top != snap
  }

  /** The top-level copy is the hashed authority; the snapshot's copy is the fallback. */
  function EffectiveFindings(p: Payload): (r: seq<string>) {
    var top := NormalizeFindings(p.acceptedFindings);
    if top != [] then top else NormalizeFindings(p.snapshot.acceptedFindings)
  }

  predicate SoftAccepted(p: Payload) {
    && (p.snapshot.accountModel.requiresBundler ==> REQUIRES_BUNDLER in EffectiveFindings(p))
    && (p.snapshot.constraints.requiresLocalSignerState ==> REQUIRES_LOCAL_SIGNER_STATE in EffectiveFindings(p))
  }

  predicate RefsPinned(refs: seq<Reference>) {
    refs != [] && forall i :: 0 <= i < |refs| ==> !refs[i].IsUnpinned()
  }

  function ReplayFailure(p: Payload, obs: Observation): (r: Option<GateError>) {
    var profile := SnapshotAsProfile(p.ref.profileID, p.snapshot);
    var uc := p.userConstraints;
    if ScanFindings(obs, p.requiredPosture, profile) != [] then Some(ScanCompatFailed)
    else
      var user := UserFindings(uc, profile, USER_CONSTRAINTS);
      if user != [] then Some(UserConstraintsIncompatible(user[0].code))
      else
        var hard := HardFindings(obs, HardRequest(p.requiredPosture, obs.chainIDs, uc), profile);
        if hard != [] then Some(UserConstraintsIncompatible(hard[0].code)) else None
  }

  function NormalizedFailure(p: Payload, obs: Observation): (r: Option<GateError>) {
    if !IdentityOk(p) then Some(PayloadInvalid)
    else if SnapshotFailure(p.snapshot).Some? then SnapshotFailure(p.snapshot)
    else if FindingsDiverge(p) then Some(FindingsDivergent)
    else if !SoftAccepted(p) then Some(SoftFindingsRequired)
    else if !RefsPinned(p.snapshot.references) then Some(RefsUnpinned)
    else ReplayFailure(p, obs)
  }

  // --------------------------------------------------------------- raw shape

  const LEGACY_FIELDS: seq<string> :=
    ["template_id", "selection_request", "allow_new_wallet", "address_continuity_required", "key_rotation_model"]

  predicate ShapeOk(raw: Object) {
    && (forall k :: k in LEGACY_FIELDS ==> k !in raw)
    && "crypto_policy_id" in raw
    && "user_constraints" in raw && raw["user_constraints"].Obj?
    && "allow_new_wallet" in raw["user_constraints"].fields
    && "address_continuity_required" in raw["user_constraints"].fields
    && "key_rotation_model" in raw["user_constraints"].fields
  }

  function Truncate(n: real): (r: int) {
    if n >= 0.0 then n.Floor else -((-n).Floor)
  }

  function IntItems(items: seq<Json>): (r: seq<Int64>) {
    if items == [] then []
    else
      var n := |items| - 1;
      IntItems(items[..n]) +
      (match items[n]
       case Num(x) => if -0x8000_0000_0000_0000 <= Truncate(x) <= 0x7fff_ffff_ffff_ffff then [Truncate(x)] else []
       case GoInt(i) => if -0x8000_0000_0000_0000 <= i <= 0x7fff_ffff_ffff_ffff then [i] else []
       case _ => [])
  }

  /** observationFromPersistRaw: only an explicit policy_context can constrain the replay. */
  function ObservationOf(raw: Object): (r: Observation) {
    if "policy_context" in raw && raw["policy_context"].Obj? then
      var pc := raw["policy_context"].fields;
      var walletType := StringField(pc, "wallet_type");
      var kind := if walletType == "" then StringField(pc, "account_kind") else walletType;
      var chains := if "chain_ids" in pc && pc["chain_ids"].Arr? then IntItems(pc["chain_ids"].elems) else [];
      Observation(if kind == "" then "EOA" else kind, chains)
    else Observation("EOA", [])
  }

  /** ValidatePayloadForPersist: the first gate that fails, if any. */
  function GateFailure(raw: Object): (r: Option<GateError>) {
    if !ShapeOk(raw) then Some(PayloadInvalid)
    else
      match DecodePayload(raw)
      case None => Some(PayloadInvalid)
      case Some(p) => NormalizedFailure(NormalizePayload(p), ObservationOf(raw))
  }

  // ------------------------------------------------------------------ methods

  method ValidatePersistSnapshot(s: Snapshot) returns (err: Option<GateError>)
    ensures err == SnapshotFailure(s)
  {
    if !SnapshotHeaderOk(s) {
      return Some(PayloadInvalid);
    }
    var cs := s.chainSupportUsed;
    var i := 0;
    while i < |cs|
      invariant 0 <= i <= |cs|
      invariant ChainsFailure(cs) == ChainsFailure(cs[i..])
    {
      if cs[i].chainID <= 0 || cs[i].status == "" {
        return Some(PayloadInvalid);
      }
      if cs[i].status == PLANNED {
        return Some(ChainPlanned);
      }
      i := i + 1;
    }
    return None;
  }

  method RequireAcceptedSoftFindings(p: Payload) returns (err: Option<GateError>)
    ensures err == if FindingsDiverge(p) then Some(FindingsDivergent)
                   else if !SoftAccepted(p) then Some(SoftFindingsRequired) else None
  {
    hide NormalizeFindings;
    var top := NormalizeAcceptedFindings(p.acceptedFindings);
    var snap := NormalizeAcceptedFindings(p.snapshot.acceptedFindings);
    if |top| > 0 && |snap| > 0 && top != snap {
      return Some(FindingsDivergent);
    }
    var soft := if |top| > 0 then top else snap;
    var accepted: set<string> := {};
    var i := 0;
    while i < |soft|
      invariant 0 <= i <= |soft|
      invariant forall x :: x in accepted <==> x in soft[..i]
    {
      accepted := accepted + {soft[i]};
      i := i + 1;
    }
    assert soft[..i] == soft;
    var missing: seq<string> := [];
    if p.snapshot.accountModel.requiresBundler && REQUIRES_BUNDLER !in accepted {
      missing := missing + [REQUIRES_BUNDLER];
    }
    if p.snapshot.constraints.requiresLocalSignerState && REQUIRES_LOCAL_SIGNER_STATE !in accepted {
      missing := missing + [REQUIRES_LOCAL_SIGNER_STATE];
    }
    return if |missing| > 0 then Some(SoftFindingsRequired) else None;
  }

  method RequirePinnedReferences(refs: seq<Reference>) returns (ok: bool)
    ensures ok <==> RefsPinned(refs)
  {
    if |refs| == 0 {
      return false;
    }
    var i := 0;
    while i < |refs|
      invariant 0 <= i <= |refs|
      invariant forall k :: 0 <= k < i ==> !refs[k].IsUnpinned()
    {
      if refs[i].IsUnpinned() {
        return false;
      }
      i := i + 1;
    }
    return true;
  }

  method ReplayCoucheAB(p: Payload, obs: Observation) returns (err: Option<GateError>)
    ensures err == ReplayFailure(p, obs)
  {
    hide ScanFindings, UserFindings, HardFindings, ConstraintsHonoured, SnapshotAsProfile;
    var profile := SnapshotAsProfile(p.ref.profileID, p.snapshot);
    var scan := EvaluateScanCompatibility(obs, p.requiredPosture, profile);
    if |scan| > 0 {
      return Some(ScanCompatFailed);
    }
    var user := EvaluateUserConstraints(p.userConstraints, profile);
    if |user| > 0 {
      return Some(UserConstraintsIncompatible(user[0].code));
    }
    var hard := EvaluateHardCompatibility(obs, HardRequest(p.requiredPosture, obs.chainIDs, p.userConstraints),
                                          profile);
    if |hard| > 0 {
      return Some(UserConstraintsIncompatible(hard[0].code));
    }
    return None;
  }

  method ValidateForPersist(raw: Payload, obs: Observation) returns (err: Option<GateError>)
    ensures err == NormalizedFailure(NormalizePayload(raw), obs)
  {
    hide NormalizePayload, ReplayFailure, SnapshotFailure, FindingsDiverge, SoftAccepted, IdentityOk;
    var p := NormalizePayload(raw);
    if !IdentityOk(p) {
      return Some(PayloadInvalid);
    }
    err := ValidatePersistSnapshot(p.snapshot);
    if err.Some? {
      return;
    }
    err := RequireAcceptedSoftFindings(p);
    if err.Some? {
      return;
    }
    var pinned := RequirePinnedReferences(p.snapshot.references);
    if !pinned {
      return Some(RefsUnpinned);
    }
    err := ReplayCoucheAB(p, obs);
  }

  method ValidatePayloadForPersist(raw: Object) returns (err: Option<GateError>)
    ensures err == GateFailure(raw)
  {
    hide ShapeOk, DecodePayload, NormalizedFailure, NormalizePayload, ObservationOf;
    if !ShapeOk(raw) {
      return Some(PayloadInvalid);
    }
    match DecodePayload(raw)
    case None => return Some(PayloadInvalid);
    case Some(p) => err := ValidateForPersist(p, ObservationOf(raw));
  }

  // --------------------------------------------------------------- exact form

  /** What the replay demands of the pinned profile, written without any evaluator. */
  predicate ReplayConditions(p: Payload, obs: Observation) {
    var profile := SnapshotAsProfile(p.ref.profileID, p.snapshot);
    && PostureMatches(p.requiredPosture, profile)
    && WalletTypeAccepted(obs.accountKind, profile.inputRequirements.walletTypes)
    && ConstraintsHonoured(p.userConstraints, profile)
    && (Constrained(obs.chainIDs) ==> SomeCapable(profile, obs.chainIDs))
    && AllTargetsSupported(obs.chainIDs, profile)
  }

  /** The replay accepts exactly these payloads: one observed chain fully capable, every observed chain supported. */
  lemma ReplayExact(p: Payload, obs: Observation)
    ensures ReplayFailure(p, obs) == None <==> ReplayConditions(p, obs)
  {
    hide ScanFindings, UserFindings, HardFindings, PostureMatches, WalletTypeAccepted, ConstraintsHonoured,
         Constrained, SomeCapable, AllTargetsSupported, SnapshotAsProfile;
    ReplayGatesExact(obs, p.requiredPosture, p.userConstraints, SnapshotAsProfile(p.ref.profileID, p.snapshot));
  }

  /** What the snapshot and its findings must look like. */
  predicate PayloadConditions(p: Payload) {
    && IdentityOk(p)
    && SnapshotHeaderOk(p.snapshot)
    && (forall i :: 0 <= i < |p.snapshot.chainSupportUsed| ==> UsableChain(p.snapshot.chainSupportUsed[i]))
    && !FindingsDiverge(p)
    && SoftAccepted(p)
    && RefsPinned(p.snapshot.references)
  }

  lemma NormalizedExact(p: Payload, obs: Observation)
    ensures NormalizedFailure(p, obs) == None <==> PayloadConditions(p) && ReplayConditions(p, obs)
  {
    hide IdentityOk, SnapshotHeaderOk, UsableChain, FindingsDiverge, SoftAccepted, RefsPinned, ReplayFailure,
         ReplayConditions, ChainsFailure;
    ChainsPass(p.snapshot.chainSupportUsed);
    ReplayExact(p, obs);
  }

  // ------------------------------------------------ the gate on raw payloads

  // What the gate demands of a payload as the client sent it, group by group in the order of the
  // checks, written over the untrimmed fields.

  predicate RawIdentity(p: Payload) {
    && Trim(p.schemaVersion) == "cafe.crypto_policy.v0.2"
    && Trim(p.cryptoPolicyID) != ""
    && Trim(p.requiredPosture) in ["classical_only", "hybrid", "full_pq"]
    && Trim(p.userConstraints.keyRotationModel) in ["none", "per_userop"]
    && Trim(p.ref.providerID) != "" && Trim(p.ref.profileID) != "" && Trim(p.ref.manifestVersion) != ""
  }

  predicate RawHeader(s: Snapshot) {
    && Trim(s.maturity) != ""
    && Trim(s.claimStatus) in ["declared", "cafe_reviewed", "externally_audited", "executed_observed"]
    && Trim(s.resultingPosture) in ["classical_only", "hybrid", "full_pq"]
    && Trim(s.signature.scheme) != "" && Trim(s.signature.family) != ""
    && s.chainSupportUsed != []
  }

  predicate RawMalformed(c: SnapshotChain) {
    c.chainID <= 0 || Trim(c.status) == ""
  }

  predicate RawPlanned(c: SnapshotChain) {
    !RawMalformed(c) && Trim(c.status) == "planned"
  }

  /** The first pinned chain that is malformed or planned. */
  predicate FirstBadChain(cs: seq<SnapshotChain>, i: nat) {
    && i < |cs| && (RawMalformed(cs[i]) || RawPlanned(cs[i]))
    && forall j :: 0 <= j < i ==> !RawMalformed(cs[j]) && !RawPlanned(cs[j])
  }

  predicate RawChains(cs: seq<SnapshotChain>) {
    forall i :: 0 <= i < |cs| ==> cs[i].chainID > 0 && Trim(cs[i].status) != "" && Trim(cs[i].status) != "planned"
  }

  /** The snapshot's copy names this finding. */
  predicate SnapshotFinding(s: Snapshot, x: string) {
    x != "" && exists i :: 0 <= i < |s.acceptedFindings| && Trim(s.acceptedFindings[i]) == x
  }

  /** Where both copies name findings, they name the same ones. */
  ghost predicate RawFindingsAgree(p: Payload) {
    || p.acceptedFindings == []
    || (forall x :: !SnapshotFinding(p.snapshot, x))
    || (forall x :: x in p.acceptedFindings <==> SnapshotFinding(p.snapshot, x))
  }

  predicate RawAccepted(p: Payload, code: string) {
    if p.acceptedFindings != [] then code in p.acceptedFindings else SnapshotFinding(p.snapshot, code)
  }

  predicate RawSoft(p: Payload) {
    && (p.snapshot.accountModel.requiresBundler ==> RawAccepted(p, "requires_bundler"))
    && (p.snapshot.constraints.requiresLocalSignerState ==> RawAccepted(p, "requires_local_signer_state"))
  }

  predicate RawPinned(refs: seq<Reference>) {
    && refs != []
    && forall i :: 0 <= i < |refs| ==>
         && Trim(refs[i].commit) != "unpinned_pending_fixture" && Trim(refs[i].version) != "unpinned_pending_fixture"
         && (Trim(refs[i].commit) != "" || Trim(refs[i].version) != "")
  }

  predicate FirstPinned(cs: seq<SnapshotChain>, chainID: int, i: nat) {
    i < |cs| && cs[i].chainID == chainID && forall j :: 0 <= j < i ==> cs[j].chainID != chainID
  }

  predicate RawWallet(s: Snapshot, kind: string) {
    && Lower(Trim(kind)) != ""
    && exists i :: 0 <= i < |s.inputRequirements.walletTypes|
                && Lower(Trim(s.inputRequirements.walletTypes[i])) == Lower(Trim(kind))
  }

  /** If the scan saw a chain, the first pin of some observed chain has every required capability. */
  predicate RawOverlap(s: Snapshot, chainIDs: seq<Int64>) {
    (exists i :: 0 <= i < |chainIDs| && chainIDs[i] > 0) ==>
      exists i, k :: 0 <= i < |chainIDs| && chainIDs[i] > 0 && 0 <= k < |s.chainSupportUsed|
                  && FirstPinned(s.chainSupportUsed, chainIDs[i], k)
                  && CoversRotation(s.chainSupportUsed[k].capabilities, Trim(s.signature.keyRotationModel))
  }

  predicate RawScan(p: Payload, obs: Observation) {
    && Trim(p.snapshot.resultingPosture) == Trim(p.requiredPosture)
    && RawWallet(p.snapshot, obs.accountKind)
    && RawOverlap(p.snapshot, obs.chainIDs)
  }

  predicate RawChoices(p: Payload) {
    && (p.snapshot.constraints.requiresNewAccount ==> p.userConstraints.allowNewWallet)
    && (p.userConstraints.addressContinuityRequired ==> p.snapshot.constraints.addressContinuitySupported)
    && Trim(p.userConstraints.keyRotationModel) == Trim(p.snapshot.signature.keyRotationModel)
  }

  /** Every observed chain is pinned, and its first pin has some capability. */
  predicate RawTargets(s: Snapshot, chainIDs: seq<Int64>) {
    forall i :: 0 <= i < |chainIDs| && chainIDs[i] > 0 ==>
      exists k :: 0 <= k < |s.chainSupportUsed| && FirstPinned(s.chainSupportUsed, chainIDs[i], k)
               && s.chainSupportUsed[k].capabilities != []
  }

  lemma IdentityRaw(p: Payload)
    ensures IdentityOk(NormalizePayload(p)) <==> RawIdentity(p)
  {
    hide Trim, NormalizeSnapshot;
    assert POSTURES == ["classical_only", "hybrid", "full_pq"] && ROTATIONS == ["none", "per_userop"];
  }

  lemma HeaderRaw(s: Snapshot)
    ensures SnapshotHeaderOk(NormalizeSnapshot(s)) <==> RawHeader(s)
  {
    hide Trim, NormalizeReferences, TrimNonEmpty;
    assert CLAIM_STATUSES == ["declared", "cafe_reviewed", "externally_audited", "executed_observed"];
  }

  lemma ChainRaw(c: SnapshotChain)
    ensures UsableChain(TrimChain(c)) <==> c.chainID > 0 && Trim(c.status) != "" && Trim(c.status) != "planned"
    ensures TrimChain(c).chainID == c.chainID && TrimChain(c).status == Trim(c.status)
    ensures TrimChain(c).capabilities == c.capabilities
  {
    hide Trim;
  }

  /** The first bad pinned chain decides the error; without one there is none. */
  lemma {:induction false} ChainsFailureRaw(cs: seq<SnapshotChain>)
    ensures ChainsFailure(TrimChains(cs)) == None <==> RawChains(cs)
    ensures RawChains(cs) <==> forall i: nat :: !FirstBadChain(cs, i)
    ensures forall i: nat :: FirstBadChain(cs, i) ==>
              ChainsFailure(TrimChains(cs)) == Some(if RawMalformed(cs[i]) then PayloadInvalid else ChainPlanned)
  {
    hide Trim;
    if cs == [] {
    } else {
      var t := TrimChains(cs);
      assert t[1..] == TrimChains(cs[1..]);
      ChainsFailureRaw(cs[1..]);
      ChainRaw(cs[0]);
      assert forall i :: 0 <= i < |cs| - 1 ==> cs[1..][i] == cs[i + 1];
      forall i: nat
        ensures FirstBadChain(cs, i + 1)
                <==> (!RawMalformed(cs[0]) && !RawPlanned(cs[0]) && FirstBadChain(cs[1..], i)) {
        FirstBadShift(cs, i);
      }
      assert FirstBadChain(cs, 0) <==> RawMalformed(cs[0]) || RawPlanned(cs[0]);
      forall i: nat | FirstBadChain(cs, i)
        ensures ChainsFailure(t) == Some(if RawMalformed(cs[i]) then PayloadInvalid else ChainPlanned)
      {
        if i > 0 {
          assert FirstBadChain(cs[1..], i - 1);
        }
      }
      assert RawChains(cs) <==> (!RawMalformed(cs[0]) && !RawPlanned(cs[0]) && RawChains(cs[1..])) by {
        RawChainsShift(cs);
      }
      if !RawChains(cs) && !RawMalformed(cs[0]) && !RawPlanned(cs[0]) {
        var i: nat :| FirstBadChain(cs[1..], i);
        assert FirstBadChain(cs, i + 1);
      }
    }
  }

  lemma FirstBadShift(cs: seq<SnapshotChain>, i: nat)
    requires cs != []
    ensures FirstBadChain(cs, i + 1) <==> (!RawMalformed(cs[0]) && !RawPlanned(cs[0]) && FirstBadChain(cs[1..], i))
  {
    hide RawMalformed, RawPlanned;
    assert forall j :: 0 <= j < |cs| - 1 ==> cs[1..][j] == cs[j + 1];
    if !RawMalformed(cs[0]) && !RawPlanned(cs[0]) && FirstBadChain(cs[1..], i) {
      forall j | 0 <= j < i + 1 ensures !RawMalformed(cs[j]) && !RawPlanned(cs[j]) {
        assert j > 0 ==> cs[j] == cs[1..][j - 1];
      }
    }
    if FirstBadChain(cs, i + 1) {
      forall j | 0 <= j < i ensures !RawMalformed(cs[1..][j]) && !RawPlanned(cs[1..][j]) {
        assert cs[1..][j] == cs[j + 1];
      }
    }
  }

  lemma RawChainsShift(cs: seq<SnapshotChain>)
    requires cs != []
    ensures RawChains(cs) <==> (!RawMalformed(cs[0]) && !RawPlanned(cs[0]) && RawChains(cs[1..]))
  {
    hide Trim;
    if !RawMalformed(cs[0]) && !RawPlanned(cs[0]) && RawChains(cs[1..]) {
      forall i | 0 <= i < |cs|
        ensures cs[i].chainID > 0 && Trim(cs[i].status) != "" && Trim(cs[i].status) != "planned"
      {
        assert i > 0 ==> cs[i] == cs[1..][i - 1];
      }
    }
    if RawChains(cs) {
      forall i | 0 <= i < |cs| - 1
        ensures var c := cs[1..][i]; c.chainID > 0 && Trim(c.status) != "" && Trim(c.status) != "planned"
      {
        assert cs[1..][i] == cs[i + 1];
      }
    }
  }

  lemma SnapshotFindingsAre(s: Snapshot)
    ensures forall x :: x in NormalizeSnapshot(s).acceptedFindings <==> SnapshotFinding(s, x)
    ensures forall x :: x in NormalizeFindings(NormalizeSnapshot(s).acceptedFindings) <==> SnapshotFinding(s, x)
  {
    hide Trim, TrimNonEmpty, NormalizeFindings, NormalizeReferences, TrimChains, Precedes, Less;
    forall x ensures x in NormalizeSnapshot(s).acceptedFindings <==> SnapshotFinding(s, x) {
      TrimNonEmptyElements(s.acceptedFindings, x);
    }
    NormalizeFindingsCanonical(NormalizeSnapshot(s).acceptedFindings);
  }

  lemma NoElements(s: seq<string>)
    ensures s == [] <==> forall x :: x !in s
  {
    if s != [] {
      assert s[0] in s;
    }
  }

  lemma FindingsRaw(p: Payload)
    ensures !FindingsDiverge(NormalizePayload(p)) <==> RawFindingsAgree(p)
    ensures SoftAccepted(NormalizePayload(p)) <==> RawSoft(p)
  {
    hide Trim, NormalizeFindings, NormalizeSnapshot, SnapshotFinding, Precedes, Less, TrimRef;
    var q := NormalizePayload(p);
    var top, snap := NormalizeFindings(q.acceptedFindings), NormalizeFindings(q.snapshot.acceptedFindings);
    SnapshotFindingsAre(p.snapshot);
    NormalizeFindingsCanonical(p.acceptedFindings);
    NormalizeFindingsSameSet(q.acceptedFindings, q.snapshot.acceptedFindings);
    NoElements(top);
    NoElements(snap);
    NoElements(p.acceptedFindings);
    KeptFlags(p.snapshot);
  }

  lemma KeptFlags(s: Snapshot)
    ensures NormalizeSnapshot(s).accountModel == s.accountModel && NormalizeSnapshot(s).constraints == s.constraints
    ensures NormalizeSnapshot(s).inputRequirements == s.inputRequirements
    ensures NormalizeSnapshot(s).chainSupportUsed == TrimChains(s.chainSupportUsed)
    ensures NormalizeSnapshot(s).resultingPosture == Trim(s.resultingPosture)
    ensures NormalizeSnapshot(s).signature.keyRotationModel == Trim(s.signature.keyRotationModel)
  {
    hide Trim, TrimNonEmpty, NormalizeReferences, TrimChains;
  }

  lemma PinnedRaw(s: Snapshot)
    ensures RefsPinned(NormalizeSnapshot(s).references) <==> RawPinned(s.references)
  {
    hide Trim, TrimNonEmpty, TrimChains;
    var refs := NormalizeSnapshot(s).references;
    assert forall i :: 0 <= i < |refs| ==> refs[i] == NormalizeReference(s.references[i]);
    assert UNPINNED == "unpinned_pending_fixture";
  }

  lemma FindPinned(cs: seq<SnapshotChain>, chainID: int, k: nat)
    requires FirstPinned(cs, chainID, k)
    ensures FindChain(Unpins(TrimChains(cs)), chainID)
            == Some(ChainSupport(cs[k].chainID, "", Trim(cs[k].status), cs[k].capabilities))
    decreases k
  {
    hide Trim;
    var u := Unpins(TrimChains(cs));
    assert u[0] == Unpin(TrimChain(cs[0]));
    if k > 0 {
      assert u[1..] == Unpins(TrimChains(cs[1..]));
      assert forall j :: 0 <= j < |cs| - 1 ==> cs[1..][j] == cs[j + 1];
      FindPinned(cs[1..], chainID, k - 1);
    }
  }

  lemma {:induction false} SomePinned(cs: seq<SnapshotChain>, chainID: int) returns (k: nat)
    requires exists i :: 0 <= i < |cs| && cs[i].chainID == chainID
    ensures FirstPinned(cs, chainID, k)
  {
    if cs[0].chainID == chainID {
      k := 0;
    } else {
      var i :| 0 <= i < |cs| && cs[i].chainID == chainID;
      assert cs[1..][i - 1] == cs[i];
      k := SomePinned(cs[1..], chainID);
      k := k + 1;
      assert forall j :: 1 <= j < k ==> cs[j] == cs[1..][j - 1];
    }
  }

  /** What a replayed lookup of one chain says, in terms of the first pin. */
  lemma ChainVerdictRaw(s: Snapshot, profileID: string, chainID: int)
    requires RawChains(s.chainSupportUsed)
    ensures var q := SnapshotAsProfile(profileID, NormalizeSnapshot(s));
            && (TargetSupported(q, chainID) <==>
                  exists k :: 0 <= k < |s.chainSupportUsed| && FirstPinned(s.chainSupportUsed, chainID, k)
                           && s.chainSupportUsed[k].capabilities != [])
            && (Capable(q, chainID) <==>
                  exists k :: 0 <= k < |s.chainSupportUsed| && FirstPinned(s.chainSupportUsed, chainID, k)
                           && CoversRotation(s.chainSupportUsed[k].capabilities, Trim(s.signature.keyRotationModel)))
  {
    hide Trim, FindChain, HasCapabilities, MinimumCapabilities, CoversRotation, NormalizeSnapshot, TrimChains;
    var cs := s.chainSupportUsed;
    KeptFlags(s);
    if exists i :: 0 <= i < |cs| && cs[i].chainID == chainID {
      var k := SomePinned(cs, chainID);
      FindPinned(cs, chainID, k);
      CapabilitiesExact(cs[k].capabilities, Trim(s.signature.keyRotationModel));
      assert forall j :: 0 <= j < |cs| && FirstPinned(cs, chainID, j) ==> j == k;
    } else {
      NothingPinned(cs, chainID);
    }
  }

  lemma NothingPinned(cs: seq<SnapshotChain>, chainID: int)
    requires forall i :: 0 <= i < |cs| ==> cs[i].chainID != chainID
    ensures FindChain(Unpins(TrimChains(cs)), chainID) == None
  {
    hide FindChain, Trim;
    assert forall i :: 0 <= i < |cs| ==> Unpins(TrimChains(cs))[i].chainID == cs[i].chainID;
  }

  /** Everything a payload must be, over its raw fields. */
  ghost predicate GateAccepts(p: Payload, obs: Observation) {
    && RawIdentity(p) && RawHeader(p.snapshot) && RawChains(p.snapshot.chainSupportUsed)
    && RawFindingsAgree(p) && RawSoft(p) && RawPinned(p.snapshot.references)
    && RawScan(p, obs) && RawChoices(p) && RawTargets(p.snapshot, obs.chainIDs)
  }

  lemma OverlapRaw(p: Payload, obs: Observation)
    requires RawChains(p.snapshot.chainSupportUsed)
    ensures var q := SnapshotAsProfile(TrimRef(p.ref).profileID, NormalizeSnapshot(p.snapshot));
            && ((Constrained(obs.chainIDs) ==> SomeCapable(q, obs.chainIDs)) <==> RawOverlap(p.snapshot, obs.chainIDs))
            && (AllTargetsSupported(obs.chainIDs, q) <==> RawTargets(p.snapshot, obs.chainIDs))
  {
    hide Trim, Capable, TargetSupported, FirstPinned, CoversRotation, NormalizeSnapshot, SnapshotAsProfile;
    var q := SnapshotAsProfile(TrimRef(p.ref).profileID, NormalizeSnapshot(p.snapshot));
    forall i | 0 <= i < |obs.chainIDs|
      ensures TargetSupported(q, obs.chainIDs[i]) <==>
                exists k :: 0 <= k < |p.snapshot.chainSupportUsed|
                         && FirstPinned(p.snapshot.chainSupportUsed, obs.chainIDs[i], k)
                         && p.snapshot.chainSupportUsed[k].capabilities != []
      ensures Capable(q, obs.chainIDs[i]) <==>
                exists k :: 0 <= k < |p.snapshot.chainSupportUsed|
                         && FirstPinned(p.snapshot.chainSupportUsed, obs.chainIDs[i], k)
                         && CoversRotation(p.snapshot.chainSupportUsed[k].capabilities,
                                           Trim(p.snapshot.signature.keyRotationModel))
    {
      ChainVerdictRaw(p.snapshot, TrimRef(p.ref).profileID, obs.chainIDs[i]);
    }
  }

  /** The profile the replay sees. */
  function Replayed(p: Payload): (r: SolutionProfile) {
    var q := NormalizePayload(p);
    SnapshotAsProfile(q.ref.profileID, q.snapshot)
  }

  lemma ReplayedReads(p: Payload)
    ensures var r := Replayed(p);
            && r.resultingPosture == Trim(p.snapshot.resultingPosture)
            && r.inputRequirements == p.snapshot.inputRequirements && r.constraints == p.snapshot.constraints
            && r.signature.keyRotationModel == Trim(p.snapshot.signature.keyRotationModel)
            && r == SnapshotAsProfile(TrimRef(p.ref).profileID, NormalizeSnapshot(p.snapshot))
    ensures var q := NormalizePayload(p);
            && q.requiredPosture == Trim(p.requiredPosture)
            && q.userConstraints.keyRotationModel == Trim(p.userConstraints.keyRotationModel)
            && q.userConstraints.allowNewWallet == p.userConstraints.allowNewWallet
            && q.userConstraints.addressContinuityRequired == p.userConstraints.addressContinuityRequired
  {
    hide Trim, NormalizeSnapshot;
    KeptFlags(p.snapshot);
  }

  lemma ScanRaw(p: Payload, obs: Observation)
    requires RawIdentity(p) && RawChains(p.snapshot.chainSupportUsed)
    ensures ScanFindings(obs, NormalizePayload(p).requiredPosture, Replayed(p)) == [] <==> RawScan(p, obs)
  {
    hide Trim, Lower, SomeCapable, SomeDeployable, Constrained, AllTargetsSupported, RawOverlap, RawTargets,
         RawChains, NormalizePayload, NormalizeSnapshot, SnapshotAsProfile, Replayed;
    ReplayedReads(p);
    OverlapRaw(p, obs);
  }

  lemma ChoicesRaw(p: Payload)
    ensures var user := UserFindings(NormalizePayload(p).userConstraints, Replayed(p), USER_CONSTRAINTS);
            && (user == [] <==> RawChoices(p))
            && (user != [] ==> user[0].code == FirstObjection(p))
  {
    hide Trim, NormalizePayload, Replayed;
    ReplayedReads(p);
  }

  lemma TargetsRaw(p: Payload, obs: Observation)
    requires RawIdentity(p) && RawChains(p.snapshot.chainSupportUsed) && RawScan(p, obs) && RawChoices(p)
    ensures var q := NormalizePayload(p);
            var hard := HardFindings(obs, HardRequest(q.requiredPosture, obs.chainIDs, q.userConstraints), Replayed(p));
            && (hard == [] <==> RawTargets(p.snapshot, obs.chainIDs))
            && (hard != [] ==> hard[0].code == FirstObjection(p))
  {
    hide Trim, Lower, AllTargetsSupported, RawOverlap, RawTargets, RawChains, TargetFindings, TargetSupported,
         NormalizePayload, NormalizeSnapshot, SnapshotAsProfile, Replayed;
    ReplayedReads(p);
    OverlapRaw(p, obs);
    TargetsPass(obs.chainIDs, Replayed(p));
    TargetFindingsAre(obs.chainIDs, Replayed(p));
    var q, t := NormalizePayload(p), TargetFindings(obs.chainIDs, Replayed(p));
    assert HardFindings(obs, HardRequest(q.requiredPosture, obs.chainIDs, q.userConstraints), Replayed(p)) == t;
    assert t != [] ==> t[0] in t;
  }

  /** The code a couche B refusal carries: new wallet, continuity, rotation, else a chain. */
  function FirstObjection(p: Payload): (r: HardCode) {
    if p.snapshot.constraints.requiresNewAccount && !p.userConstraints.allowNewWallet then NewWallet
    else if p.userConstraints.addressContinuityRequired
      && !p.snapshot.constraints.addressContinuitySupported then Continuity
    else if Trim(p.userConstraints.keyRotationModel) != Trim(p.snapshot.signature.keyRotationModel) then Rotation
    else Chain
  }

  /**
   The gate, error by error, over the raw fields: the first group of demands that is not met
   decides. In particular a payload is accepted exactly when all are.
   */
  lemma GateExact(p: Payload, obs: Observation)
    ensures var r := NormalizedFailure(NormalizePayload(p), obs);
            var s := p.snapshot;
            var shape := RawIdentity(p) && RawHeader(s);
            var chains := shape && RawChains(s.chainSupportUsed);
            var findings := chains && RawFindingsAgree(p);
            var refs := findings && RawSoft(p) && RawPinned(s.references);
            && (r == None <==> GateAccepts(p, obs))
            && (!shape ==> r == Some(PayloadInvalid))
            && (forall i: nat :: shape && FirstBadChain(s.chainSupportUsed, i) ==>
                  r == Some(if RawMalformed(s.chainSupportUsed[i]) then PayloadInvalid else ChainPlanned))
            && (chains && !RawFindingsAgree(p) ==> r == Some(FindingsDivergent))
            && (findings && !RawSoft(p) ==> r == Some(SoftFindingsRequired))
            && (findings && RawSoft(p) && !RawPinned(s.references) ==> r == Some(RefsUnpinned))
            && (refs && !RawScan(p, obs) ==> r == Some(ScanCompatFailed))
            && (refs && RawScan(p, obs) && !(RawChoices(p) && RawTargets(s, obs.chainIDs)) ==>
                  r == Some(UserConstraintsIncompatible(FirstObjection(p))))
  {
    hide RawIdentity, RawHeader, RawChains, RawFindingsAgree, RawSoft, RawPinned, RawScan, RawChoices, RawTargets,
         FirstBadChain, FirstObjection, IdentityOk, SnapshotHeaderOk, ChainsFailure, FindingsDiverge, SoftAccepted,
         RefsPinned, NormalizeSnapshot, ScanFindings, UserFindings, HardFindings, SnapshotAsProfile, TrimRef, Trim;
    IdentityRaw(p);
    HeaderRaw(p.snapshot);
    ChainsFailureRaw(p.snapshot.chainSupportUsed);
    KeptFlags(p.snapshot);
    FindingsRaw(p);
    PinnedRaw(p.snapshot);
    ChoicesRaw(p);
    if RawIdentity(p) && RawChains(p.snapshot.chainSupportUsed) {
      ScanRaw(p, obs);
      if RawScan(p, obs) && RawChoices(p) {
        TargetsRaw(p, obs);
      }
    }
  }

  // ----------------------------------------------------- blanks do not matter

  predicate SameReference(a: Reference, b: Reference) {
    Trim(a.kind) == Trim(b.kind) && Trim(a.url) == Trim(b.url) && Trim(a.commit) == Trim(b.commit)
    && Trim(a.version) == Trim(b.version)
  }

  predicate SamePin(a: SnapshotChain, b: SnapshotChain) {
    a.chainID == b.chainID && Trim(a.status) == Trim(b.status) && a.capabilities == b.capabilities
  }

  predicate SameSnapshot(a: Snapshot, b: Snapshot) {
    && Trim(a.maturity) == Trim(b.maturity) && Trim(a.claimStatus) == Trim(b.claimStatus)
    && Trim(a.resultingPosture) == Trim(b.resultingPosture)
    && a.inputRequirements == b.inputRequirements && a.accountModel == b.accountModel && a.constraints == b.constraints
    && Trim(a.signature.scheme) == Trim(b.signature.scheme) && Trim(a.signature.family) == Trim(b.signature.family)
    && Trim(a.signature.keyRotationModel) == Trim(b.signature.keyRotationModel)
    && |a.chainSupportUsed| == |b.chainSupportUsed| && |a.references| == |b.references|
    && (forall i :: 0 <= i < |a.chainSupportUsed| ==> SamePin(a.chainSupportUsed[i], b.chainSupportUsed[i]))
    && (forall i :: 0 <= i < |a.references| ==> SameReference(a.references[i], b.references[i]))
    && TrimNonEmpty(a.acceptedFindings) == TrimNonEmpty(b.acceptedFindings)
    && TrimNonEmpty(a.acceptedRiskNotes) == TrimNonEmpty(b.acceptedRiskNotes)
  }

  /** The payloads differ at most in blanks around the texts the gate trims. */
  predicate SameButBlanks(a: Payload, b: Payload) {
    && Trim(a.schemaVersion) == Trim(b.schemaVersion) && Trim(a.policyKind) == Trim(b.policyKind)
    && Trim(a.cryptoPolicyID) == Trim(b.cryptoPolicyID) && Trim(a.requiredPosture) == Trim(b.requiredPosture)
    && a.userConstraints.allowNewWallet == b.userConstraints.allowNewWallet
    && a.userConstraints.addressContinuityRequired == b.userConstraints.addressContinuityRequired
    && Trim(a.userConstraints.keyRotationModel) == Trim(b.userConstraints.keyRotationModel)
    && Trim(a.ref.providerID) == Trim(b.ref.providerID) && Trim(a.ref.profileID) == Trim(b.ref.profileID)
    && Trim(a.ref.manifestVersion) == Trim(b.ref.manifestVersion)
    && Trim(a.ref.verificationDate) == Trim(b.ref.verificationDate)
    && SameSnapshot(a.snapshot, b.snapshot)
    && a.acceptedFindings == b.acceptedFindings
  }

  lemma SameNormalSnapshot(a: Snapshot, b: Snapshot)
    requires SameSnapshot(a, b)
    ensures NormalizeSnapshot(a) == NormalizeSnapshot(b)
  {
    hide Trim, TrimNonEmpty;
    assert TrimChains(a.chainSupportUsed) == TrimChains(b.chainSupportUsed);
    assert NormalizeReferences(a.references) == NormalizeReferences(b.references);
  }

  /** Such payloads are answered alike, errors included. */
  lemma GateIgnoresBlanks(a: Payload, b: Payload, obs: Observation)
    requires SameButBlanks(a, b)
    ensures NormalizedFailure(NormalizePayload(a), obs) == NormalizedFailure(NormalizePayload(b), obs)
  {
    hide Trim, NormalizeSnapshot, SameSnapshot, NormalizedFailure;
    SameNormalSnapshot(a.snapshot, b.snapshot);
    assert NormalizePayload(a) == NormalizePayload(b);
  }

  lemma NormalSnapshotSame(s: Snapshot)
    ensures SameSnapshot(s, NormalizeSnapshot(s))
  {
    hide Trim, TrimNonEmpty;
    TrimmedStay(s.acceptedFindings);
    TrimmedStay(s.acceptedRiskNotes);
  }

  /** The gate's own normalization removes nothing but blanks. */
  lemma NormalizedSameButBlanks(p: Payload)
    ensures SameButBlanks(p, NormalizePayload(p))
  {
    hide Trim, NormalizeSnapshot, SameSnapshot;
    NormalSnapshotSame(p.snapshot);
  }

  lemma TrimmedStay(items: seq<string>)
    ensures TrimNonEmpty(TrimNonEmpty(items)) == TrimNonEmpty(items)
  {
    hide Trim, Trimmed, TrimNonEmpty;
    var t := TrimNonEmpty(items);
    forall i | 0 <= i < |t| ensures t[i] != "" && Trimmed(t[i]) {
      assert t[i] in t;
      TrimNonEmptyElements(items, t[i]);
    }
    TrimNonEmptyFixed(t);
  }

  // ----------------------------------------------------------- raw documents

  /** No key of the old shape, and the three choices nested under user_constraints. */
  predicate NewShape(raw: Object) {
    && "template_id" !in raw && "selection_request" !in raw && "allow_new_wallet" !in raw
    && "address_continuity_required" !in raw && "key_rotation_model" !in raw
    && "crypto_policy_id" in raw
    && "user_constraints" in raw && raw["user_constraints"].Obj?
    && var uc := raw["user_constraints"].fields;
       "allow_new_wallet" in uc && "address_continuity_required" in uc && "key_rotation_model" in uc
  }

  lemma ShapeIsNew(raw: Object)
    ensures ShapeOk(raw) <==> NewShape(raw)
  {
    assert LEGACY_FIELDS[0] == "template_id" && LEGACY_FIELDS[1] == "selection_request"
      && LEGACY_FIELDS[2] == "allow_new_wallet" && LEGACY_FIELDS[3] == "address_continuity_required"
      && LEGACY_FIELDS[4] == "key_rotation_model" && |LEGACY_FIELDS| == 5;
  }

  /** A document passes the gate exactly when it has the new shape, decodes, and its payload is accepted. */
  lemma GateOnDocuments(raw: Object)
    ensures GateFailure(raw) == None <==>
            NewShape(raw) && DecodePayload(raw).Some? && GateAccepts(DecodePayload(raw).value, ObservationOf(raw))
    ensures !NewShape(raw) || DecodePayload(raw).None? ==> GateFailure(raw) == Some(PayloadInvalid)
    ensures NewShape(raw) && DecodePayload(raw).Some? ==>
              GateFailure(raw) == NormalizedFailure(NormalizePayload(DecodePayload(raw).value), ObservationOf(raw))
  {
    hide ShapeOk, NewShape, DecodePayload, NormalizedFailure, NormalizePayload, ObservationOf, GateAccepts;
    ShapeIsNew(raw);
    if DecodePayload(raw).Some? {
      GateExact(DecodePayload(raw).value, ObservationOf(raw));
    }
  }

  /** Whole numbers are kept, fractions cut towards zero, and everything else is passed over. */
  lemma IntItemsReads(items: seq<Json>, more: Json, c: Int64, part: real)
    requires 0.0 <= part < 1.0
    ensures IntItems([]) == []
    ensures more == GoInt(c) ==> IntItems(items + [more]) == IntItems(items) + [c]
    ensures c >= 0 && more == Num(c as real + part) ==> IntItems(items + [more]) == IntItems(items) + [c]
    ensures c < 0 && more == Num(c as real - part) ==> IntItems(items + [more]) == IntItems(items) + [c]
    ensures more.Null? || more.Bool? || more.Str? || more.Arr? || more.Obj?
            ==> IntItems(items + [more]) == IntItems(items)
  {
    assert (items + [more])[..|items|] == items;
  }

  /** The account kind comes from wallet_type, else account_kind, else it is EOA; chains only from chain_ids. */
  lemma ObservationReads(raw: Object, pc: Object)
    requires "policy_context" in raw && raw["policy_context"] == Obj(pc)
    ensures ("wallet_type" in pc && pc["wallet_type"].Str? && Trim(pc["wallet_type"].s) != "") ==>
              ObservationOf(raw).accountKind == Trim(pc["wallet_type"].s)
    ensures ("wallet_type" !in pc && "account_kind" in pc && pc["account_kind"].Str?
             && Trim(pc["account_kind"].s) != "") ==>
              ObservationOf(raw).accountKind == Trim(pc["account_kind"].s)
    ensures "wallet_type" !in pc && "account_kind" !in pc ==> ObservationOf(raw).accountKind == "EOA"
    ensures "chain_ids" !in pc ==> ObservationOf(raw).chainIDs == []
    ensures "chain_ids" in pc && pc["chain_ids"].Arr? ==> ObservationOf(raw).chainIDs == IntItems(pc["chain_ids"].elems)
    ensures "chain_ids" in pc && !pc["chain_ids"].Arr? ==> ObservationOf(raw).chainIDs == []
  {
    hide Trim;
  }

  // ------------------------------------------------------------ closed payloads

  lemma ClosedHasNoContext(obj: Object)
    requires ClosedKeys(obj)
    ensures "policy_context" !in obj
    ensures forall k :: k in LEGACY_FIELDS ==> k !in obj
  {
    PayloadKeyLengths();
    assert |"template_id"| == 11 && |"selection_request"| == 17 && |"allow_new_wallet"| == 16;
    assert |"address_continuity_required"| == 27 && |"key_rotation_model"| == 18;
    assert "selection_request"[0] == 's' && "accepted_findings"[0] == 'a';
    assert "allow_new_wallet"[0] == 'a' && "crypto_policy_id"[0] == 'c' && "required_posture"[0] == 'r'
      && "user_constraints"[0] == 'u';
  }

  /** Whatever DigestCanonical accepts is replayed as an EOA with no observed chain. */
  lemma ClosedObservation(root: Json)
    requires Digestible(root)
    ensures ObservationOf(Canonical(root.fields)) == Observation("EOA", [])
    ensures ObservationOf(root.fields) == Observation("EOA", [])
  {
    hide AllowedSubtree, StringArray;
    ClosedHasNoContext(root.fields);
  }

  /** On closed payloads the chain conditions vanish and the third gate never decides. */
  lemma ClosedReplayExact(p: Payload)
    ensures ReplayFailure(p, Observation("EOA", [])) == None <==>
            var profile := SnapshotAsProfile(p.ref.profileID, p.snapshot);
            && PostureMatches(p.requiredPosture, profile)
            && WalletTypeAccepted("EOA", profile.inputRequirements.walletTypes)
            && ConstraintsHonoured(p.userConstraints, profile)
    ensures var profile, obs := SnapshotAsProfile(p.ref.profileID, p.snapshot), Observation("EOA", []);
            && ScanFindings(obs, p.requiredPosture, profile) == []
            && UserFindings(p.userConstraints, profile, USER_CONSTRAINTS) == []
            ==> HardFindings(obs, HardRequest(p.requiredPosture, [], p.userConstraints), profile) == []
  {
    hide PostureMatches, WalletTypeAccepted, ConstraintsHonoured, SomeCapable, TargetSupported, SnapshotAsProfile,
         ScanFindings, UserFindings, HardFindings;
    var obs := Observation("EOA", []);
    ReplayExact(p, obs);
    var profile := SnapshotAsProfile(p.ref.profileID, p.snapshot);
    if ScanFindings(obs, p.requiredPosture, profile) == []
      && UserFindings(p.userConstraints, profile, USER_CONSTRAINTS) == [] {
      HardGateRedundantOnGreenfield(obs, p.requiredPosture, p.userConstraints, profile);
    }
  }

  /**
   One overlapping chain is not enough: a second observed chain the pin does not support turns
   every otherwise accepted payload away, at the third gate.
   */
  lemma OverlapIsNotEnough(p: Payload, kind: string, good: Int64, bad: Int64)
    requires ReplayFailure(p, Observation(kind, [good])) == None
    requires good > 0 && bad > 0 && !TargetSupported(SnapshotAsProfile(p.ref.profileID, p.snapshot), bad)
    ensures ScanFindings(Observation(kind, [good, bad]), p.requiredPosture,
                         SnapshotAsProfile(p.ref.profileID, p.snapshot)) == []
    ensures ReplayFailure(p, Observation(kind, [good, bad])) != None
  {
    hide PostureMatches, WalletTypeAccepted, ConstraintsHonoured, SnapshotAsProfile, Capable, TargetSupported,
         ScanFindings, UserFindings, HardFindings, ReplayFailure, PositiveChains, Constrained;
    var one, two := Observation(kind, [good]), Observation(kind, [good, bad]);
    var profile := SnapshotAsProfile(p.ref.profileID, p.snapshot);
    ReplayExact(p, one);
    ReplayExact(p, two);
    assert two.chainIDs[1] == bad;
    assert ReplayFailure(p, two) != None;
    TwoChains(good, bad);
    assert ScanFindings(one, p.requiredPosture, profile) == [] by {
      ReplayPassesScan(p, one);
    }
    ScanMonotone(one, two, p.requiredPosture, profile);
  }

  lemma ReplayPassesScan(p: Payload, obs: Observation)
    requires ReplayFailure(p, obs) == None
    ensures ScanFindings(obs, p.requiredPosture, SnapshotAsProfile(p.ref.profileID, p.snapshot)) == []
  {
    hide ScanFindings, UserFindings, HardFindings, SnapshotAsProfile;
  }

  lemma TwoChains(good: Int64, bad: Int64)
    requires good > 0
    ensures Constrained([good])
    ensures PositiveChains([good]) <= PositiveChains([good, bad])
  {
    assert [good][0] == good && [good, bad][0] == good;
  }
}
