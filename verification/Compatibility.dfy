/**
 internal/domain/provider: couche A (scan_compat.go), couche B (user_compat.go), the
 combined hard gate (hard_compat.go) and the soft findings (soft_compat.go).
 */
module Compatibility {
  import opened Wrappers
  import opened Text
  import opened Provider

  datatype HardCode = WalletType | NewWallet | Continuity | Chain | Capability | Rotation | Posture

  datatype HardFinding = HardFinding(code: HardCode, field: string)

  datatype Observation = Observation(accountKind: string, chainIDs: seq<Int64>)

  datatype HardRequest = HardRequest(
    requiredPosture: string, targetChainIDs: seq<Int64>, constraints: UserConstraints)

  // --------------------------------------------------------- building blocks

  function WalletTypeToken(raw: string): (r: string) {
    Lower(Trim(raw))
  }

  predicate WalletTypeAccepted(accountKind: string, accepted: seq<string>) {
    var kind := WalletTypeToken(accountKind);
    kind != "" && exists i :: 0 <= i < |accepted| && WalletTypeToken(accepted[i]) == kind
  }

  /** First match wins: manifests do not forbid repeated chain ids. */
  function FindChain(list: seq<ChainSupport>, chainID: int): (r: Option<ChainSupport>)
    ensures r.Some? ==> r.value in list && r.value.chainID == chainID
    ensures r.None? <==> forall i :: 0 <= i < |list| ==> list[i].chainID != chainID
  {
    if list == [] then None
    else if list[0].chainID == chainID then Some(list[0])
    else FindChain(list[1..], chainID)
  }

  method FindChainSupport(list: seq<ChainSupport>, chainID: int) returns (r: Option<ChainSupport>)
    ensures r == FindChain(list, chainID)
  {
    var i := 0;
    while i < |list|
      invariant 0 <= i <= |list|
      invariant FindChain(list, chainID) == FindChain(list[i..], chainID)
    {
      if list[i].chainID == chainID {
        return Some(list[i]);
      }
      i := i + 1;
    }
    return None;
  }

  predicate HasCapability(have: seq<string>, need: string) {
    exists i :: 0 <= i < |have| && Lower(Trim(have[i])) == Lower(Trim(need))
  }

  predicate HasCapabilities(have: seq<string>, required: seq<string>) {
    forall j :: 0 <= j < |required| ==> HasCapability(have, required[j])
  }

  method ChainHasCapabilities(have: seq<string>, required: seq<string>) returns (ok: bool)
    ensures ok <==> HasCapabilities(have, required)
  {
    hide Trim;
    var caps: set<string> := {};
    var i := 0;
    while i < |have|
      invariant 0 <= i <= |have|
      invariant forall x :: x in caps <==> exists k :: 0 <= k < i && Lower(Trim(have[k])) == x
    {
      caps := caps + {Lower(Trim(have[i]))};
      i := i + 1;
    }
    i := 0;
    while i < |required|
      invariant 0 <= i <= |required|
      invariant forall j :: 0 <= j < i ==> HasCapability(have, required[j])
    {
      if Lower(Trim(required[i])) !in caps {
        assert !HasCapability(have, required[i]);
        return false;
      }
      i := i + 1;
    }
    return true;
  }

  function MinimumCapabilities(rotation: string): (r: seq<string>)
    ensures forall x :: x in r <==>
              x == "deploy" || x == "sign_userop" || (x == "rotate_signer" && rotation == PER_USEROP)
  {
    assert "deploy"[0] == 'd' && "sign_userop"[0] == 's' && "rotate_signer"[0] == 'r';
    if rotation == PER_USEROP then ["deploy", "sign_userop", "rotate_signer"] else ["deploy", "sign_userop"]
  }

  /** The chain is listed and not merely planned. */
  predicate Deployable(p: SolutionProfile, chainID: int) {
    var c := FindChain(p.chainSupport, chainID);
    c.Some? && c.value.status != PLANNED
  }

  predicate Capable(p: SolutionProfile, chainID: int) {
    && Deployable(p, chainID)
    && HasCapabilities(FindChain(p.chainSupport, chainID).value.capabilities,
                       MinimumCapabilities(p.signature.keyRotationModel))
  }

  /** The scan saw at least one real chain. */
  predicate Constrained(chainIDs: seq<Int64>) {
    exists i :: 0 <= i < |chainIDs| && chainIDs[i] > 0
  }

  predicate SomeDeployable(p: SolutionProfile, chainIDs: seq<Int64>) {
    exists i :: 0 <= i < |chainIDs| && chainIDs[i] > 0 && Deployable(p, chainIDs[i])
  }

  predicate SomeCapable(p: SolutionProfile, chainIDs: seq<Int64>) {
    exists i :: 0 <= i < |chainIDs| && chainIDs[i] > 0 && Capable(p, chainIDs[i])
  }

  predicate PostureMatches(required: string, p: SolutionProfile) {
    Trim(required) == "" || Trim(p.resultingPosture) == Trim(required)
  }

  // ---------------------------------------------------------------- couche A

  function PostureFindings(required: string, p: SolutionProfile): (r: seq<HardFinding>) {
    if PostureMatches(required, p) then [] else [HardFinding(Posture, "required_posture")]
  }

  function WalletFindings(obs: Observation, p: SolutionProfile): (r: seq<HardFinding>) {
    if WalletTypeAccepted(obs.accountKind, p.inputRequirements.walletTypes) then []
    else [HardFinding(WalletType, "policy_context.wallet_type")]
  }

  function ScanChainFindings(chainIDs: seq<Int64>, p: SolutionProfile): (r: seq<HardFinding>) {
    if !Constrained(chainIDs) || SomeCapable(p, chainIDs) then []
    else if SomeDeployable(p, chainIDs) then [HardFinding(Capability, "chain_support.capabilities")]
    else [HardFinding(Chain, "policy_context.chain_ids")]
  }

  /** Couche A: posture, wallet type, and one deployable capable chain when the scan is constrained. */
  function ScanFindings(obs: Observation, required: string, p: SolutionProfile): (r: seq<HardFinding>) {
    PostureFindings(required, p) + WalletFindings(obs, p) + ScanChainFindings(obs.chainIDs, p)
  }

  method HasPositiveChainID(ids: seq<Int64>) returns (found: bool)
    ensures found <==> Constrained(ids)
  {
    var i := 0;
    while i < |ids|
      invariant 0 <= i <= |ids|
      invariant forall k :: 0 <= k < i ==> ids[k] <= 0
    {
      if ids[i] > 0 {
        return true;
      }
      i := i + 1;
    }
    return false;
  }

  method ScanChainDeployability(scanChains: seq<Int64>, p: SolutionProfile)
    returns (anyNonPlanned: bool, anyCapable: bool)
    ensures anyCapable <==> SomeCapable(p, scanChains)
    ensures anyNonPlanned <==> SomeDeployable(p, scanChains)
  {
    hide HasCapabilities, FindChain;
    var required := MinimumCapabilities(p.signature.keyRotationModel);
    anyNonPlanned, anyCapable := false, false;
    var i := 0;
    while i < |scanChains|
      invariant 0 <= i <= |scanChains|
      invariant forall k :: 0 <= k < i && scanChains[k] > 0 ==> !Capable(p, scanChains[k])
      invariant anyNonPlanned <==> exists k :: 0 <= k < i && scanChains[k] > 0 && Deployable(p, scanChains[k])
      invariant !anyCapable
    {
      var chainID := scanChains[i];
      if chainID > 0 {
        var c := FindChainSupport(p.chainSupport, chainID);
        if c.Some? && c.value.status != PLANNED {
          assert Deployable(p, chainID);
          anyNonPlanned := true;
          anyCapable := ChainHasCapabilities(c.value.capabilities, required);
          if anyCapable {
            assert Capable(p, chainID);
            return;
          }
        }
      }
      i := i + 1;
    }
  }

  method EvaluateScanCompatibility(obs: Observation, required: string, p: SolutionProfile)
    returns (findings: seq<HardFinding>)
    ensures findings == ScanFindings(obs, required, p)
  {
    hide Trim, WalletTypeAccepted, SomeCapable, SomeDeployable, Constrained;
    findings := [];
    var want, got := Trim(required), Trim(p.resultingPosture);
    if want != "" && got != want {
      findings := findings + [HardFinding(Posture, "required_posture")];
    }
    if !WalletTypeAccepted(obs.accountKind, p.inputRequirements.walletTypes) {
      findings := findings + [HardFinding(WalletType, "policy_context.wallet_type")];
    }
    assert findings == PostureFindings(required, p) + WalletFindings(obs, p);
    var constrained := HasPositiveChainID(obs.chainIDs);
    if !constrained {
      return;
    }
    var anyNonPlanned, anyCapable := ScanChainDeployability(obs.chainIDs, p);
    if !anyCapable {
      if anyNonPlanned {
        findings := findings + [HardFinding(Capability, "chain_support.capabilities")];
      } else {
        findings := findings + [HardFinding(Chain, "policy_context.chain_ids")];
      }
    }
  }

  // ---------------------------------------------------------------- couche B

  function NewWalletFindings(uc: UserConstraints, p: SolutionProfile, prefix: string): (r: seq<HardFinding>) {
    if p.constraints.requiresNewAccount && !uc.allowNewWallet
    then [HardFinding(NewWallet, prefix + ".allow_new_wallet")] else []
  }

  function ContinuityFindings(uc: UserConstraints, p: SolutionProfile, prefix: string): (r: seq<HardFinding>) {
    if uc.addressContinuityRequired && !p.constraints.addressContinuitySupported
    then [HardFinding(Continuity, prefix + ".address_continuity_required")] else []
  }

  function RotationFindings(uc: UserConstraints, p: SolutionProfile, prefix: string): (r: seq<HardFinding>) {
    if Trim(uc.keyRotationModel) != p.signature.keyRotationModel
    then [HardFinding(Rotation, prefix + ".key_rotation_model")] else []
  }

  function UserFindings(uc: UserConstraints, p: SolutionProfile, prefix: string): (r: seq<HardFinding>) {
    NewWalletFindings(uc, p, prefix) + ContinuityFindings(uc, p, prefix) + RotationFindings(uc, p, prefix)
  }

  const USER_CONSTRAINTS: string := "user_constraints"
  const SELECTION_REQUEST: string := "selection_request"

  /** The choices are ones the profile can honour. */
  predicate ConstraintsHonoured(uc: UserConstraints, p: SolutionProfile) {
    && (p.constraints.requiresNewAccount ==> uc.allowNewWallet)
    && (uc.addressContinuityRequired ==> p.constraints.addressContinuitySupported)
    && Trim(uc.keyRotationModel) == p.signature.keyRotationModel
  }

  method EvaluateUserConstraints(uc: UserConstraints, p: SolutionProfile) returns (findings: seq<HardFinding>)
    ensures findings == UserFindings(uc, p, USER_CONSTRAINTS)
    ensures findings == [] <==> ConstraintsHonoured(uc, p)
  {
    hide Trim;
    findings := [];
    if p.constraints.requiresNewAccount && !uc.allowNewWallet {
      findings := findings + [HardFinding(NewWallet, USER_CONSTRAINTS + ".allow_new_wallet")];
    }
    if uc.addressContinuityRequired && !p.constraints.addressContinuitySupported {
      findings := findings + [HardFinding(Continuity, USER_CONSTRAINTS + ".address_continuity_required")];
    }
    if Trim(uc.keyRotationModel) != p.signature.keyRotationModel {
      findings := findings + [HardFinding(Rotation, USER_CONSTRAINTS + ".key_rotation_model")];
    }
  }

  lemma RotationTrimmed(rotation: string)
    requires rotation in ROTATIONS
    ensures Trim(rotation) == rotation && rotation != ""
  {
    hide Trim;
    assert Trimmed("none") && Trimmed("per_userop");
  }

  /** The suggestion of a loaded profile satisfies couche B exactly when it contradicts nothing. */
  lemma SuggestionSatisfiesCoucheB(p: SolutionProfile)
    requires p.suggested.Some? && p.suggested.value.keyRotationModel in ROTATIONS
    ensures SuggestionConsistent(p) <==> UserFindings(p.suggested.value, p, USER_CONSTRAINTS) == []
  {
    hide Trim;
    RotationTrimmed(p.suggested.value.keyRotationModel);
  }

  // -------------------------------------------- couches A and B, condition by condition

  /** The first entry of a chain id. */
  predicate IsFirstEntry(cs: seq<ChainSupport>, chainID: int, i: nat) {
    i < |cs| && cs[i].chainID == chainID && forall j :: 0 <= j < i ==> cs[j].chainID != chainID
  }

  lemma {:induction false} FindChainExact(cs: seq<ChainSupport>, chainID: int, i: nat)
    requires IsFirstEntry(cs, chainID, i)
    ensures FindChain(cs, chainID) == Some(cs[i])
    decreases i
  {
    if i == 0 {
    } else {
      assert forall j :: 0 <= j < |cs| - 1 ==> cs[1..][j] == cs[j + 1];
      FindChainExact(cs[1..], chainID, i - 1);
    }
  }

  lemma {:induction false} FirstEntryExists(cs: seq<ChainSupport>, chainID: int) returns (i: nat)
    requires exists k :: 0 <= k < |cs| && cs[k].chainID == chainID
    ensures IsFirstEntry(cs, chainID, i)
  {
    if cs[0].chainID == chainID {
      i := 0;
    } else {
      var k :| 0 <= k < |cs| && cs[k].chainID == chainID;
      assert cs[1..][k - 1] == cs[k];
      i := FirstEntryExists(cs[1..], chainID);
      i := i + 1;
      assert forall j :: 1 <= j < i ==> cs[j] == cs[1..][j - 1];
    }
  }

  predicate Covers(have: seq<string>, need: string) {
    exists i :: 0 <= i < |have| && Lower(Trim(have[i])) == need
  }

  /** What deploying under a key rotation model needs of a chain. */
  predicate CoversRotation(have: seq<string>, rotation: string) {
    Covers(have, "deploy") && Covers(have, "sign_userop")
      && (rotation == "per_userop" ==> Covers(have, "rotate_signer"))
  }

  lemma CapabilityNames()
    ensures Lower(Trim("deploy")) == "deploy" && Lower(Trim("sign_userop")) == "sign_userop"
    ensures Lower(Trim("rotate_signer")) == "rotate_signer"
  {
    hide Trim;
    assert Trimmed("deploy") && Trimmed("sign_userop") && Trimmed("rotate_signer");
    assert Lower("deploy") == "deploy" && Lower("sign_userop") == "sign_userop"
      && Lower("rotate_signer") == "rotate_signer";
  }

  lemma CapabilitiesExact(have: seq<string>, rotation: string)
    ensures HasCapabilities(have, MinimumCapabilities(rotation)) <==> CoversRotation(have, rotation)
  {
    hide Trim, Lower;
    CapabilityNames();
    NeedsAre(have, MinimumCapabilities(rotation));
    assert HasCapability(have, "deploy") <==> Covers(have, "deploy");
    assert HasCapability(have, "sign_userop") <==> Covers(have, "sign_userop");
    assert HasCapability(have, "rotate_signer") <==> Covers(have, "rotate_signer");
  }

  lemma NeedsAre(have: seq<string>, need: seq<string>)
    ensures HasCapabilities(have, need) <==> forall x :: x in need ==> HasCapability(have, x)
  {
    hide HasCapability;
  }

  /** The first entry of the chain is not merely planned. */
  ghost predicate ListedDeployable(p: SolutionProfile, chainID: int) {
    exists i: nat :: IsFirstEntry(p.chainSupport, chainID, i) && p.chainSupport[i].status != "planned"
  }

  /** It also has the capabilities deploying needs. */
  ghost predicate ListedCapable(p: SolutionProfile, chainID: int) {
    exists i: nat :: IsFirstEntry(p.chainSupport, chainID, i) && p.chainSupport[i].status != "planned"
                  && CoversRotation(p.chainSupport[i].capabilities, p.signature.keyRotationModel)
  }

  lemma VerdictsExact(p: SolutionProfile, chainID: int)
    ensures Deployable(p, chainID) <==> ListedDeployable(p, chainID)
    ensures Capable(p, chainID) <==> ListedCapable(p, chainID)
    ensures TargetSupported(p, chainID) <==>
            exists i: nat :: IsFirstEntry(p.chainSupport, chainID, i) && p.chainSupport[i].status != "planned"
                          && p.chainSupport[i].capabilities != []
  {
    hide FindChain, HasCapabilities, MinimumCapabilities, CoversRotation;
    var cs := p.chainSupport;
    if exists k :: 0 <= k < |cs| && cs[k].chainID == chainID {
      var i := FirstEntryExists(cs, chainID);
      FindChainExact(cs, chainID, i);
      CapabilitiesExact(cs[i].capabilities, p.signature.keyRotationModel);
      assert forall j: nat :: IsFirstEntry(cs, chainID, j) ==> j == i;
    }
  }

  /** The account kind is one of the accepted ones, whatever the letter case and blanks. */
  predicate KindAccepted(kind: string, accepted: seq<string>) {
    Lower(Trim(kind)) != "" && exists i :: 0 <= i < |accepted| && Lower(Trim(accepted[i])) == Lower(Trim(kind))
  }

  /** Couche A: which findings there are, in which order. */
  lemma ScanFindingsExact(obs: Observation, required: string, p: SolutionProfile)
    ensures var posture := Trim(required) == "" || Trim(p.resultingPosture) == Trim(required);
            var wallet := KindAccepted(obs.accountKind, p.inputRequirements.walletTypes);
            var seen := exists i :: 0 <= i < |obs.chainIDs| && obs.chainIDs[i] > 0;
            var capable := exists i :: 0 <= i < |obs.chainIDs| && obs.chainIDs[i] > 0 &&
                             ListedCapable(p, obs.chainIDs[i]);
            var listed := exists i :: 0 <= i < |obs.chainIDs| && obs.chainIDs[i] > 0 &&
                            ListedDeployable(p, obs.chainIDs[i]);
            ScanFindings(obs, required, p) ==
              (if posture then [] else [HardFinding(Posture, "required_posture")]) +
              (if wallet then [] else [HardFinding(WalletType, "policy_context.wallet_type")]) +
              (if !seen || capable then []
               else if listed then [HardFinding(Capability, "chain_support.capabilities")]
               else [HardFinding(Chain, "policy_context.chain_ids")])
  {
    hide Trim, Lower, Deployable, Capable, ListedCapable, ListedDeployable;
    forall i | 0 <= i < |obs.chainIDs|
      ensures Deployable(p, obs.chainIDs[i]) <==> ListedDeployable(p, obs.chainIDs[i])
      ensures Capable(p, obs.chainIDs[i]) <==> ListedCapable(p, obs.chainIDs[i])
    {
      VerdictsExact(p, obs.chainIDs[i]);
    }
  }

  /** Couche B: which findings there are, in which order, under which fields. */
  lemma UserFindingsExact(uc: UserConstraints, p: SolutionProfile, prefix: string)
    ensures var wallet := uc.allowNewWallet || !p.constraints.requiresNewAccount;
            var continuity := !uc.addressContinuityRequired || p.constraints.addressContinuitySupported;
            var rotation := Trim(uc.keyRotationModel) == p.signature.keyRotationModel;
            UserFindings(uc, p, prefix) ==
              (if wallet then [] else [HardFinding(NewWallet, prefix + ".allow_new_wallet")]) +
              (if continuity then [] else [HardFinding(Continuity, prefix + ".address_continuity_required")]) +
              (if rotation then [] else [HardFinding(Rotation, prefix + ".key_rotation_model")])
  {
    hide Trim;
  }

  // ---------------------------------------------------------- combined gate

  function TargetFindings(targets: seq<Int64>, p: SolutionProfile): (r: seq<HardFinding>) {
    if targets == [] then []
    else
      var n := |targets| - 1;
      TargetFindings(targets[..n], p) +
      (if targets[n] <= 0 || TargetSupported(p, targets[n]) then []
       else [HardFinding(Chain, "selection_request.target_chain_ids")])
  }

  /** Deployable with at least one capability. */
  predicate TargetSupported(p: SolutionProfile, chainID: int) {
    Deployable(p, chainID) && |FindChain(p.chainSupport, chainID).value.capabilities| > 0
  }

  function HardFindings(obs: Observation, req: HardRequest, p: SolutionProfile): (r: seq<HardFinding>) {
    PostureFindings(req.requiredPosture, p) + WalletFindings(obs, p) +
    UserFindings(req.constraints, p, SELECTION_REQUEST) +
    TargetFindings(if req.targetChainIDs == [] then obs.chainIDs else req.targetChainIDs, p)
  }

  method EvaluateHardCompatibility(obs: Observation, req: HardRequest, p: SolutionProfile)
    returns (findings: seq<HardFinding>)
    ensures findings == HardFindings(obs, req, p)
  {
    hide Trim, WalletTypeAccepted, TargetFindings, UserFindings;
    findings := [];
    var want, got := Trim(req.requiredPosture), Trim(p.resultingPosture);
    if want != "" && got != want {
      findings := findings + [HardFinding(Posture, "required_posture")];
    }
    if !WalletTypeAccepted(obs.accountKind, p.inputRequirements.walletTypes) {
      findings := findings + [HardFinding(WalletType, "policy_context.wallet_type")];
    }
    assert findings == PostureFindings(req.requiredPosture, p) + WalletFindings(obs, p);
    var user := HardUserFindings(req.constraints, p);
    var targets := req.targetChainIDs;
    if |targets| == 0 {
      targets := obs.chainIDs;
    }
    var chains := EvaluateTargets(targets, p);
    findings := findings + user + chains;
  }

  /** The loop over the target chains. */
  method EvaluateTargets(targets: seq<Int64>, p: SolutionProfile) returns (findings: seq<HardFinding>)
    ensures findings == TargetFindings(targets, p)
  {
    hide FindChain;
    findings := [];
    var i := 0;
    while i < |targets|
      invariant 0 <= i <= |targets|
      invariant findings == TargetFindings(targets[..i], p)
    {
      assert targets[..i + 1][..i] == targets[..i];
      if targets[i] > 0 {
        var c := FindChainSupport(p.chainSupport, targets[i]);
        if c.None? {
          findings := findings + [HardFinding(Chain, "selection_request.target_chain_ids")];
        } else if c.value.status == PLANNED {
          findings := findings + [HardFinding(Chain, "selection_request.target_chain_ids")];
        } else if |c.value.capabilities| == 0 {
          findings := findings + [HardFinding(Chain, "selection_request.target_chain_ids")];
        }
      }
      i := i + 1;
    }
    assert targets[..i] == targets;
  }

  method HardUserFindings(uc: UserConstraints, p: SolutionProfile) returns (findings: seq<HardFinding>)
    ensures findings == UserFindings(uc, p, SELECTION_REQUEST)
  {
    hide Trim;
    findings := [];
    if p.constraints.requiresNewAccount && !uc.allowNewWallet {
      findings := findings + [HardFinding(NewWallet, SELECTION_REQUEST + ".allow_new_wallet")];
    }
    if uc.addressContinuityRequired && !p.constraints.addressContinuitySupported {
      findings := findings + [HardFinding(Continuity, SELECTION_REQUEST + ".address_continuity_required")];
    }
    if Trim(uc.keyRotationModel) != p.signature.keyRotationModel {
      findings := findings + [HardFinding(Rotation, SELECTION_REQUEST + ".key_rotation_model")];
    }
  }

  predicate AllTargetsSupported(targets: seq<Int64>, p: SolutionProfile) {
    forall i :: 0 <= i < |targets| && targets[i] > 0 ==> TargetSupported(p, targets[i])
  }

  lemma {:induction false} TargetsPass(targets: seq<Int64>, p: SolutionProfile)
    ensures TargetFindings(targets, p) == [] <==> AllTargetsSupported(targets, p)
  {
    if targets == [] {
    } else {
      TargetsPass(targets[..|targets| - 1], p);
    }
  }

  /** The positions of the targets that are not supported. */
  function BadTargets(targets: seq<Int64>, p: SolutionProfile): (r: set<int>) {
    set i | 0 <= i < |targets| && targets[i] > 0 && !TargetSupported(p, targets[i])
  }

  /** One finding per unsupported target, all of the same kind. */
  lemma {:induction false} TargetFindingsAre(targets: seq<Int64>, p: SolutionProfile)
    ensures forall f :: f in TargetFindings(targets, p) ==>
              f == HardFinding(Chain, "selection_request.target_chain_ids")
    ensures |TargetFindings(targets, p)| == |BadTargets(targets, p)|
  {
    hide TargetSupported;
    if targets == [] {
      assert BadTargets(targets, p) == {};
    } else {
      var n := |targets| - 1;
      TargetFindingsAre(targets[..n], p);
      var before := BadTargets(targets[..n], p);
      assert BadTargets(targets, p) == if targets[n] > 0
        && !TargetSupported(p, targets[n]) then before + {n} else before;
    }
  }

  /** The combined gate: posture, wallet type, couche B, then one finding per unsupported target or observed chain. */
  lemma HardFindingsExact(obs: Observation, req: HardRequest, p: SolutionProfile)
    ensures var posture := Trim(req.requiredPosture) == "" || Trim(p.resultingPosture) == Trim(req.requiredPosture);
            var wallet := KindAccepted(obs.accountKind, p.inputRequirements.walletTypes);
            var targets := if req.targetChainIDs != [] then req.targetChainIDs else obs.chainIDs;
            HardFindings(obs, req, p) ==
              (if posture then [] else [HardFinding(Posture, "required_posture")]) +
              (if wallet then [] else [HardFinding(WalletType, "policy_context.wallet_type")]) +
              UserFindings(req.constraints, p, "selection_request") + TargetFindings(targets, p)
  {
    hide Trim, Lower, UserFindings, TargetFindings;
  }

  // --------------------------------------------------- what the gates depend on

  /** The positive chains of a scan. */
  function PositiveChains(chainIDs: seq<Int64>): (r: set<int>) {
    set i | 0 <= i < |chainIDs| && chainIDs[i] > 0 :: chainIDs[i]
  }

  lemma ChainSetCharacterization(chainIDs: seq<Int64>, p: SolutionProfile)
    ensures Constrained(chainIDs) <==> PositiveChains(chainIDs) != {}
    ensures SomeDeployable(p, chainIDs) <==> exists c :: c in PositiveChains(chainIDs) && Deployable(p, c)
    ensures SomeCapable(p, chainIDs) <==> exists c :: c in PositiveChains(chainIDs) && Capable(p, c)
    ensures AllTargetsSupported(chainIDs, p) <==> forall c :: c in PositiveChains(chainIDs) ==> TargetSupported(p, c)
  {
    hide Deployable, Capable, TargetSupported;
    assert forall i :: 0 <= i < |chainIDs| && chainIDs[i] > 0 ==> chainIDs[i] in PositiveChains(chainIDs);
  }

  /** Couche A sees the scan only as a set of positive chains. */
  lemma ScanSeesOnlyPositiveSet(obs: Observation, other: Observation, required: string, p: SolutionProfile)
    requires obs.accountKind == other.accountKind
    requires PositiveChains(obs.chainIDs) == PositiveChains(other.chainIDs)
    ensures ScanFindings(obs, required, p) == ScanFindings(other, required, p)
  {
    hide Deployable, Capable, Constrained, SomeCapable, SomeDeployable, PositiveChains, PostureFindings,
         WalletTypeAccepted;
    ChainSetCharacterization(obs.chainIDs, p);
    ChainSetCharacterization(other.chainIDs, p);
  }

  /** Seeing more chains never turns acceptance of a constrained scan into rejection. */
  lemma ScanMonotone(obs: Observation, wider: Observation, required: string, p: SolutionProfile)
    requires obs.accountKind == wider.accountKind
    requires Constrained(obs.chainIDs)
    requires PositiveChains(obs.chainIDs) <= PositiveChains(wider.chainIDs)
    requires ScanFindings(obs, required, p) == []
    ensures ScanFindings(wider, required, p) == []
  {
    hide Deployable, Capable, Constrained, SomeCapable, SomeDeployable, PositiveChains, PostureFindings,
         WalletTypeAccepted;
    ChainSetCharacterization(obs.chainIDs, p);
    ChainSetCharacterization(wider.chainIDs, p);
    var c :| c in PositiveChains(obs.chainIDs) && Capable(p, c);
    assert c in PositiveChains(wider.chainIDs);
  }

  /** The combined gate goes the other way: a pass survives dropping target chains. */
  lemma HardGateAntitone(obs: Observation, req: HardRequest, fewer: HardRequest, p: SolutionProfile)
    requires fewer.requiredPosture == req.requiredPosture && fewer.constraints == req.constraints
    requires fewer.targetChainIDs != [] && req.targetChainIDs != []
    requires PositiveChains(fewer.targetChainIDs) <= PositiveChains(req.targetChainIDs)
    requires HardFindings(obs, req, p) == []
    ensures HardFindings(obs, fewer, p) == []
  {
    hide TargetSupported, PositiveChains, PostureFindings, WalletTypeAccepted, UserFindings;
    TargetsPass(req.targetChainIDs, p);
    TargetsPass(fewer.targetChainIDs, p);
    ChainSetCharacterization(req.targetChainIDs, p);
    ChainSetCharacterization(fewer.targetChainIDs, p);
  }

  /**
   The three replayed gates together, on the same observed chains. The README speaks of one
   overlapping chain; the third gate also asks something of every observed chain.
   */
  lemma ReplayGatesExact(obs: Observation, required: string, uc: UserConstraints, p: SolutionProfile)
    ensures (&& ScanFindings(obs, required, p) == []
             && UserFindings(uc, p, USER_CONSTRAINTS) == []
             && HardFindings(obs, HardRequest(required, obs.chainIDs, uc), p) == [])
            <==>
            (&& PostureMatches(required, p)
             && WalletTypeAccepted(obs.accountKind, p.inputRequirements.walletTypes)
             && ConstraintsHonoured(uc, p)
             && (Constrained(obs.chainIDs) ==> SomeCapable(p, obs.chainIDs))
             && AllTargetsSupported(obs.chainIDs, p))
  {
    hide Trim, WalletTypeAccepted, SomeCapable, SomeDeployable, Constrained, AllTargetsSupported, PostureMatches;
    TargetsPass(obs.chainIDs, p);
  }

  /** On an unconstrained scan the third gate never rejects what the first two accept. */
  lemma HardGateRedundantOnGreenfield(obs: Observation, required: string, uc: UserConstraints, p: SolutionProfile)
    requires !Constrained(obs.chainIDs)
    requires ScanFindings(obs, required, p) == [] && UserFindings(uc, p, USER_CONSTRAINTS) == []
    ensures HardFindings(obs, HardRequest(required, obs.chainIDs, uc), p) == []
  {
    hide Trim, WalletTypeAccepted, SomeCapable, SomeDeployable, PostureMatches, TargetSupported;
    assert AllTargetsSupported(obs.chainIDs, p);
    ReplayGatesExact(obs, required, uc, p);
  }

  // -------------------------------------------------------------------- soft

  const REQUIRES_BUNDLER: string := "requires_bundler"
  const REQUIRES_LOCAL_SIGNER_STATE: string := "requires_local_signer_state"

  /** Soft finding codes of a profile. */
  function SoftCodes(bundler: bool, localSignerState: bool): (r: seq<string>)
    ensures REQUIRES_BUNDLER in r <==> bundler
    ensures REQUIRES_LOCAL_SIGNER_STATE in r <==> localSignerState
    ensures forall x :: x in r ==> x == REQUIRES_BUNDLER || x == REQUIRES_LOCAL_SIGNER_STATE
  {
    assert |REQUIRES_BUNDLER| != |REQUIRES_LOCAL_SIGNER_STATE|;
    (if bundler then [REQUIRES_BUNDLER] else []) +
    (if localSignerState then [REQUIRES_LOCAL_SIGNER_STATE] else [])
  }

  method EvaluateSoftFindings(p: SolutionProfile) returns (codes: seq<string>)
    ensures codes == SoftCodes(p.accountModel.requiresBundler, p.constraints.requiresLocalSignerState)
  {
    codes := [];
    if p.accountModel.requiresBundler {
      codes := codes + [REQUIRES_BUNDLER];
    }
    if p.constraints.requiresLocalSignerState {
      codes := codes + [REQUIRES_LOCAL_SIGNER_STATE];
    }
  }
}
