/**
 internal/domain/policy/explore_couche_a.go, policy_decision.go, chains.go and crypto_policy.go:
 catalogue policies and the couche A exploration of their allowed providers.
 */
module Explore {
  import opened Wrappers
  import opened Text
  import opened Sorting
  import opened Provider
  import opened Compatibility
  import opened Registry

  datatype CryptoPolicy = CryptoPolicy(
    id: string, name: string, version: string, description: string,
    requiredPosture: string, allowedProviders: seq<string>)

  datatype SolutionProfileRef = SolutionProfileRef(
    providerID: string, profileID: string, manifestVersion: string, verificationDate: string)
  {
    /** SolutionProfileRef.Validate; the verification date is optional. */
    predicate Complete() {
      providerID != "" && profileID != "" && manifestVersion != ""
    }
  }

  /** CryptoPolicy.Validate: a known posture other than `unknown`, and no blank provider. */
  predicate ValidPolicy(cp: CryptoPolicy) {
    && cp.id != "" && cp.name != "" && cp.version != ""
    && cp.requiredPosture in POSTURES
    && cp.allowedProviders != []
    && (forall i :: 0 <= i < |cp.allowedProviders| ==> Trim(cp.allowedProviders[i]) != "")
  }

  /** The demands on a policy, spelled out. */
  lemma ValidPolicyExact(cp: CryptoPolicy)
    ensures ValidPolicy(cp) <==>
            && cp.id != "" && cp.name != "" && cp.version != ""
            && cp.requiredPosture in ["classical_only", "hybrid", "full_pq"]
            && |cp.allowedProviders| >= 1
            && forall entry :: entry in cp.allowedProviders ==> Trim(entry) != ""
  {
    hide Trim;
    assert POSTURES == ["classical_only", "hybrid", "full_pq"];
  }

  /** A policy as the catalogue loader hands it over. */
  predicate LoadedPolicy(cp: CryptoPolicy) {
    ValidPolicy(cp) && Trim(cp.id) == cp.id
  }

  // --------------------------------------------------------------- chain ids

  predicate IntLess(a: Int64, b: Int64) {
    a < b
  }

  function DistinctInts(ids: seq<Int64>): (r: seq<Int64>)
    ensures forall x :: x in r <==> x in ids
    ensures forall i, j :: 0 <= i < j < |r| ==> r[i] != r[j]
  {
    if ids == [] then []
    else
      var n := |ids| - 1;
      assert ids == ids[..n] + [ids[n]];
      var r := DistinctInts(ids[..n]);
      if ids[n] in r then r else r + [ids[n]]
  }

  function NormalizeChainIDs(ids: seq<Int64>): (r: seq<Int64>) {
    StableSort(IntLess, DistinctInts(ids))
  }

  method NormalizeChainIDsLoop(ids: seq<Int64>) returns (out: seq<Int64>)
    ensures out == NormalizeChainIDs(ids)
    ensures forall i, j :: 0 <= i < j < |out| ==> out[i] < out[j]
    ensures forall x :: x in out <==> x in ids
  {
    var seen: set<int> := {};
    out := [];
    var i := 0;
    while i < |ids|
      invariant 0 <= i <= |ids|
      invariant out == DistinctInts(ids[..i])
      invariant forall x :: x in seen <==> x in out
    {
      assert ids[..i + 1][..i] == ids[..i];
      if ids[i] !in seen {
        seen := seen + {ids[i]};
        out := out + [ids[i]];
      }
      i := i + 1;
    }
    assert ids[..i] == ids;
    NormalizeChainIDsSorted(ids);
    out := StableSort(IntLess, out);
  }

  /** Dedupe and sort give the strictly ascending list of the same ids. */
  lemma NormalizeChainIDsSorted(ids: seq<Int64>)
    ensures StrictlyAscending(IntLess, NormalizeChainIDs(ids))
    ensures forall x :: x in NormalizeChainIDs(ids) <==> x in ids
  {
    var d := DistinctInts(ids);
    assert StrictWeakOrder(IntLess);
    StableSortAscending(IntLess, d);
    StableSortPermutes(IntLess, d);
    NoTiesStrict(IntLess, d, NormalizeChainIDs(ids));
  }

  /** Normalizing the observed chain ids never changes a couche A verdict. */
  lemma NormalizedScanSameFindings(kind: string, ids: seq<Int64>, required: string, p: SolutionProfile)
    ensures ScanFindings(Observation(kind, NormalizeChainIDs(ids)), required, p)
            == ScanFindings(Observation(kind, ids), required, p)
  {
    hide ScanFindings, NormalizeChainIDs;
    NormalizeChainIDsSorted(ids);
    var n := NormalizeChainIDs(ids);
    forall c ensures c in PositiveChains(n) <==> c in PositiveChains(ids) {
      PositiveMember(n, c);
      PositiveMember(ids, c);
    }
    ScanSeesOnlyPositiveSet(Observation(kind, n), Observation(kind, ids), required, p);
  }

  lemma PositiveMember(ids: seq<Int64>, c: int)
    ensures c in PositiveChains(ids) <==> c > 0 && c in ids
  {
  }

  // -------------------------------------------------------------------- rows

  datatype RankedRow = RankedRow(
    candidateID: string, policyID: string, requiredPosture: string, resultingPosture: string,
    ref: SolutionProfileRef, maturity: string, claimStatus: string,
    softFindings: seq<string>, suggested: Option<UserConstraints>)

  datatype RejectReason =
    | UnknownProvider
    | LookupFailed
    | ErroneousSuggestion
    | Incompatible(findings: seq<HardFinding>)

  datatype RejectedRow = RejectedRow(
    candidateID: string, policyID: string, requiredPosture: string, resultingPosture: string,
    ref: SolutionProfileRef, maturity: string, claimStatus: string, reason: RejectReason)

  datatype Row = Ranked(ranked: RankedRow) | Rejected(rejected: RejectedRow) {
    function CandidateID(): string {
      match this
      case Ranked(r) => r.candidateID
      case Rejected(r) => r.candidateID
    }
  }

  function CandidateOf(rp: ResolvedProfile): (r: string) {
    rp.providerID + "/" + rp.profile.id
  }

  function FullRef(rp: ResolvedProfile): (r: SolutionProfileRef) {
    SolutionProfileRef(rp.providerID, rp.profile.id, rp.providerVersion, "")
  }

  function RankedOf(cp: CryptoPolicy, rp: ResolvedProfile): (r: RankedRow) {
    RankedRow(CandidateOf(rp), AsciiUpper(cp.id), cp.requiredPosture, rp.profile.resultingPosture, FullRef(rp),
      rp.profile.maturity, rp.profile.claimStatus,
      SoftCodes(rp.profile.accountModel.requiresBundler, rp.profile.constraints.requiresLocalSignerState),
      rp.profile.suggested)
  }

  function RejectedOf(cp: CryptoPolicy, rp: ResolvedProfile, reason: RejectReason): (r: RejectedRow) {
    RejectedRow(CandidateOf(rp), AsciiUpper(cp.id), cp.requiredPosture,
      if reason == LookupFailed then "" else rp.profile.resultingPosture, FullRef(rp),
      if reason == LookupFailed then "" else rp.profile.maturity,
      if reason == LookupFailed then "" else rp.profile.claimStatus, reason)
  }

  function UnresolvedRow(cp: CryptoPolicy, providerID: string): (r: RejectedRow) {
    RejectedRow(providerID, AsciiUpper(cp.id), cp.requiredPosture, "",
      SolutionProfileRef(providerID, "", "", ""), "", "", UnknownProvider)
  }

  /** Every field of a ranked row, by name. */
  lemma RankedRowReads(cp: CryptoPolicy, rp: ResolvedProfile)
    ensures var r := RankedOf(cp, rp);
            && r.candidateID == rp.providerID + "/" + rp.profile.id
            && r.policyID == AsciiUpper(cp.id)
            && r.requiredPosture == cp.requiredPosture && r.resultingPosture == rp.profile.resultingPosture
            && r.ref.providerID == rp.providerID && r.ref.profileID == rp.profile.id
            && r.ref.manifestVersion == rp.providerVersion && r.ref.verificationDate == ""
            && r.maturity == rp.profile.maturity && r.claimStatus == rp.profile.claimStatus
            && r.suggested == rp.profile.suggested
            && ("requires_bundler" in r.softFindings <==> rp.profile.accountModel.requiresBundler)
            && ("requires_local_signer_state" in r.softFindings <==> rp.profile.constraints.requiresLocalSignerState)
  {
    hide AsciiUpper;
  }

  /** Every field of a rejected row; a failed lookup shows nothing of the profile. */
  lemma RejectedRowReads(cp: CryptoPolicy, rp: ResolvedProfile, reason: RejectReason)
    ensures var r := RejectedOf(cp, rp, reason);
            && r.candidateID == rp.providerID + "/" + rp.profile.id && r.policyID == AsciiUpper(cp.id)
            && r.requiredPosture == cp.requiredPosture && r.reason == reason
            && r.ref.providerID == rp.providerID && r.ref.profileID == rp.profile.id
            && r.ref.manifestVersion == rp.providerVersion && r.ref.verificationDate == ""
            && (reason != LookupFailed ==>
                  && r.resultingPosture == rp.profile.resultingPosture
                  && r.maturity == rp.profile.maturity && r.claimStatus == rp.profile.claimStatus)
            && (reason == LookupFailed ==> r.resultingPosture == "" && r.maturity == "" && r.claimStatus == "")
  {
    hide AsciiUpper;
  }

  /** An unresolved entry is reported under its own name. */
  lemma UnresolvedRowReads(cp: CryptoPolicy, providerID: string)
    ensures var r := UnresolvedRow(cp, providerID);
            && r.candidateID == providerID && r.policyID == AsciiUpper(cp.id) && r.requiredPosture == cp.requiredPosture
            && r.ref == SolutionProfileRef(providerID, "", "", "") && r.reason == UnknownProvider
            && r.resultingPosture == "" && r.maturity == "" && r.claimStatus == ""
  {
    hide AsciiUpper;
  }

  /** The decision on one resolved profile. */
  function ProfileRow(x: Index, cp: CryptoPolicy, obs: Observation, rp: ResolvedProfile): (r: Row) {
    if LookupIn(x, RefOf(rp)).None? then Rejected(RejectedOf(cp, rp, LookupFailed))
    else if !SuggestionConsistent(rp.profile) then Rejected(RejectedOf(cp, rp, ErroneousSuggestion))
    else
      var findings := ScanFindings(obs, cp.requiredPosture, rp.profile);
      if findings != [] then Rejected(RejectedOf(cp, rp, Incompatible(findings)))
      else Ranked(RankedOf(cp, rp))
  }

  /** Which verdict a profile gets, and why: a failed lookup, a contradiction, couche A, in this order. */
  lemma ProfileRowReads(x: Index, cp: CryptoPolicy, obs: Observation, rp: ResolvedProfile)
    ensures var row := ProfileRow(x, cp, obs, rp);
            var found := LookupIn(x, ProfileRef(rp.providerID, rp.profile.id, rp.providerVersion)).Some?;
            var findings := ScanFindings(obs, cp.requiredPosture, rp.profile);
            && (!found ==> row == Rejected(RejectedOf(cp, rp, LookupFailed)))
            && (found && !SuggestionConsistent(rp.profile) ==> row == Rejected(RejectedOf(cp, rp, ErroneousSuggestion)))
            && (found && SuggestionConsistent(rp.profile) && findings != [] ==>
                  row == Rejected(RejectedOf(cp, rp, Incompatible(findings))))
            && (found && SuggestionConsistent(rp.profile) && findings == [] ==> row == Ranked(RankedOf(cp, rp)))
  {
    hide LookupIn, SuggestionConsistent, ScanFindings, RankedOf, RejectedOf;
  }

  function ProfileRows(x: Index, cp: CryptoPolicy, obs: Observation, rps: seq<ResolvedProfile>): (r: seq<Row>)
    ensures |r| == |rps|
    ensures forall i :: 0 <= i < |rps| ==> r[i] == ProfileRow(x, cp, obs, rps[i])
  {
    seq(|rps|, i requires 0 <= i < |rps| => ProfileRow(x, cp, obs, rps[i]))
  }

  /** The rows one allowed_providers entry contributes, given its resolved profiles. */
  function EntryRowsFrom(x: Index, cp: CryptoPolicy, obs: Observation, entry: string, rps: seq<ResolvedProfile>)
    : (r: seq<Row>)
  {
    var providerID := Trim(entry);
    if providerID == "" then []
    else if rps == [] then [Rejected(UnresolvedRow(cp, providerID))]
    else ProfileRows(x, cp, obs, rps)
  }

  function EntryRows(x: Index, cp: CryptoPolicy, obs: Observation, entry: string): (r: seq<Row>) {
    EntryRowsFrom(x, cp, obs, entry, ProfilesIn(x, Trim(entry)))
  }

  function Rows(x: Index, cp: CryptoPolicy, obs: Observation, entries: seq<string>): (r: seq<Row>) {
    if entries == [] then []
    else Rows(x, cp, obs, entries[..|entries| - 1]) + EntryRows(x, cp, obs, entries[|entries| - 1])
  }

  /** The same for any listing of the entries. */
  function RowsFrom(x: Index, cp: CryptoPolicy, obs: Observation, entries: seq<string>,
                    listed: seq<seq<ResolvedProfile>>): (r: seq<Row>)
    requires |listed| == |entries|
  {
    if entries == [] then []
    else
      var n := |entries| - 1;
      RowsFrom(x, cp, obs, entries[..n], listed[..n]) + EntryRowsFrom(x, cp, obs, entries[n], listed[n])
  }

  function RankedRows(rows: seq<Row>): (r: seq<RankedRow>) {
    if rows == [] then []
    else
      var last := rows[|rows| - 1];
      RankedRows(rows[..|rows| - 1]) + (if last.Ranked? then [last.ranked] else [])
  }

  function RejectedRows(rows: seq<Row>): (r: seq<RejectedRow>) {
    if rows == [] then []
    else
      var last := rows[|rows| - 1];
      RejectedRows(rows[..|rows| - 1]) + (if last.Rejected? then [last.rejected] else [])
  }

  predicate RankedBefore(a: RankedRow, b: RankedRow) {
    Less(a.candidateID, b.candidateID)
  }

  predicate RejectedBefore(a: RejectedRow, b: RejectedRow) {
    Less(a.candidateID, b.candidateID)
  }

  datatype Decision = Decision(
    chainIDs: seq<Int64>, cryptoPolicyID: string, selectedPolicyID: string,
    ranked: seq<RankedRow>, rejected: seq<RejectedRow>)

  function DecisionOf(chainIDs: seq<Int64>, cp: CryptoPolicy, rows: seq<Row>): (d: Decision) {
    var ranked := StableSort(RankedBefore, RankedRows(rows));
    Decision(chainIDs, cp.id, if ranked == [] then "" else ranked[0].policyID,
      ranked, StableSort(RejectedBefore, RejectedRows(rows)))
  }

  /** The scan as couche A sees it. */
  function Seen(observation: Observation): (r: Observation) {
    observation.(chainIDs := NormalizeChainIDs(observation.chainIDs))
  }

  function ExploreSpec(x: Index, cp: CryptoPolicy, observation: Observation): (d: Decision) {
    var obs := Seen(observation);
    DecisionOf(obs.chainIDs, cp, Rows(x, cp, obs, cp.allowedProviders))
  }

  // ------------------------------------------------------------------ method

  /** The decisions explore may reach; the order of tied profiles in a listing is all that is left open. */
  ghost predicate Explores(x: Index, cp: CryptoPolicy, observation: Observation, d: Decision) {
    exists listed :: Listings(x, cp.allowedProviders, listed) && d == ExploreFrom(x, cp, observation, listed)
  }

  function ExploreFrom(x: Index, cp: CryptoPolicy, observation: Observation, listed: seq<seq<ResolvedProfile>>)
    : (d: Decision)
    requires |listed| == |cp.allowedProviders|
  {
    DecisionOf(Seen(observation).chainIDs, cp, RowsFrom(x, cp, Seen(observation), cp.allowedProviders, listed))
  }

  /** On any index; a valid one leaves a single decision. */
  method EvaluateExploreCoucheA(reg: Registry?, cp: CryptoPolicy, observation: Observation) returns (d: Decision)
    ensures Explores(if reg == null then EMPTY_INDEX else reg.State(), cp, observation, d)
    ensures reg == null || Valid(reg.State()) ==>
              d == ExploreSpec(if reg == null then EMPTY_INDEX else reg.State(), cp, observation)
  {
    hide Valid, NormalizeChainIDs, EntryRowsFrom, StableSort, ListsProfiles, ExploreSpec;
    var chainIDs := NormalizeChainIDsLoop(observation.chainIDs);
    var obs := Observation(observation.accountKind, chainIDs);
    ghost var x := if reg == null then EMPTY_INDEX else reg.State();
    var ranked: seq<RankedRow>, rejected: seq<RejectedRow> := [], [];
    ghost var listed: seq<seq<ResolvedProfile>> := [];
    var i := 0;
    while i < |cp.allowedProviders|
      invariant 0 <= i <= |cp.allowedProviders|
      invariant Listings(x, cp.allowedProviders[..i], listed)
      invariant ranked == RankedRows(RowsFrom(x, cp, obs, cp.allowedProviders[..i], listed))
      invariant rejected == RejectedRows(RowsFrom(x, cp, obs, cp.allowedProviders[..i], listed))
    {
      ghost var done := RowsFrom(x, cp, obs, cp.allowedProviders[..i], listed);
      var more, less, rps := ExploreEntry(reg, cp, obs, cp.allowedProviders[i]);
      assert cp.allowedProviders[..i + 1][..i] == cp.allowedProviders[..i];
      assert (listed + [rps])[..i] == listed;
      RowsAppend(done, EntryRowsFrom(x, cp, obs, cp.allowedProviders[i], rps));
      listed := listed + [rps];
      ranked, rejected := ranked + more, rejected + less;
      i := i + 1;
    }
    assert cp.allowedProviders[..i] == cp.allowedProviders;
    ranked := StableSort(RankedBefore, ranked);
    rejected := StableSort(RejectedBefore, rejected);
    d := Decision(chainIDs, cp.id, if |ranked| > 0 then ranked[0].policyID else "", ranked, rejected);
    assert d == ExploreFrom(x, cp, observation, listed);
    EmptyValid();
    if Valid(x) {
      ExploresOneWay(x, cp, observation, listed);
    }
  }

  lemma ExploresOneWay(x: Index, cp: CryptoPolicy, observation: Observation, listed: seq<seq<ResolvedProfile>>)
    requires Valid(x) && Listings(x, cp.allowedProviders, listed)
    ensures ExploreFrom(x, cp, observation, listed) == ExploreSpec(x, cp, observation)
  {
    hide Valid, NormalizeChainIDs, Rows, RowsFrom, StableSort, RankedRows, RejectedRows, ListsProfiles;
    RowsFromListings(x, cp, Seen(observation), cp.allowedProviders, listed);
  }

  lemma {:induction false} RowsFromListings(x: Index, cp: CryptoPolicy, obs: Observation, entries: seq<string>,
                                            listed: seq<seq<ResolvedProfile>>)
    requires Valid(x) && Listings(x, entries, listed)
    ensures RowsFrom(x, cp, obs, entries, listed) == Rows(x, cp, obs, entries)
  {
    hide Valid, EntryRowsFrom, ListsProfiles, ProfilesIn, Trim;
    if entries == [] {
    } else {
      var n := |entries| - 1;
      assert forall i :: 0 <= i < n ==> entries[..n][i] == entries[i] && listed[..n][i] == listed[i];
      RowsFromListings(x, cp, obs, entries[..n], listed[..n]);
      ListedElements(x, entries[n], listed[n]);
      SameProvider(x, entries[n]);
    }
  }

  /** One round of the outer loop. */
  method ExploreEntry(reg: Registry?, cp: CryptoPolicy, obs: Observation, entry: string)
    returns (ranked: seq<RankedRow>, rejected: seq<RejectedRow>, ghost rps: seq<ResolvedProfile>)
    ensures var x := if reg == null then EMPTY_INDEX else reg.State();
            && ListsProfiles(x, entry, rps)
            && ranked == RankedRows(EntryRowsFrom(x, cp, obs, entry, rps))
            && rejected == RejectedRows(EntryRowsFrom(x, cp, obs, entry, rps))
  {
    hide Valid, Trim, ProfileRow, ProviderKey, ListsProfiles, ProfilesIn;
    ranked, rejected := [], [];
    ghost var x := if reg == null then EMPTY_INDEX else reg.State();
    ProfilesInLists(x, entry);
    SameProvider(x, entry);
    rps := ProfilesIn(x, entry);
    var providerID := Trim(entry);
    if providerID == "" {
      return;
    }
    var found: seq<ResolvedProfile> := [];
    if reg != null {
      found := reg.ProfilesForProvider(providerID);
      rps := found;
    } else {
      EmptyListsNothing(entry);
    }
    if |found| == 0 {
      rejected := [UnresolvedRow(cp, providerID)];
      assert EntryRowsFrom(x, cp, obs, entry, rps) == [Rejected(rejected[0])];
      return;
    }
    ranked, rejected := ExploreProfiles(reg, cp, obs, found);
  }

  lemma EmptyListsNothing(entry: string)
    ensures ProfilesIn(EMPTY_INDEX, entry) == []
  {
    hide ProviderKey;
  }

  method ExploreProfiles(reg: Registry, cp: CryptoPolicy, obs: Observation, rps: seq<ResolvedProfile>)
    returns (ranked: seq<RankedRow>, rejected: seq<RejectedRow>)
    ensures ranked == RankedRows(ProfileRows(reg.State(), cp, obs, rps))
    ensures rejected == RejectedRows(ProfileRows(reg.State(), cp, obs, rps))
  {
    hide ProfileRow;
    ranked, rejected := [], [];
    ghost var rows := ProfileRows(reg.State(), cp, obs, rps);
    var j := 0;
    while j < |rps|
      invariant 0 <= j <= |rps|
      invariant ranked == RankedRows(rows[..j])
      invariant rejected == RejectedRows(rows[..j])
    {
      assert rows[..j + 1][..j] == rows[..j];
      var row := ExploreProfile(reg, cp, obs, rps[j]);
      match row {
        case Ranked(r) => ranked := ranked + [r];
        case Rejected(r) => rejected := rejected + [r];
      }
      j := j + 1;
    }
    assert rows[..j] == rows;
  }

  /** One round of the inner loop: re-lookup, suggestion check, couche A. */
  method ExploreProfile(reg: Registry, cp: CryptoPolicy, obs: Observation, rp: ResolvedProfile) returns (row: Row)
    ensures row == ProfileRow(reg.State(), cp, obs, rp)
  {
    var found := reg.Lookup(RefOf(rp));
    if found.None? {
      return Rejected(RejectedOf(cp, rp, LookupFailed));
    }
    if !SuggestionConsistent(rp.profile) {
      return Rejected(RejectedOf(cp, rp, ErroneousSuggestion));
    }
    var hard := EvaluateScanCompatibility(obs, cp.requiredPosture, rp.profile);
    if |hard| > 0 {
      return Rejected(RejectedOf(cp, rp, Incompatible(hard)));
    }
    var soft := EvaluateSoftFindings(rp.profile);
    return Ranked(RankedOf(cp, rp).(softFindings := soft));
  }

  // --------------------------------------------------------------- partition

  lemma {:induction false} RowsAppend(a: seq<Row>, b: seq<Row>)
    ensures RankedRows(a + b) == RankedRows(a) + RankedRows(b)
    ensures RejectedRows(a + b) == RejectedRows(a) + RejectedRows(b)
  {
    if b == [] {
      assert a + b == a;
    } else {
      var n := |b| - 1;
      assert (a + b)[..|a + b| - 1] == a + b[..n];
      RowsAppend(a, b[..n]);
    }
  }

  lemma {:induction false} RowsPartition(rows: seq<Row>)
    ensures |RankedRows(rows)| + |RejectedRows(rows)| == |rows|
    ensures forall r :: r in RankedRows(rows) <==> Ranked(r) in rows
    ensures forall r :: r in RejectedRows(rows) <==> Rejected(r) in rows
  {
    if rows == [] {
    } else {
      RowsPartition(rows[..|rows| - 1]);
      assert rows == rows[..|rows| - 1] + [rows[|rows| - 1]];
    }
  }

  /** How many rows an entry must contribute: none if blank, else one per profile, or one if unresolved. */
  function EntryCount(x: Index, entry: string): (n: nat) {
    if Trim(entry) == "" then 0
    else if ProfilesIn(x, Trim(entry)) == [] then 1
    else |ProfilesIn(x, Trim(entry))|
  }

  function TotalCount(x: Index, entries: seq<string>): (n: nat) {
    if entries == [] then 0
    else TotalCount(x, entries[..|entries| - 1]) + EntryCount(x, entries[|entries| - 1])
  }

  lemma {:induction false} RowsCount(x: Index, cp: CryptoPolicy, obs: Observation, entries: seq<string>)
    ensures |Rows(x, cp, obs, entries)| == TotalCount(x, entries)
  {
    if entries == [] {
    } else {
      hide Trim, ProfilesIn;
      RowsCount(x, cp, obs, entries[..|entries| - 1]);
    }
  }

  lemma {:induction false} RowsElements(x: Index, cp: CryptoPolicy, obs: Observation, entries: seq<string>, row: Row)
    ensures row in Rows(x, cp, obs, entries) <==>
            exists i :: 0 <= i < |entries| && row in EntryRows(x, cp, obs, entries[i])
  {
    hide EntryRows;
    if entries == [] {
    } else {
      var n := |entries| - 1;
      RowsElements(x, cp, obs, entries[..n], row);
      assert forall i :: 0 <= i < n ==> entries[..n][i] == entries[i];
    }
  }

  /** Nothing is lost or invented: every decision row is in exactly one of the two lists. */
  lemma ExploreConserves(x: Index, cp: CryptoPolicy, observation: Observation)
    ensures var d := ExploreSpec(x, cp, observation);
            |d.ranked| + |d.rejected| == TotalCount(x, cp.allowedProviders)
  {
    hide NormalizeChainIDs, Rows, TotalCount;
    var rows := Rows(x, cp, Seen(observation), cp.allowedProviders);
    RowsPartition(rows);
    RowsCount(x, cp, Seen(observation), cp.allowedProviders);
  }

  lemma RowOrders()
    ensures StrictWeakOrder(RankedBefore)
    ensures StrictWeakOrder(RejectedBefore)
  {
    LessIsOrder();
  }

  /** Both lists come out ascending by candidate id. */
  lemma ExploreSorted(x: Index, cp: CryptoPolicy, observation: Observation)
    ensures Ascending(RankedBefore, ExploreSpec(x, cp, observation).ranked)
    ensures Ascending(RejectedBefore, ExploreSpec(x, cp, observation).rejected)
  {
    hide NormalizeChainIDs, Rows, StableSort;
    var rows := Rows(x, cp, Seen(observation), cp.allowedProviders);
    RowOrders();
    StableSortAscending(RankedBefore, RankedRows(rows));
    StableSortAscending(RejectedBefore, RejectedRows(rows));
  }

  /** On the rows themselves, for every decision explore may reach: no row comes after one with a later candidate id. */
  lemma DecisionInOrder(x: Index, cp: CryptoPolicy, observation: Observation, d: Decision)
    requires Explores(x, cp, observation, d)
    ensures forall i, j :: 0 <= i < j < |d.ranked| ==> !Precedes(d.ranked[j].candidateID, d.ranked[i].candidateID)
    ensures forall i, j :: 0 <= i < j < |d.rejected| ==> !Precedes(d.rejected[j].candidateID, d.rejected[i].candidateID)
    ensures forall r :: r in d.ranked ==> d.ranked != [] && !Precedes(r.candidateID, d.ranked[0].candidateID)
    ensures d.selectedPolicyID == if d.ranked == [] then "" else AsciiUpper(cp.id)
    ensures d.cryptoPolicyID == cp.id
    ensures forall i, j :: 0 <= i < j < |d.chainIDs| ==> d.chainIDs[i] < d.chainIDs[j]
    ensures forall c :: c in d.chainIDs <==> c in observation.chainIDs
  {
    hide NormalizeChainIDs, StableSort, ListsProfiles, Precedes, AsciiUpper, RankedRows, RejectedRows, RowsFrom;
    var listed :| Listings(x, cp.allowedProviders, listed) && d == ExploreFrom(x, cp, observation, listed);
    var rows := RowsFrom(x, cp, Seen(observation), cp.allowedProviders, listed);
    RowOrders();
    StableSortAscending(RankedBefore, RankedRows(rows));
    StableSortAscending(RejectedBefore, RejectedRows(rows));
    forall a: string, b: string ensures Less(a, b) <==> Precedes(a, b) {
      LessExact(a, b);
    }
    forall r | r in d.ranked ensures d.ranked != [] && !Precedes(r.candidateID, d.ranked[0].candidateID) {
      var j :| 0 <= j < |d.ranked| && d.ranked[j] == r;
      LessTrichotomy(r.candidateID, r.candidateID);
      assert j == 0 || !RankedBefore(d.ranked[j], d.ranked[0]);
    }
    NormalizeChainIDsSorted(observation.chainIDs);
    SameElements(RankedRows(rows), d.ranked);
    RowsPartition(rows);
    if d.ranked != [] {
      assert Ranked(d.ranked[0]) in rows;
      RankedNamesPolicy(x, cp, Seen(observation), cp.allowedProviders, listed, d.ranked[0]);
    }
  }

  lemma {:induction false} RankedNamesPolicy(x: Index, cp: CryptoPolicy, obs: Observation, entries: seq<string>,
                                             listed: seq<seq<ResolvedProfile>>, r: RankedRow)
    requires |listed| == |entries| && Ranked(r) in RowsFrom(x, cp, obs, entries, listed)
    ensures r.policyID == AsciiUpper(cp.id)
  {
    hide AsciiUpper, ProfileRow, Trim;
    if entries == [] {
    } else {
      var n := |entries| - 1;
      if Ranked(r) in RowsFrom(x, cp, obs, entries[..n], listed[..n]) {
        RankedNamesPolicy(x, cp, obs, entries[..n], listed[..n], r);
      } else {
        var rows := ProfileRows(x, cp, obs, listed[n]);
        var k :| 0 <= k < |rows| && rows[k] == Ranked(r);
        RowShowsPolicy(x, cp, obs, listed[n][k]);
      }
    }
  }

  lemma RowShowsPolicy(x: Index, cp: CryptoPolicy, obs: Observation, rp: ResolvedProfile)
    ensures var row := ProfileRow(x, cp, obs, rp);
            row.Ranked? ==> row.ranked.policyID == AsciiUpper(cp.id)
  {
    hide AsciiUpper, LookupIn, SuggestionConsistent, ScanFindings, SoftCodes;
  }

  /** The profiles an allowed entry stands for. */
  predicate Candidate(x: Index, cp: CryptoPolicy, rp: ResolvedProfile) {
    exists i :: 0 <= i < |cp.allowedProviders| && CandidateAt(x, cp.allowedProviders[i], rp)
  }

  predicate CandidateAt(x: Index, entry: string, rp: ResolvedProfile) {
    Trim(entry) != "" && rp in ProfilesIn(x, Trim(entry))
  }

  lemma EntryRowsElements(x: Index, cp: CryptoPolicy, obs: Observation, entry: string, row: Row)
    ensures row in EntryRows(x, cp, obs, entry) <==>
            || (exists rp :: CandidateAt(x, entry, rp) && row == ProfileRow(x, cp, obs, rp))
            || (Trim(entry) != "" && ProfilesIn(x, Trim(entry)) == []
                && row == Rejected(UnresolvedRow(cp, Trim(entry))))
  {
    hide Trim, ProfilesIn, ProfileRow, UnresolvedRow;
    var rps := ProfilesIn(x, Trim(entry));
    if Trim(entry) != "" && rps != [] {
      var rows := ProfileRows(x, cp, obs, rps);
      if row in rows {
        var i :| 0 <= i < |rows| && rows[i] == row;
        assert CandidateAt(x, entry, rps[i]);
      }
      if exists rp :: CandidateAt(x, entry, rp) && row == ProfileRow(x, cp, obs, rp) {
        var rp :| CandidateAt(x, entry, rp) && row == ProfileRow(x, cp, obs, rp);
        var i :| 0 <= i < |rps| && rps[i] == rp;
        assert rows[i] == row;
      }
    }
  }

  lemma DecisionElements(x: Index, cp: CryptoPolicy, observation: Observation)
    ensures forall r :: r in ExploreSpec(x, cp, observation).ranked
              <==> Ranked(r) in Rows(x, cp, Seen(observation), cp.allowedProviders)
    ensures forall r :: r in ExploreSpec(x, cp, observation).rejected
              <==> Rejected(r) in Rows(x, cp, Seen(observation), cp.allowedProviders)
  {
    hide NormalizeChainIDs, Rows, StableSort;
    var rows := Rows(x, cp, Seen(observation), cp.allowedProviders);
    StableSortPermutes(RankedBefore, RankedRows(rows));
    StableSortPermutes(RejectedBefore, RejectedRows(rows));
    RowsPartition(rows);
  }

  /** On a valid registry a candidate is judged by its suggestion and couche A alone. */
  lemma CandidateRow(x: Index, cp: CryptoPolicy, obs: Observation, entry: string, rp: ResolvedProfile)
    requires Valid(x) && CandidateAt(x, entry, rp)
    ensures var row := ProfileRow(x, cp, obs, rp);
            && (row.Ranked?
                <==> SuggestionConsistent(rp.profile) && ScanFindings(obs, cp.requiredPosture, rp.profile) == [])
            && (row.Ranked? ==> row.ranked == RankedOf(cp, rp))
            && (row.Rejected? ==> row.rejected.reason != LookupFailed)
            && (row.Rejected? && row.rejected.reason == ErroneousSuggestion <==> !SuggestionConsistent(rp.profile))
  {
    hide Trim, ScanFindings, SuggestionConsistent, Valid, RankedOf, ProviderKey, LookupIn;
    ListedIsFound(x, Trim(entry), rp);
  }

  /** A row is ranked exactly when it stands for a candidate with a consistent suggestion and no couche A finding. */
  lemma RankedExactly(x: Index, cp: CryptoPolicy, observation: Observation, r: RankedRow)
    requires Valid(x)
    ensures r in ExploreSpec(x, cp, observation).ranked <==>
            exists rp :: && Candidate(x, cp, rp)
                         && r == RankedOf(cp, rp)
                         && SuggestionConsistent(rp.profile)
                         && ScanFindings(observation, cp.requiredPosture, rp.profile) == []
  {
    hide Trim, NormalizeChainIDs, ExploreSpec, Rows, EntryRows, ProfilesIn, ScanFindings, SuggestionConsistent, Valid,
         RankedOf, ProfileRow, CandidateAt;
    var obs := Seen(observation);
    DecisionElements(x, cp, observation);
    RowsElements(x, cp, obs, cp.allowedProviders, Ranked(r));
    if r in ExploreSpec(x, cp, observation).ranked {
      var i :| 0 <= i < |cp.allowedProviders| && Ranked(r) in EntryRows(x, cp, obs, cp.allowedProviders[i]);
      EntryRowsElements(x, cp, obs, cp.allowedProviders[i], Ranked(r));
      var rp :| CandidateAt(x, cp.allowedProviders[i], rp) && Ranked(r) == ProfileRow(x, cp, obs, rp);
      CandidateRow(x, cp, obs, cp.allowedProviders[i], rp);
      NormalizedScanSameFindings(observation.accountKind, observation.chainIDs, cp.requiredPosture, rp.profile);
      assert Candidate(x, cp, rp);
    }
    if exists rp :: && Candidate(x, cp, rp) && r == RankedOf(cp, rp) && SuggestionConsistent(rp.profile)
                    && ScanFindings(observation, cp.requiredPosture, rp.profile) == [] {
      var rp :| && Candidate(x, cp, rp) && r == RankedOf(cp, rp) && SuggestionConsistent(rp.profile)
                && ScanFindings(observation, cp.requiredPosture, rp.profile) == [];
      var i :| 0 <= i < |cp.allowedProviders| && CandidateAt(x, cp.allowedProviders[i], rp);
      NormalizedScanSameFindings(observation.accountKind, observation.chainIDs, cp.requiredPosture, rp.profile);
      CandidateRow(x, cp, obs, cp.allowedProviders[i], rp);
      assert Ranked(r) == ProfileRow(x, cp, obs, rp);
      EntryRowsElements(x, cp, obs, cp.allowedProviders[i], Ranked(r));
    }
  }

  /** The lookup-failed branch is dead on a valid registry. */
  lemma LookupNeverFails(x: Index, cp: CryptoPolicy, observation: Observation, r: RejectedRow)
    requires Valid(x) && r in ExploreSpec(x, cp, observation).rejected
    ensures r.reason != LookupFailed
  {
    hide Trim, NormalizeChainIDs, ExploreSpec, Rows, EntryRows, ProfilesIn, ScanFindings, SuggestionConsistent, Valid,
         ProfileRow, CandidateAt;
    var obs := Seen(observation);
    DecisionElements(x, cp, observation);
    RowsElements(x, cp, obs, cp.allowedProviders, Rejected(r));
    var i :| 0 <= i < |cp.allowedProviders| && Rejected(r) in EntryRows(x, cp, obs, cp.allowedProviders[i]);
    EntryRowsElements(x, cp, obs, cp.allowedProviders[i], Rejected(r));
    if exists rp :: CandidateAt(x, cp.allowedProviders[i], rp) && Rejected(r) == ProfileRow(x, cp, obs, rp) {
      var rp :| CandidateAt(x, cp.allowedProviders[i], rp) && Rejected(r) == ProfileRow(x, cp, obs, rp);
      CandidateRow(x, cp, obs, cp.allowedProviders[i], rp);
    }
  }

  // ------------------------------------------------------------- reordering

  lemma RowsSnoc(x: Index, cp: CryptoPolicy, obs: Observation, entries: seq<string>, entry: string)
    ensures Rows(x, cp, obs, entries + [entry]) == Rows(x, cp, obs, entries) + EntryRows(x, cp, obs, entry)
  {
    hide EntryRows;
    assert (entries + [entry])[..|entries|] == entries;
  }

  lemma {:induction false} RowsWithout(x: Index, cp: CryptoPolicy, obs: Observation, a: seq<string>, entry: string,
                                       b: seq<string>)
    ensures multiset(Rows(x, cp, obs, a + [entry] + b)) ==
            multiset(Rows(x, cp, obs, a + b)) + multiset(EntryRows(x, cp, obs, entry))
  {
    hide EntryRows, Rows;
    if b == [] {
      assert a + [entry] + b == a + [entry] && a + b == a;
      RowsSnoc(x, cp, obs, a, entry);
    } else {
      var n := |b| - 1;
      RowsWithout(x, cp, obs, a, entry, b[..n]);
      assert a + [entry] + b == (a + [entry] + b[..n]) + [b[n]];
      assert a + b == (a + b[..n]) + [b[n]];
      RowsSnoc(x, cp, obs, a + [entry] + b[..n], b[n]);
      RowsSnoc(x, cp, obs, a + b[..n], b[n]);
    }
  }

  lemma SplitOut(a: seq<string>, b: seq<string>) returns (front: seq<string>, back: seq<string>)
    requires multiset(a) == multiset(b) && a != []
    ensures b == front + [a[|a| - 1]] + back
    ensures multiset(a[..|a| - 1]) == multiset(front + back)
  {
    var n := |a| - 1;
    SameElements(a, b);
    assert a[n] in b;
    var j :| 0 <= j < |b| && b[j] == a[n];
    front, back := b[..j], b[j + 1..];
    assert a == a[..n] + [a[n]];
    assert b == front + [b[j]] + back;
    assert multiset(a[..n]) == multiset(a) - multiset{a[n]};
    assert multiset(front + back) == multiset(b) - multiset{b[j]};
  }

  lemma {:induction false} RowsPermute(x: Index, cp: CryptoPolicy, obs: Observation, a: seq<string>, b: seq<string>)
    requires multiset(a) == multiset(b)
    ensures multiset(Rows(x, cp, obs, a)) == multiset(Rows(x, cp, obs, b))
    decreases |a|
  {
    hide EntryRows, Rows;
    if a == [] {
      SameElements(a, b);
    } else {
      var n := |a| - 1;
      var front, back := SplitOut(a, b);
      RowsPermute(x, cp, obs, a[..n], front + back);
      RowsWithout(x, cp, obs, front, a[n], back);
      RowsSnoc(x, cp, obs, a[..n], a[n]);
      assert a == a[..n] + [a[n]];
    }
  }

  /** Rows of the same list that share a candidate id are equal. */
  predicate TiesEqual(rows: seq<Row>) {
    forall a, b :: a in rows && b in rows && a.Ranked? == b.Ranked? && a.CandidateID() == b.CandidateID() ==> a == b
  }

  lemma {:induction false} RowsCounted(rows: seq<Row>)
    ensures forall r :: multiset(RankedRows(rows))[r] == multiset(rows)[Ranked(r)]
    ensures forall r :: multiset(RejectedRows(rows))[r] == multiset(rows)[Rejected(r)]
  {
    if rows == [] {
    } else {
      var n := |rows| - 1;
      RowsCounted(rows[..n]);
      assert rows == rows[..n] + [rows[n]];
    }
  }

  lemma ListsPermute(a: seq<Row>, b: seq<Row>)
    requires multiset(a) == multiset(b)
    ensures multiset(RankedRows(a)) == multiset(RankedRows(b))
    ensures multiset(RejectedRows(a)) == multiset(RejectedRows(b))
  {
    hide RankedRows, RejectedRows;
    RowsCounted(a);
    RowsCounted(b);
    forall r ensures multiset(RankedRows(a))[r] == multiset(RankedRows(b))[r] {
    }
    forall r ensures multiset(RejectedRows(a))[r] == multiset(RejectedRows(b))[r] {
    }
  }

  lemma SameDecision(chainIDs: seq<Int64>, cp: CryptoPolicy, a: seq<Row>, b: seq<Row>)
    requires multiset(a) == multiset(b) && TiesEqual(a)
    ensures DecisionOf(chainIDs, cp, a) == DecisionOf(chainIDs, cp, b)
  {
    hide Less, StableSort, RankedRows, RejectedRows;
    RowsPartition(a);
    ListsPermute(a, b);
    RowOrders();
    var p, q := RankedRows(a), RankedRows(b);
    StableSortAscending(RankedBefore, p);
    StableSortAscending(RankedBefore, q);
    SameElements(p, StableSort(RankedBefore, p));
    forall x, y | x in StableSort(RankedBefore, p) && y in StableSort(RankedBefore, p) && x != y
      ensures RankedBefore(x, y) || RankedBefore(y, x)
    {
      assert Ranked(x) in a && Ranked(y) in a;
      LessTrichotomy(x.candidateID, y.candidateID);
    }
    AscendingUnique(RankedBefore, StableSort(RankedBefore, p), StableSort(RankedBefore, q));
    var s, t := RejectedRows(a), RejectedRows(b);
    StableSortAscending(RejectedBefore, s);
    StableSortAscending(RejectedBefore, t);
    SameElements(s, StableSort(RejectedBefore, s));
    forall x, y | x in StableSort(RejectedBefore, s) && y in StableSort(RejectedBefore, s) && x != y
      ensures RejectedBefore(x, y) || RejectedBefore(y, x)
    {
      assert Rejected(x) in a && Rejected(y) in a;
      LessTrichotomy(x.candidateID, y.candidateID);
    }
    AscendingUnique(RejectedBefore, StableSort(RejectedBefore, s), StableSort(RejectedBefore, t));
  }

  /** The order of the allowed providers does not influence the decision when ties are between equal rows. */
  lemma ExploreOrderIrrelevant(x: Index, cp: CryptoPolicy, entries: seq<string>, observation: Observation)
    requires multiset(entries) == multiset(cp.allowedProviders)
    requires TiesEqual(Rows(x, cp, Seen(observation), cp.allowedProviders))
    ensures ExploreSpec(x, cp.(allowedProviders := entries), observation) == ExploreSpec(x, cp, observation)
  {
    hide NormalizeChainIDs, Less, StableSort, Rows, RankedRows, RejectedRows;
    var obs := Seen(observation);
    RowsIgnoreList(x, cp, entries, obs, entries);
    RowsPermute(x, cp, obs, cp.allowedProviders, entries);
    SameDecision(obs.chainIDs, cp, Rows(x, cp, obs, cp.allowedProviders), Rows(x, cp, obs, entries));
  }

  /** Only the traversed list matters, not the policy's own copy of it. */
  lemma {:induction false} RowsIgnoreList(x: Index, cp: CryptoPolicy, other: seq<string>, obs: Observation,
                                          entries: seq<string>)
    ensures Rows(x, cp.(allowedProviders := other), obs, entries) == Rows(x, cp, obs, entries)
  {
    if entries == [] {
    } else {
      hide EntryRows;
      RowsIgnoreList(x, cp, other, obs, entries[..|entries| - 1]);
      EntryIgnoresList(x, cp, other, obs, entries[|entries| - 1]);
    }
  }

  lemma EntryIgnoresList(x: Index, cp: CryptoPolicy, other: seq<string>, obs: Observation, entry: string)
    ensures EntryRows(x, cp.(allowedProviders := other), obs, entry) == EntryRows(x, cp, obs, entry)
  {
    hide Trim, ProfilesIn, ProfileRow;
    var cp' := cp.(allowedProviders := other);
    var rps := ProfilesIn(x, Trim(entry));
    forall i | 0 <= i < |rps| ensures ProfileRow(x, cp', obs, rps[i]) == ProfileRow(x, cp, obs, rps[i]) {
      ProfileIgnoresList(x, cp, other, obs, rps[i]);
    }
    assert ProfileRows(x, cp', obs, rps) == ProfileRows(x, cp, obs, rps);
  }

  lemma ProfileIgnoresList(x: Index, cp: CryptoPolicy, other: seq<string>, obs: Observation, rp: ResolvedProfile)
    ensures ProfileRow(x, cp.(allowedProviders := other), obs, rp) == ProfileRow(x, cp, obs, rp)
  {
    hide ScanFindings, LookupIn, SuggestionConsistent, AsciiUpper, SoftCodes;
  }

  // ------------------------------------------------- the exact order condition

  lemma {:induction false} RowsCons(x: Index, cp: CryptoPolicy, obs: Observation, entry: string, rest: seq<string>)
    ensures Rows(x, cp, obs, [entry] + rest) == EntryRows(x, cp, obs, entry) + Rows(x, cp, obs, rest)
  {
    hide EntryRows;
    if rest == [] {
      assert [entry] + rest == [entry];
      assert Rows(x, cp, obs, [entry][..0]) == [];
    } else {
      var n := |rest| - 1;
      RowsCons(x, cp, obs, entry, rest[..n]);
      var all := [entry] + rest;
      assert all[..|all| - 1] == [entry] + rest[..n];
    }
  }

  /** Within one entry of a valid registry, candidate ids tell the rows apart. */
  lemma EntryTiesEqual(x: Index, cp: CryptoPolicy, obs: Observation, entry: string)
    requires Valid(x)
    ensures TiesEqual(EntryRows(x, cp, obs, entry))
  {
    hide Valid, Trim, ProfileRow, ProfilesIn;
    var rps := ProfilesIn(x, Trim(entry));
    forall i, j | 0 <= i < |rps| && 0 <= j < |rps|
                  && ProfileRow(x, cp, obs, rps[i]).CandidateID() == ProfileRow(x, cp, obs, rps[j]).CandidateID()
      ensures rps[i] == rps[j]
    {
      RowNamesProfile(x, cp, obs, rps[i]);
      RowNamesProfile(x, cp, obs, rps[j]);
      SameCandidate(x, Trim(entry), rps[i], rps[j]);
    }
  }

  lemma RowNamesProfile(x: Index, cp: CryptoPolicy, obs: Observation, rp: ResolvedProfile)
    ensures ProfileRow(x, cp, obs, rp).CandidateID() == CandidateOf(rp)
  {
    hide LookupIn, SuggestionConsistent, ScanFindings, AsciiUpper, SoftCodes;
  }

  lemma SameCandidate(x: Index, providerID: string, a: ResolvedProfile, b: ResolvedProfile)
    requires Valid(x) && a in ProfilesIn(x, providerID) && b in ProfilesIn(x, providerID)
    requires CandidateOf(a) == CandidateOf(b)
    ensures a == b
  {
    hide ProviderKey, KeyOf, LoadedManifest, ProfilesIn;
    ProfilesInElements(x, providerID, a);
    ProfilesInElements(x, providerID, b);
    var k := ProviderKey(providerID);
    var m := x.manifests[k];
    var i :| 0 <= i < |m.profiles| && KeyOf(m, i) in x.byKey && x.byKey[KeyOf(m, i)] == a;
    var j :| 0 <= j < |m.profiles| && KeyOf(m, j) in x.byKey && x.byKey[KeyOf(m, j)] == b;
    assert Indexes(x.byKey, m, i) && Indexes(x.byKey, m, j);
    var n := |m.providerID| + 1;
    assert a.profile.id == CandidateOf(a)[n..] == CandidateOf(b)[n..] == b.profile.id;
    assert LoadedAt(x, k);
    ManifestIDsDistinct(m);
    assert i == j;
  }

  /** The entry moved to the front decides which of several tied rows comes first. */
  lemma LeadingRow(x: Index, cp: CryptoPolicy, obs: Observation, entries: seq<string>, i: nat, row: Row, other: Row)
    returns (moved: seq<string>)
    requires Valid(x) && i < |entries| && row in EntryRows(x, cp, obs, entries[i])
    requires row.Ranked? == other.Ranked? && row.CandidateID() == other.CandidateID()
    ensures multiset(moved) == multiset(entries)
    ensures var d := DecisionOf(obs.chainIDs, cp, Rows(x, cp, obs, moved));
            if row.Ranked? then FirstTied(RankedBefore, d.ranked, other.ranked) == Some(row.ranked)
            else FirstTied(RejectedBefore, d.rejected, other.rejected) == Some(row.rejected)
  {
    hide Valid, EntryRows, Rows, FirstTied, StableSort, RankedRows, RejectedRows, Less;
    var rest := entries[..i] + entries[i + 1..];
    moved := [entries[i]] + rest;
    assert entries == entries[..i] + [entries[i]] + entries[i + 1..];
    var lead, tail := EntryRows(x, cp, obs, entries[i]), Rows(x, cp, obs, rest);
    RowsCons(x, cp, obs, entries[i], rest);
    EntryTiesEqual(x, cp, obs, entries[i]);
    LeadingInDecision(obs.chainIDs, cp, lead, tail, row, other);
  }

  lemma LeadingInDecision(chainIDs: seq<Int64>, cp: CryptoPolicy, lead: seq<Row>, tail: seq<Row>, row: Row, other: Row)
    requires TiesEqual(lead) && row in lead
    requires row.Ranked? == other.Ranked? && row.CandidateID() == other.CandidateID()
    ensures var d := DecisionOf(chainIDs, cp, lead + tail);
            if row.Ranked? then FirstTied(RankedBefore, d.ranked, other.ranked) == Some(row.ranked)
            else FirstTied(RejectedBefore, d.rejected, other.rejected) == Some(row.rejected)
  {
    hide FirstTied, StableSort, RankedRows, RejectedRows, Less;
    RowOrders();
    RowsAppend(lead, tail);
    RowsPartition(lead);
    match row
    case Ranked(r) =>
      var o := other.ranked;
      forall y: RankedRow ensures Tied(RankedBefore, y, o) <==> y.candidateID == o.candidateID {
        LessTrichotomy(y.candidateID, o.candidateID);
      }
      forall y | y in RankedRows(lead) && Tied(RankedBefore, y, o) ensures y == r {
        assert Ranked(y) in lead;
      }
      FirstTiedLeads(RankedBefore, RankedRows(lead), RankedRows(tail), o, r);
      StableSortKeepsFirstTied(RankedBefore, RankedRows(lead + tail), o);
    case Rejected(r) =>
      var o := other.rejected;
      forall y: RejectedRow ensures Tied(RejectedBefore, y, o) <==> y.candidateID == o.candidateID {
        LessTrichotomy(y.candidateID, o.candidateID);
      }
      forall y | y in RejectedRows(lead) && Tied(RejectedBefore, y, o) ensures y == r {
        assert Rejected(y) in lead;
      }
      FirstTiedLeads(RejectedBefore, RejectedRows(lead), RejectedRows(tail), o, r);
      StableSortKeepsFirstTied(RejectedBefore, RejectedRows(lead + tail), o);
  }

  /** Listing the allowed providers in another order never changes the decision. */
  ghost predicate OrderIrrelevant(x: Index, cp: CryptoPolicy, observation: Observation) {
    forall entries: seq<string> :: multiset(entries) == multiset(cp.allowedProviders) ==>
      ExploreSpec(x, cp.(allowedProviders := entries), observation) == ExploreSpec(x, cp, observation)
  }

  lemma TieChangesOrder(x: Index, cp: CryptoPolicy, observation: Observation, a: Row, b: Row)
    requires Valid(x)
    requires var rows := Rows(x, cp, Seen(observation), cp.allowedProviders); a in rows && b in rows
    requires a.Ranked? == b.Ranked? && a.CandidateID() == b.CandidateID() && a != b
    ensures !OrderIrrelevant(x, cp, observation)
  {
    hide Valid, Rows, EntryRows, NormalizeChainIDs, FirstTied, StableSort, RankedRows, RejectedRows, RankedBefore,
         RejectedBefore;
    var obs := Seen(observation);
    var all := cp.allowedProviders;
    RowsElements(x, cp, obs, all, a);
    RowsElements(x, cp, obs, all, b);
    var i :| 0 <= i < |all| && a in EntryRows(x, cp, obs, all[i]);
    var j :| 0 <= j < |all| && b in EntryRows(x, cp, obs, all[j]);
    var first := LeadingRow(x, cp, obs, all, i, a, b);
    var second := LeadingRow(x, cp, obs, all, j, b, b);
    RowsIgnoreList(x, cp, first, obs, first);
    RowsIgnoreList(x, cp, second, obs, second);
    var d := ExploreSpec(x, cp.(allowedProviders := first), observation);
    var e := ExploreSpec(x, cp.(allowedProviders := second), observation);
    assert d != e;
  }

  /** Exactly when the order of allowed_providers cannot matter on one scan. */
  lemma ExploreOrderExact(x: Index, cp: CryptoPolicy, observation: Observation)
    requires Valid(x)
    ensures OrderIrrelevant(x, cp, observation) <==> TiesEqual(Rows(x, cp, Seen(observation), cp.allowedProviders))
  {
    hide Valid, Rows, NormalizeChainIDs, ExploreSpec;
    var rows := Rows(x, cp, Seen(observation), cp.allowedProviders);
    if TiesEqual(rows) {
      forall entries: seq<string> | multiset(entries) == multiset(cp.allowedProviders)
        ensures ExploreSpec(x, cp.(allowedProviders := entries), observation) == ExploreSpec(x, cp, observation)
      {
        ExploreOrderIrrelevant(x, cp, entries, observation);
      }
    } else {
      var a, b :| a in rows && b in rows && a.Ranked? == b.Ranked? && a.CandidateID() == b.CandidateID() && a != b;
      TieChangesOrder(x, cp, observation, a, b);
    }
  }

  // ------------------------------------- the order condition on registry and policy

  predicate Unresolved(x: Index, entry: string) {
    Trim(entry) != "" && ProfilesIn(x, Trim(entry)) == []
  }

  /** Candidate ids name candidates: different ones have different ids, and none is the name of an unresolved entry. */
  ghost predicate NamesApart(x: Index, cp: CryptoPolicy) {
    && (forall a, b :: Candidate(x, cp, a) && Candidate(x, cp, b) && CandidateOf(a) == CandidateOf(b) ==> a == b)
    && (forall i, rp :: 0 <= i < |cp.allowedProviders| && Unresolved(x, cp.allowedProviders[i]) && Candidate(x, cp, rp)
          ==> Trim(cp.allowedProviders[i]) != CandidateOf(rp))
  }

  ghost predicate FromCandidate(x: Index, cp: CryptoPolicy, obs: Observation, row: Row) {
    exists rp :: Candidate(x, cp, rp) && row == ProfileRow(x, cp, obs, rp)
  }

  ghost predicate FromUnresolved(x: Index, cp: CryptoPolicy, row: Row) {
    exists i :: 0 <= i < |cp.allowedProviders| && Unresolved(x, cp.allowedProviders[i])
             && row == Rejected(UnresolvedRow(cp, Trim(cp.allowedProviders[i])))
  }

  /** Every row stands for a candidate or for an unresolved entry. */
  lemma RowOrigin(x: Index, cp: CryptoPolicy, obs: Observation, row: Row)
    ensures row in Rows(x, cp, obs, cp.allowedProviders) <==>
            FromCandidate(x, cp, obs, row) || FromUnresolved(x, cp, row)
  {
    hide Trim, ProfilesIn, ProfileRow, UnresolvedRow, Rows, EntryRows, CandidateAt;
    RowsElements(x, cp, obs, cp.allowedProviders, row);
    forall i | 0 <= i < |cp.allowedProviders|
      ensures row in EntryRows(x, cp, obs, cp.allowedProviders[i]) ==>
              FromCandidate(x, cp, obs, row) || FromUnresolved(x, cp, row)
    {
      EntryRowsElements(x, cp, obs, cp.allowedProviders[i], row);
      if exists rp :: CandidateAt(x, cp.allowedProviders[i], rp) && row == ProfileRow(x, cp, obs, rp) {
        var rp :| CandidateAt(x, cp.allowedProviders[i], rp) && row == ProfileRow(x, cp, obs, rp);
        assert Candidate(x, cp, rp);
      }
    }
    if FromCandidate(x, cp, obs, row) {
      var rp :| Candidate(x, cp, rp) && row == ProfileRow(x, cp, obs, rp);
      var i :| 0 <= i < |cp.allowedProviders| && CandidateAt(x, cp.allowedProviders[i], rp);
      EntryRowsElements(x, cp, obs, cp.allowedProviders[i], row);
    }
    if FromUnresolved(x, cp, row) {
      var i :| 0 <= i < |cp.allowedProviders| && Unresolved(x, cp.allowedProviders[i])
               && row == Rejected(UnresolvedRow(cp, Trim(cp.allowedProviders[i])));
      EntryRowsElements(x, cp, obs, cp.allowedProviders[i], row);
    }
  }

  lemma ApartMeansTiesEqual(x: Index, cp: CryptoPolicy, obs: Observation)
    requires NamesApart(x, cp)
    ensures TiesEqual(Rows(x, cp, obs, cp.allowedProviders))
  {
    hide Trim, ProfileRow, Rows, Candidate, Unresolved, CandidateOf;
    var rows := Rows(x, cp, obs, cp.allowedProviders);
    forall a, b | a in rows && b in rows && a.Ranked? == b.Ranked? && a.CandidateID() == b.CandidateID()
      ensures a == b
    {
      RowOrigin(x, cp, obs, a);
      RowOrigin(x, cp, obs, b);
      CandidateNames(x, cp, obs, a);
      CandidateNames(x, cp, obs, b);
    }
  }

  lemma CandidateNames(x: Index, cp: CryptoPolicy, obs: Observation, row: Row)
    ensures FromCandidate(x, cp, obs, row) ==>
              exists rp :: Candidate(x, cp, rp) && row == ProfileRow(x, cp, obs, rp)
                && row.CandidateID() == CandidateOf(rp)
  {
    hide ProfileRow, Candidate, CandidateOf;
    if FromCandidate(x, cp, obs, row) {
      var rp :| Candidate(x, cp, rp) && row == ProfileRow(x, cp, obs, rp);
      RowNamesProfile(x, cp, obs, rp);
    }
  }

  const NO_ACCOUNT: Observation := Observation("", [])

  /** A scan without an account kind rejects every candidate. */
  lemma NoAccountRejects(x: Index, cp: CryptoPolicy, rp: ResolvedProfile)
    ensures var row := ProfileRow(x, cp, Seen(NO_ACCOUNT), rp);
            row.Rejected? && row.rejected.ref == FullRef(rp) && row.rejected.reason != UnknownProvider
  {
    hide LookupIn, SuggestionConsistent, PostureFindings, ScanChainFindings, AsciiUpper, NormalizeChainIDs;
    assert Trimmed("");
    assert Lower("") == "";
    assert !WalletTypeAccepted("", rp.profile.inputRequirements.walletTypes);
    assert HardFinding(WalletType, "policy_context.wallet_type") in WalletFindings(Seen(NO_ACCOUNT), rp.profile);
  }

  lemma CandidateListed(x: Index, cp: CryptoPolicy, rp: ResolvedProfile)
    requires Valid(x) && Candidate(x, cp, rp)
    ensures rp in ProfilesIn(x, rp.providerID)
    ensures exists i :: 0 <= i < |cp.allowedProviders| &&
              ProviderKey(cp.allowedProviders[i]) == ProviderKey(rp.providerID)
  {
    hide Valid, ProfilesIn, ProviderKey, LookupIn, Trim;
    var i :| 0 <= i < |cp.allowedProviders| && CandidateAt(x, cp.allowedProviders[i], rp);
    ListedIsFound(x, Trim(cp.allowedProviders[i]), rp);
    SameProvider(x, cp.allowedProviders[i]);
    SameKeySameProfiles(x, rp.providerID, Trim(cp.allowedProviders[i]));
  }

  lemma TwoCandidatesTie(x: Index, cp: CryptoPolicy, a: ResolvedProfile, b: ResolvedProfile)
    requires Valid(x) && Candidate(x, cp, a) && Candidate(x, cp, b) && CandidateOf(a) == CandidateOf(b) && a != b
    ensures !OrderIrrelevant(x, cp, NO_ACCOUNT)
  {
    hide Valid, Candidate, ProfileRow, ProfilesIn, Rows, OrderIrrelevant, ProviderKey, Seen;
    CandidateListed(x, cp, a);
    CandidateListed(x, cp, b);
    if a.providerID == b.providerID {
      SameCandidate(x, a.providerID, a, b);
      assert false;
    }
    var obs := Seen(NO_ACCOUNT);
    var r, q := ProfileRow(x, cp, obs, a), ProfileRow(x, cp, obs, b);
    NoAccountRejects(x, cp, a);
    NoAccountRejects(x, cp, b);
    RowNamesProfile(x, cp, obs, a);
    RowNamesProfile(x, cp, obs, b);
    assert FromCandidate(x, cp, obs, r) && FromCandidate(x, cp, obs, q);
    RowOrigin(x, cp, obs, r);
    RowOrigin(x, cp, obs, q);
    TieChangesOrder(x, cp, NO_ACCOUNT, r, q);
  }

  lemma UnresolvedTies(x: Index, cp: CryptoPolicy, i: nat, rp: ResolvedProfile)
    requires Valid(x) && i < |cp.allowedProviders| && Unresolved(x, cp.allowedProviders[i]) && Candidate(x, cp, rp)
    requires Trim(cp.allowedProviders[i]) == CandidateOf(rp)
    ensures !OrderIrrelevant(x, cp, NO_ACCOUNT)
  {
    hide Valid, Candidate, Unresolved, ProfileRow, Rows, OrderIrrelevant, Seen, Trim;
    var obs := Seen(NO_ACCOUNT);
    var r, q := Rejected(UnresolvedRow(cp, Trim(cp.allowedProviders[i]))), ProfileRow(x, cp, obs, rp);
    NoAccountRejects(x, cp, rp);
    RowNamesProfile(x, cp, obs, rp);
    assert FromUnresolved(x, cp, r) && FromCandidate(x, cp, obs, q);
    RowOrigin(x, cp, obs, r);
    RowOrigin(x, cp, obs, q);
    TieChangesOrder(x, cp, NO_ACCOUNT, r, q);
  }

  /** The order of allowed_providers matters on no scan exactly when candidate ids name candidates. */
  lemma OrderIrrelevantExact(x: Index, cp: CryptoPolicy)
    requires Valid(x)
    ensures (forall observation :: OrderIrrelevant(x, cp, observation)) <==> NamesApart(x, cp)
  {
    hide Valid, Candidate, Unresolved, Rows, OrderIrrelevant, Seen, Trim, CandidateOf;
    if NamesApart(x, cp) {
      forall observation ensures OrderIrrelevant(x, cp, observation) {
        ApartMeansTiesEqual(x, cp, Seen(observation));
        ExploreOrderExact(x, cp, observation);
      }
    } else if exists a, b :: Candidate(x, cp, a) && Candidate(x, cp, b) && CandidateOf(a) == CandidateOf(b) && a != b {
      var a, b :| Candidate(x, cp, a) && Candidate(x, cp, b) && CandidateOf(a) == CandidateOf(b) && a != b;
      TwoCandidatesTie(x, cp, a, b);
    } else {
      var i, rp :| 0 <= i < |cp.allowedProviders| && Unresolved(x, cp.allowedProviders[i]) && Candidate(x, cp, rp)
                   && Trim(cp.allowedProviders[i]) == CandidateOf(rp);
      UnresolvedTies(x, cp, i, rp);
    }
  }

  lemma SlashFreeKey(a: string, b: string)
    requires ProviderKey(a) == ProviderKey(b) && '/' !in a && Trim(b) == b
    ensures '/' !in b
  {
    hide Trim;
    var t := Trim(a);
    assert |t| == |Lower(t)| == |Lower(b)| == |b|;
    forall i | 0 <= i < |b| ensures b[i] != '/' {
      assert LowerChar(t[i]) == Lower(t)[i] == Lower(b)[i] == LowerChar(b[i]);
      assert t[i] in t;
    }
  }

  lemma SplitAtSlash(a: string, s: string, b: string, t: string)
    requires '/' !in a && '/' !in b && a + "/" + s == b + "/" + t
    ensures a == b && s == t
  {
    var u := a + "/" + s;
    assert u == b + "/" + t;
    assert u[|a|] == '/' && u[|b|] == '/';
    assert forall i :: 0 <= i < |a| ==> u[i] == a[i] && a[i] in a;
    assert forall i :: 0 <= i < |b| ==> u[i] == b[i] && b[i] in b;
    assert |a| == |b|;
    assert a == u[..|a|] == b;
    assert s == u[|a| + 1..] == t;
  }

  lemma CandidateSlashFree(x: Index, cp: CryptoPolicy, rp: ResolvedProfile)
    requires Valid(x) && Candidate(x, cp, rp)
    requires forall i :: 0 <= i < |cp.allowedProviders| ==> '/' !in cp.allowedProviders[i]
    ensures '/' !in rp.providerID && rp in ProfilesIn(x, rp.providerID)
  {
    hide ProviderKey, ProfilesIn, KeyOf, Candidate, LoadedManifest, Trim;
    CandidateListed(x, cp, rp);
    var i :| 0 <= i < |cp.allowedProviders| && ProviderKey(cp.allowedProviders[i]) == ProviderKey(rp.providerID);
    ListedIsFound(x, rp.providerID, rp);
    var k := ProviderKey(rp.providerID);
    var m := x.manifests[k];
    var j :| 0 <= j < |m.profiles| && rp.(erroneous := false) == Entry(m, j);
    assert LoadedAt(x, k);
    LoadedProfileFixed(m, j);
    SlashFreeKey(cp.allowedProviders[i], rp.providerID);
  }

  /** In particular when no allowed provider id holds a slash. */
  lemma SlashFreeNamesApart(x: Index, cp: CryptoPolicy)
    requires Valid(x)
    requires forall i :: 0 <= i < |cp.allowedProviders| ==> '/' !in cp.allowedProviders[i]
    ensures NamesApart(x, cp)
  {
    hide Valid, Candidate, Trim, ProfilesIn;
    forall a, b | Candidate(x, cp, a) && Candidate(x, cp, b) && CandidateOf(a) == CandidateOf(b) ensures a == b {
      CandidateSlashFree(x, cp, a);
      CandidateSlashFree(x, cp, b);
      SplitAtSlash(a.providerID, a.profile.id, b.providerID, b.profile.id);
      SameCandidate(x, a.providerID, a, b);
    }
    forall i, rp | 0 <= i < |cp.allowedProviders| && Unresolved(x, cp.allowedProviders[i]) && Candidate(x, cp, rp)
      ensures Trim(cp.allowedProviders[i]) != CandidateOf(rp)
    {
      assert CandidateOf(rp)[|rp.providerID|] == '/';
      assert '/' !in Trim(cp.allowedProviders[i]);
    }
  }
}
