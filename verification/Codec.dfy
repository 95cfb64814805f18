/**
 The persist payload of internal/domain/policy/persist_payload.go, as a typed value and as the
 JSON object on the wire. Encoding follows the struct tags: a nil slice is null, an empty
 `omitempty` field is absent, and a chain id is a decimal string. Decoding follows
 encoding/json: an absent or null field is the zero value, a wrong type is an error.
 */
module Codec {
  import opened Wrappers
  import opened Text
  import opened Json
  import opened Provider
  import opened Explore
  import opened Assist
  import opened PayloadHash

  datatype Payload = Payload(
    schemaVersion: string, policyKind: string, cryptoPolicyID: string, requiredPosture: string,
    userConstraints: UserConstraints, ref: SolutionProfileRef, snapshot: Snapshot,
    acceptedFindings: seq<string>)

  // ---------------------------------------------------------------- decoding

  function StrField(m: Object, k: string): (r: Option<string>) {
    if k !in m || m[k].Null? then Some("") else if m[k].Str? then Some(m[k].s) else None
  }

  function BoolField(m: Object, k: string): (r: Option<bool>) {
    if k !in m || m[k].Null? then Some(false) else if m[k].Bool? then Some(m[k].b) else None
  }

  function ObjField(m: Object, k: string): (r: Option<Object>) {
    if k !in m || m[k].Null? then Some(map[]) else if m[k].Obj? then Some(m[k].fields) else None
  }

  function ArrField(m: Object, k: string): (r: Option<seq<Json>>) {
    if k !in m || m[k].Null? then Some([]) else if m[k].Arr? then Some(m[k].elems) else None
  }

  /** How a field of each kind is read: absent or null is the zero value, another type is an error. */
  lemma FieldsRead(m: Object, k: string)
    ensures k !in m || m[k] == Null ==>
              StrField(m, k) == Some("") && BoolField(m, k) == Some(false) && ObjField(m, k) == Some(map[])
              && ArrField(m, k) == Some([])
    ensures forall s :: k in m && m[k] == Str(s) ==>
              StrField(m, k) == Some(s) && BoolField(m, k) == None && ObjField(m, k) == None && ArrField(m, k) == None
    ensures forall b :: k in m && m[k] == Bool(b) ==>
              BoolField(m, k) == Some(b) && StrField(m, k) == None && ObjField(m, k) == None && ArrField(m, k) == None
    ensures forall o :: k in m && m[k] == Obj(o) ==>
              ObjField(m, k) == Some(o) && StrField(m, k) == None && BoolField(m, k) == None && ArrField(m, k) == None
    ensures forall a :: k in m && m[k] == Arr(a) ==>
              ArrField(m, k) == Some(a) && StrField(m, k) == None && BoolField(m, k) == None && ObjField(m, k) == None
    ensures k in m && (m[k].Num? || m[k].GoInt?) ==>
              StrField(m, k) == None && BoolField(m, k) == None && ObjField(m, k) == None && ArrField(m, k) == None
  {
  }

  function StrItems(items: seq<Json>): (r: Option<seq<string>>) {
    if items == [] then Some([])
    else
      var n := |items| - 1;
      var front :- StrItems(items[..n]);
      match items[n]
      case Str(s) => Some(front + [s])
      case Null => Some(front + [""])
      case _ => None
  }

  function StrsField(m: Object, k: string): (r: Option<seq<string>>) {
    var items :- ArrField(m, k);
    StrItems(items)
  }

  /** FlexibleChainID.UnmarshalJSON: a decimal string, a number, or nothing. */
  function DecodeChainID(m: Object): (r: Option<Int64>) {
    if "chain_id" !in m then Some(0)
    else
      match m["chain_id"]
      case Null => Some(0)
      case Str(s) => if Trim(s) == "" then Some(0) else ParseInt(Trim(s))
      case Num(n) =>
        var i := n.Floor;
        if i as real == n && -0x8000_0000_0000_0000 <= i <= 0x7fff_ffff_ffff_ffff then Some(i) else None
      case GoInt(i) =>
        if -0x8000_0000_0000_0000 <= i <= 0x7fff_ffff_ffff_ffff then Some(i) else None
      case _ => None
  }

  /** How a chain id is read. */
  lemma ChainIDReads(m: Object, c: Int64)
    ensures "chain_id" !in m || m["chain_id"] == Null ==> DecodeChainID(m) == Some(0)
    ensures "chain_id" in m && m["chain_id"] == GoInt(c) ==> DecodeChainID(m) == Some(c)
    ensures "chain_id" in m && m["chain_id"] == Num(c as real) ==> DecodeChainID(m) == Some(c)
    ensures "chain_id" in m && m["chain_id"] == Num(c as real + 0.5) ==> DecodeChainID(m) == None
    ensures forall s :: "chain_id" in m && m["chain_id"] == Str(s) && Trim(s) == FormatInt(c) ==>
              DecodeChainID(m) == Some(c)
    ensures forall s :: "chain_id" in m && m["chain_id"] == Str(s) && Trim(s) == "" ==> DecodeChainID(m) == Some(0)
    ensures forall s :: "chain_id" in m && m["chain_id"] == Str(s) && Trim(s) != "" && ParseInt(Trim(s)).None? ==>
              DecodeChainID(m) == None
    ensures "chain_id" in m && (m["chain_id"].Bool? || m["chain_id"].Arr? || m["chain_id"].Obj?)
            ==> DecodeChainID(m) == None
  {
    hide Trim, ParseInt, FormatInt;
    ParseFormatInt(c);
    assert (c as real + 0.5).Floor == c;
  }

  function DecodeChain(m: Object): (r: Option<SnapshotChain>) {
    var chainID :- DecodeChainID(m);
    var status :- StrField(m, "status");
    var capabilities :- StrsField(m, "capabilities");
    Some(SnapshotChain(chainID, status, capabilities))
  }

  function DecodeReference(m: Object): (r: Option<Reference>) {
    var kind :- StrField(m, "kind");
    var url :- StrField(m, "url");
    var commit :- StrField(m, "commit");
    var version :- StrField(m, "version");
    Some(Reference(kind, url, commit, version))
  }

  function AsObject(v: Json): (r: Option<Object>) {
    match v
    case Obj(m) => Some(m)
    case Null => Some(map[])
    case _ => None
  }

  function DecodeChains(items: seq<Json>): (r: Option<seq<SnapshotChain>>) {
    if items == [] then Some([])
    else
      var n := |items| - 1;
      var front :- DecodeChains(items[..n]);
      var m :- AsObject(items[n]);
      var last :- DecodeChain(m);
      Some(front + [last])
  }

  function DecodeReferences(items: seq<Json>): (r: Option<seq<Reference>>) {
    if items == [] then Some([])
    else
      var n := |items| - 1;
      var front :- DecodeReferences(items[..n]);
      var m :- AsObject(items[n]);
      var last :- DecodeReference(m);
      Some(front + [last])
  }

  function DecodeInput(m: Object): (r: Option<InputRequirements>) {
    var walletTypes :- StrsField(m, "wallet_types");
    var proof :- BoolField(m, "requires_wallet_control_proof");
    Some(InputRequirements(walletTypes, proof))
  }

  function DecodeSignature(m: Object): (r: Option<SignatureProfile>) {
    var scheme :- StrField(m, "scheme");
    var family :- StrField(m, "family");
    var rotation :- StrField(m, "key_rotation_model");
    Some(SignatureProfile(scheme, family, rotation))
  }

  function DecodeAccount(m: Object): (r: Option<AccountModel>) {
    var standard :- StrField(m, "standard");
    var execution :- StrField(m, "execution_model");
    var bundler :- BoolField(m, "requires_bundler");
    var entrypoint :- BoolField(m, "requires_entrypoint");
    var versions :- StrsField(m, "entrypoint_versions");
    Some(AccountModel(standard, execution, bundler, entrypoint, versions))
  }

  function DecodeConstraints(m: Object): (r: Option<ProfileConstraints>) {
    var account :- BoolField(m, "requires_new_account");
    var continuity :- BoolField(m, "address_continuity_supported");
    var local :- BoolField(m, "requires_local_signer_state");
    Some(ProfileConstraints(account, continuity, local))
  }

  function DecodeUser(m: Object): (r: Option<UserConstraints>) {
    var allow :- BoolField(m, "allow_new_wallet");
    var continuity :- BoolField(m, "address_continuity_required");
    var rotation :- StrField(m, "key_rotation_model");
    Some(UserConstraints(allow, continuity, rotation))
  }

  function DecodeRef(m: Object): (r: Option<SolutionProfileRef>) {
    var provider :- StrField(m, "provider_id");
    var profile :- StrField(m, "solution_profile_id");
    var version :- StrField(m, "manifest_version");
    var date :- StrField(m, "verification_date");
    Some(SolutionProfileRef(provider, profile, version, date))
  }

  function DecodeInputIn(m: Object): (r: Option<InputRequirements>) {
    var o :- ObjField(m, "input_requirements");
    DecodeInput(o)
  }

  function DecodeSignatureIn(m: Object): (r: Option<SignatureProfile>) {
    var o :- ObjField(m, "signature");
    DecodeSignature(o)
  }

  function DecodeAccountIn(m: Object): (r: Option<AccountModel>) {
    var o :- ObjField(m, "account_model");
    DecodeAccount(o)
  }

  function DecodeConstraintsIn(m: Object): (r: Option<ProfileConstraints>) {
    var o :- ObjField(m, "constraints");
    DecodeConstraints(o)
  }

  function DecodeChainsIn(m: Object): (r: Option<seq<SnapshotChain>>) {
    var items :- ArrField(m, "chain_support_used");
    DecodeChains(items)
  }

  function DecodeReferencesIn(m: Object): (r: Option<seq<Reference>>) {
    var items :- ArrField(m, "references");
    DecodeReferences(items)
  }

  function DecodeSnapshot(m: Object): (r: Option<Snapshot>) {
    var maturity :- StrField(m, "maturity");
    var claim :- StrField(m, "claim_status");
    var posture :- StrField(m, "resulting_posture");
    var input :- DecodeInputIn(m);
    var signature :- DecodeSignatureIn(m);
    var account :- DecodeAccountIn(m);
    var constraints :- DecodeConstraintsIn(m);
    var chains :- DecodeChainsIn(m);
    var references :- DecodeReferencesIn(m);
    var findings :- StrsField(m, "accepted_findings");
    var notes :- StrsField(m, "accepted_risk_notes");
    Some(Snapshot(maturity, claim, posture, input, signature, account, constraints, chains, references, findings,
                  notes))
  }

  function DecodeUserIn(m: Object): (r: Option<UserConstraints>) {
    var o :- ObjField(m, "user_constraints");
    DecodeUser(o)
  }

  function DecodeRefIn(m: Object): (r: Option<SolutionProfileRef>) {
    var o :- ObjField(m, "solution_profile_ref");
    DecodeRef(o)
  }

  function DecodeSnapshotIn(m: Object): (r: Option<Snapshot>) {
    var o :- ObjField(m, "accepted_provider_snapshot");
    DecodeSnapshot(o)
  }

  function DecodePayload(m: Object): (r: Option<Payload>) {
    var schema :- StrField(m, "schema_version");
    var kind :- StrField(m, "policy_kind");
    var id :- StrField(m, "crypto_policy_id");
    var posture :- StrField(m, "required_posture");
    var uc :- DecodeUserIn(m);
    var ref :- DecodeRefIn(m);
    var snapshot :- DecodeSnapshotIn(m);
    var findings :- StrsField(m, "accepted_findings");
    Some(Payload(schema, kind, id, posture, uc, ref, snapshot, findings))
  }

  // ---------------------------------------------------------------- encoding

  /** A slice field without omitempty whose empty value is a nil slice. */
  function NilableStrs(items: seq<string>): (r: Json) {
    if items == [] then Null else Arr(Strs(items))
  }

  /** A slice field with omitempty. */
  function OmitEmpty(k: string, items: seq<string>): (r: Object) {
    if items == [] then map[] else map[k := Arr(Strs(items))]
  }

  function OmitBlank(k: string, s: string): (r: Object) {
    if s == "" then map[] else map[k := Str(s)]
  }

  function EncodeChain(c: SnapshotChain): (r: Object) {
    map["chain_id" := Str(FormatInt(c.chainID)), "status" := Str(c.status)] + OmitEmpty("capabilities", c.capabilities)
  }

  function EncodeReference(x: Reference): (r: Object) {
    map["kind" := Str(x.kind), "url" := Str(x.url)] + OmitBlank("commit", x.commit) + OmitBlank("version", x.version)
  }

  function EncodeChains(cs: seq<SnapshotChain>): (r: seq<Json>)
    ensures |r| == |cs| && forall i :: 0 <= i < |cs| ==> r[i] == Obj(EncodeChain(cs[i]))
  {
    seq(|cs|, i requires 0 <= i < |cs| => Obj(EncodeChain(cs[i])))
  }

  function EncodeReferences(xs: seq<Reference>): (r: seq<Json>)
    ensures |r| == |xs| && forall i :: 0 <= i < |xs| ==> r[i] == Obj(EncodeReference(xs[i]))
  {
    seq(|xs|, i requires 0 <= i < |xs| => Obj(EncodeReference(xs[i])))
  }

  function EncodeInput(x: InputRequirements): (r: Object) {
    map["wallet_types" := NilableStrs(x.walletTypes),
        "requires_wallet_control_proof" := Bool(x.requiresWalletControlProof)]
  }

  function EncodeSignature(x: SignatureProfile): (r: Object) {
    map["scheme" := Str(x.scheme), "family" := Str(x.family), "key_rotation_model" := Str(x.keyRotationModel)]
  }

  function EncodeAccount(x: AccountModel): (r: Object) {
    map["standard" := Str(x.standard), "execution_model" := Str(x.executionModel),
        "requires_bundler" := Bool(x.requiresBundler), "requires_entrypoint" := Bool(x.requiresEntrypoint)]
    + OmitEmpty("entrypoint_versions", x.entrypointVersions)
  }

  function EncodeConstraints(x: ProfileConstraints): (r: Object) {
    map["requires_new_account" := Bool(x.requiresNewAccount),
        "address_continuity_supported" := Bool(x.addressContinuitySupported),
        "requires_local_signer_state" := Bool(x.requiresLocalSignerState)]
  }

  function EncodeUser(x: UserConstraints): (r: Object) {
    map["allow_new_wallet" := Bool(x.allowNewWallet),
        "address_continuity_required" := Bool(x.addressContinuityRequired),
        "key_rotation_model" := Str(x.keyRotationModel)]
  }

  function EncodeRef(x: SolutionProfileRef): (r: Object) {
    map["provider_id" := Str(x.providerID), "solution_profile_id" := Str(x.profileID),
        "manifest_version" := Str(x.manifestVersion)]
    + OmitBlank("verification_date", x.verificationDate)
  }

  /** Assist leaves references nil when there are none, and findings never nil. */
  function EncodeSnapshot(s: Snapshot): (r: Object) {
    map["maturity" := Str(s.maturity), "claim_status" := Str(s.claimStatus),
        "resulting_posture" := Str(s.resultingPosture),
        "input_requirements" := Obj(EncodeInput(s.inputRequirements)),
        "signature" := Obj(EncodeSignature(s.signature)),
        "account_model" := Obj(EncodeAccount(s.accountModel)),
        "constraints" := Obj(EncodeConstraints(s.constraints)),
        "chain_support_used" := Arr(EncodeChains(s.chainSupportUsed)),
        "references" := if s.references == [] then Null else Arr(EncodeReferences(s.references)),
        "accepted_findings" := Arr(Strs(s.acceptedFindings))]
    + OmitEmpty("accepted_risk_notes", s.acceptedRiskNotes)
  }

  /** The closed payload a client assembles from an assist response and its own choices. */
  function EncodePayload(p: Payload): (r: Object) {
    map["schema_version" := Str(p.schemaVersion), "crypto_policy_id" := Str(p.cryptoPolicyID),
        "required_posture" := Str(p.requiredPosture),
        "user_constraints" := Obj(EncodeUser(p.userConstraints)),
        "solution_profile_ref" := Obj(EncodeRef(p.ref)),
        "accepted_provider_snapshot" := Obj(EncodeSnapshot(p.snapshot)),
        "accepted_findings" := Arr(Strs(p.acceptedFindings))]
  }

  /** On the wire: a chain id is a decimal string, and what is empty is left out. */
  lemma ChainOnTheWire(c: SnapshotChain, x: Reference)
    ensures var o := EncodeChain(c);
            && "chain_id" in o && o["chain_id"] == Str(FormatInt(c.chainID))
            && "status" in o && o["status"] == Str(c.status)
            && ("capabilities" in o <==> c.capabilities != [])
            && ("capabilities" in o ==> o["capabilities"] == Arr(Strs(c.capabilities)))
    ensures var o := EncodeReference(x);
            && "kind" in o && o["kind"] == Str(x.kind) && "url" in o && o["url"] == Str(x.url)
            && ("commit" in o <==> x.commit != "") && ("commit" in o ==> o["commit"] == Str(x.commit))
            && ("version" in o <==> x.version != "") && ("version" in o ==> o["version"] == Str(x.version))
  {
    hide FormatInt;
    assert |"chain_id"| == 8 && |"status"| == 6 && |"capabilities"| == 12;
    assert |"kind"| == 4 && |"url"| == 3 && |"commit"| == 6 && |"version"| == 7;
  }

  // --------------------------------------------------------------- round trip

  lemma {:induction false} StrItemsOfStrs(items: seq<string>)
    ensures StrItems(Strs(items)) == Some(items)
  {
    if items == [] {
    } else {
      var n := |items| - 1;
      StrItemsOfStrs(items[..n]);
      assert Strs(items)[..n] == Strs(items[..n]);
      assert items == items[..n] + [items[n]];
    }
  }

  lemma ChainRoundTrip(c: SnapshotChain)
    ensures DecodeChain(EncodeChain(c)) == Some(c)
  {
    hide Trim, ParseInt, FormatInt;
    assert |"chain_id"| == 8 && |"status"| == 6 && |"capabilities"| == 12;
    StrItemsOfStrs(c.capabilities);
    ParseFormatInt(c.chainID);
    FormatIntTrimmed(c.chainID);
  }

  lemma ReferenceRoundTrip(x: Reference)
    ensures DecodeReference(EncodeReference(x)) == Some(x)
  {
    assert |"kind"| == 4 && |"url"| == 3 && |"commit"| == 6 && |"version"| == 7;
  }

  lemma {:induction false} ChainsRoundTrip(cs: seq<SnapshotChain>)
    ensures DecodeChains(EncodeChains(cs)) == Some(cs)
  {
    hide DecodeChain, EncodeChain;
    if cs == [] {
    } else {
      var n := |cs| - 1;
      ChainsRoundTrip(cs[..n]);
      ChainRoundTrip(cs[n]);
      assert EncodeChains(cs)[..n] == EncodeChains(cs[..n]);
      assert cs == cs[..n] + [cs[n]];
    }
  }

  lemma {:induction false} ReferencesRoundTrip(xs: seq<Reference>)
    ensures DecodeReferences(EncodeReferences(xs)) == Some(xs)
  {
    hide DecodeReference, EncodeReference;
    if xs == [] {
    } else {
      var n := |xs| - 1;
      ReferencesRoundTrip(xs[..n]);
      ReferenceRoundTrip(xs[n]);
      assert EncodeReferences(xs)[..n] == EncodeReferences(xs[..n]);
      assert xs == xs[..n] + [xs[n]];
    }
  }

  lemma InputRoundTrip(x: InputRequirements)
    ensures DecodeInput(EncodeInput(x)) == Some(x)
  {
    assert |"wallet_types"| != |"requires_wallet_control_proof"|;
    StrItemsOfStrs(x.walletTypes);
  }

  lemma SignatureRoundTrip(x: SignatureProfile)
    ensures DecodeSignature(EncodeSignature(x)) == Some(x)
  {
    assert "scheme"[0] != "family"[0] && |"scheme"| == |"family"| == 6 && |"key_rotation_model"| == 18;
  }

  lemma AccountRoundTrip(x: AccountModel)
    ensures DecodeAccount(EncodeAccount(x)) == Some(x)
  {
    hide Strs, StrItems, StrsField, BoolField;
    AccountFlags(x);
    AccountTexts(x);
  }

  lemma AccountKeyLengths()
    ensures |"standard"| == 8 && |"execution_model"| == 15 && |"requires_bundler"| == 16
    ensures |"requires_entrypoint"| == 19 && |"entrypoint_versions"| == 19
    ensures "requires_entrypoint" != "entrypoint_versions"
  {
    assert "requires_entrypoint"[0] == 'r' && "entrypoint_versions"[0] == 'e';
  }

  lemma AccountFlags(x: AccountModel)
    ensures BoolField(EncodeAccount(x), "requires_bundler") == Some(x.requiresBundler)
    ensures BoolField(EncodeAccount(x), "requires_entrypoint") == Some(x.requiresEntrypoint)
  {
    hide Strs;
    AccountKeyLengths();
  }

  lemma AccountTexts(x: AccountModel)
    ensures StrField(EncodeAccount(x), "standard") == Some(x.standard)
    ensures StrField(EncodeAccount(x), "execution_model") == Some(x.executionModel)
    ensures StrsField(EncodeAccount(x), "entrypoint_versions") == Some(x.entrypointVersions)
  {
    hide StrItems;
    AccountKeyLengths();
    StrItemsOfStrs(x.entrypointVersions);
    StrItemsOfStrs([]);
    assert Strs([]) == [];
  }

  lemma ConstraintsRoundTrip(x: ProfileConstraints)
    ensures DecodeConstraints(EncodeConstraints(x)) == Some(x)
  {
    assert |"requires_new_account"| == 20 && |"address_continuity_supported"| == 28
        && |"requires_local_signer_state"| == 27;
  }

  lemma UserRoundTrip(x: UserConstraints)
    ensures DecodeUser(EncodeUser(x)) == Some(x)
  {
    assert |"allow_new_wallet"| == 16 && |"address_continuity_required"| == 27 && |"key_rotation_model"| == 18;
  }

  lemma RefRoundTrip(x: SolutionProfileRef)
    ensures DecodeRef(EncodeRef(x)) == Some(x)
  {
    assert |"provider_id"| == 11 && |"solution_profile_id"| == 19 && |"manifest_version"| == 16
        && |"verification_date"| == 17;
  }

  lemma SnapshotKeyLengths()
    ensures |"maturity"| == 8 && |"claim_status"| == 12 && |"resulting_posture"| == 17 && |"input_requirements"| == 18
    ensures |"signature"| == 9 && |"account_model"| == 13 && |"constraints"| == 11 && |"chain_support_used"| == 18
    ensures |"references"| == 10 && |"accepted_findings"| == 17 && |"accepted_risk_notes"| == 19
    ensures "resulting_posture" != "accepted_findings" && "input_requirements" != "chain_support_used"
  {
    assert "resulting_posture"[0] == 'r' && "accepted_findings"[0] == 'a';
    assert "input_requirements"[0] == 'i' && "chain_support_used"[0] == 'c';
  }

  lemma SnapshotTexts(s: Snapshot)
    ensures var m := EncodeSnapshot(s);
            && StrField(m, "maturity") == Some(s.maturity)
            && StrField(m, "claim_status") == Some(s.claimStatus)
            && StrField(m, "resulting_posture") == Some(s.resultingPosture)
  {
    hide EncodeInput, EncodeSignature, EncodeAccount, EncodeConstraints, EncodeChains, EncodeReferences, Strs;
    SnapshotKeyLengths();
  }

  lemma SnapshotLists(s: Snapshot)
    ensures var m := EncodeSnapshot(s);
            && StrsField(m, "accepted_findings") == Some(s.acceptedFindings)
            && StrsField(m, "accepted_risk_notes") == Some(s.acceptedRiskNotes)
  {
    hide EncodeInput, EncodeSignature, EncodeAccount, EncodeConstraints, EncodeChains, EncodeReferences, StrItems;
    SnapshotKeyLengths();
    StrItemsOfStrs(s.acceptedFindings);
    StrItemsOfStrs(s.acceptedRiskNotes);
    StrItemsOfStrs([]);
    assert Strs([]) == [];
  }

  lemma SnapshotObjects(s: Snapshot)
    ensures var m := EncodeSnapshot(s);
            && ObjField(m, "input_requirements") == Some(EncodeInput(s.inputRequirements))
            && ObjField(m, "signature") == Some(EncodeSignature(s.signature))
            && ObjField(m, "account_model") == Some(EncodeAccount(s.accountModel))
            && ObjField(m, "constraints") == Some(EncodeConstraints(s.constraints))
  {
    hide EncodeInput, EncodeSignature, EncodeAccount, EncodeConstraints, EncodeChain, EncodeReference, Strs;
    SnapshotKeyLengths();
  }

  lemma SnapshotArrays(s: Snapshot)
    ensures var m := EncodeSnapshot(s);
            && ArrField(m, "chain_support_used") == Some(EncodeChains(s.chainSupportUsed))
            && ArrField(m, "references") == Some(EncodeReferences(s.references))
  {
    hide EncodeInput, EncodeSignature, EncodeAccount, EncodeConstraints, EncodeChain, EncodeReference, Strs;
    SnapshotKeyLengths();
  }

  lemma SnapshotRoundTrip(s: Snapshot)
    ensures DecodeSnapshot(EncodeSnapshot(s)) == Some(s)
  {
    hide EncodeSnapshot, StrField, StrsField, ObjField, ArrField;
    hide DecodeInput, DecodeSignature, DecodeAccount, DecodeConstraints, DecodeChains, DecodeReferences;
    SnapshotTexts(s);
    SnapshotLists(s);
    SnapshotObjects(s);
    SnapshotArrays(s);
    InputRoundTrip(s.inputRequirements);
    SignatureRoundTrip(s.signature);
    AccountRoundTrip(s.accountModel);
    ConstraintsRoundTrip(s.constraints);
    ChainsRoundTrip(s.chainSupportUsed);
    ReferencesRoundTrip(s.references);
  }

  lemma PayloadKeyLengths()
    ensures |"schema_version"| == 14 && |"crypto_policy_id"| == 16 && |"required_posture"| == 16
    ensures |"user_constraints"| == 16 && |"solution_profile_ref"| == 20 && |"accepted_provider_snapshot"| == 26
    ensures |"accepted_findings"| == 17 && |"policy_kind"| == 11 && |"policy_context"| == 14
    ensures "crypto_policy_id" != "required_posture" && "crypto_policy_id" != "user_constraints"
    ensures "required_posture" != "user_constraints" && "policy_context" != "schema_version"
  {
    assert "crypto_policy_id"[0] == 'c' && "required_posture"[0] == 'r' && "user_constraints"[0] == 'u';
    assert "policy_context"[0] == 'p' && "schema_version"[0] == 's';
  }

  lemma PayloadFields(p: Payload)
    ensures var m := EncodePayload(p);
            && StrField(m, "schema_version") == Some(p.schemaVersion)
            && StrField(m, "policy_kind") == Some("")
            && StrField(m, "crypto_policy_id") == Some(p.cryptoPolicyID)
            && StrField(m, "required_posture") == Some(p.requiredPosture)
            && ObjField(m, "user_constraints") == Some(EncodeUser(p.userConstraints))
            && ObjField(m, "solution_profile_ref") == Some(EncodeRef(p.ref))
            && ObjField(m, "accepted_provider_snapshot") == Some(EncodeSnapshot(p.snapshot))
            && StrsField(m, "accepted_findings") == Some(p.acceptedFindings)
  {
    hide EncodeUser, EncodeRef, EncodeSnapshot, StrItems;
    PayloadKeyLengths();
    StrItemsOfStrs(p.acceptedFindings);
  }

  /** Reading an encoded closed payload gives the payload back. */
  lemma PayloadRoundTrip(p: Payload)
    requires p.policyKind == ""
    ensures DecodePayload(EncodePayload(p)) == Some(p)
  {
    hide EncodePayload, StrField, StrsField, ObjField, DecodeUser, DecodeRef, DecodeSnapshot;
    PayloadFields(p);
    UserRoundTrip(p.userConstraints);
    RefRoundTrip(p.ref);
    SnapshotRoundTrip(p.snapshot);
  }

  // ----------------------------------------------------- what may be hashed

  lemma AllowedOmitEmpty(k: string, items: seq<string>)
    ensures forall key :: key in OmitEmpty(k, items) ==> AllowedSubtree(OmitEmpty(k, items)[key])
  {
    AllowedStrings(items);
  }

  lemma ChainAllowed(c: SnapshotChain)
    ensures AllowedSubtree(Obj(EncodeChain(c)))
  {
    hide FormatInt;
    AllowedOmitEmpty("capabilities", c.capabilities);
  }

  lemma ReferenceAllowed(x: Reference)
    ensures AllowedSubtree(Obj(EncodeReference(x)))
  {
  }

  lemma AccountAllowed(x: AccountModel)
    ensures AllowedSubtree(Obj(EncodeAccount(x)))
  {
    AllowedOmitEmpty("entrypoint_versions", x.entrypointVersions);
  }

  lemma InputAllowed(x: InputRequirements)
    ensures AllowedSubtree(Obj(EncodeInput(x))) <==> x.walletTypes != []
  {
    AllowedStrings(x.walletTypes);
    assert |"wallet_types"| != |"requires_wallet_control_proof"|;
    assert EncodeInput(x)["wallet_types"] == NilableStrs(x.walletTypes);
  }

  lemma ListsAllowed(s: Snapshot)
    ensures AllowedSubtree(Arr(EncodeChains(s.chainSupportUsed)))
    ensures AllowedSubtree(Arr(EncodeReferences(s.references)))
  {
    hide EncodeChain, EncodeReference;
    forall i | 0 <= i < |s.chainSupportUsed| ensures AllowedSubtree(EncodeChains(s.chainSupportUsed)[i]) {
      ChainAllowed(s.chainSupportUsed[i]);
    }
    forall i | 0 <= i < |s.references| ensures AllowedSubtree(EncodeReferences(s.references)[i]) {
      ReferenceAllowed(s.references[i]);
    }
  }

  lemma FlatPartsAllowed(s: Snapshot)
    ensures AllowedSubtree(Obj(EncodeSignature(s.signature)))
    ensures AllowedSubtree(Obj(EncodeConstraints(s.constraints)))
  {
  }

  lemma SnapshotEntriesAllowed(s: Snapshot, k: string)
    requires s.inputRequirements.walletTypes != [] && s.references != []
    requires k in EncodeSnapshot(s)
    ensures AllowedSubtree(EncodeSnapshot(s)[k])
  {
    hide EncodeInput, EncodeAccount, EncodeChains, EncodeReferences, EncodeSignature, EncodeConstraints, OmitEmpty,
         Strs;
    FlatPartsAllowed(s);
    InputAllowed(s.inputRequirements);
    AccountAllowed(s.accountModel);
    ListsAllowed(s);
    AllowedStrings(s.acceptedFindings);
    AllowedOmitEmpty("accepted_risk_notes", s.acceptedRiskNotes);
  }

  /**
   An encoded snapshot holds no number and no null exactly when it names a wallet type and a
   reference: nil slices become null, chain ids become strings.
   */
  lemma SnapshotAllowed(s: Snapshot)
    ensures AllowedSubtree(Obj(EncodeSnapshot(s))) <==> s.inputRequirements.walletTypes != [] && s.references != []
  {
    hide EncodeInput, EncodeSignature, EncodeAccount, EncodeConstraints, EncodeChains, EncodeReferences, Strs;
    var m := EncodeSnapshot(s);
    SnapshotKeyLengths();
    InputAllowed(s.inputRequirements);
    assert m["input_requirements"] == Obj(EncodeInput(s.inputRequirements));
    assert m["references"].Null? <==> s.references == [];
    if s.inputRequirements.walletTypes != [] && s.references != [] {
      forall k | k in m ensures AllowedSubtree(m[k]) {
        SnapshotEntriesAllowed(s, k);
      }
    } else {
      assert !AllowedSubtree(m["input_requirements"]) || !AllowedSubtree(m["references"]);
    }
  }

  lemma PayloadClosed(p: Payload)
    ensures ClosedKeys(EncodePayload(p))
  {
    hide EncodeUser, EncodeRef, EncodeSnapshot, Strs;
  }

  /** The digest accepts an encoded payload exactly when its snapshot may be hashed. */
  lemma PayloadDigestible(p: Payload)
    ensures Digestible(Obj(EncodePayload(p))) <==>
            p.snapshot.inputRequirements.walletTypes != [] && p.snapshot.references != []
  {
    hide EncodeSnapshot, EncodeUser, EncodeRef, Strs, ClosedKeys;
    var m := EncodePayload(p);
    PayloadKeyLengths();
    PayloadClosed(p);
    SnapshotAllowed(p.snapshot);
    AllowedStrings(p.acceptedFindings);
    assert m[FINDINGS_FIELD] == Arr(Strs(p.acceptedFindings));
    assert m["accepted_provider_snapshot"] == Obj(EncodeSnapshot(p.snapshot));
    if AllowedSubtree(Obj(EncodeSnapshot(p.snapshot))) {
      forall k | k in m ensures AllowedSubtree(m[k]) {
        PayloadEntriesAllowed(p, k);
      }
      assert AllowedSubtree(Obj(m));
    }
  }

  lemma PayloadEntriesAllowed(p: Payload, k: string)
    requires AllowedSubtree(Obj(EncodeSnapshot(p.snapshot)))
    requires k in EncodePayload(p)
    ensures AllowedSubtree(EncodePayload(p)[k])
  {
    hide EncodeSnapshot, EncodeUser, EncodeRef, Strs;
    FlatAllowed(p);
    AllowedStrings(p.acceptedFindings);
  }

  lemma FlatAllowed(p: Payload)
    ensures AllowedSubtree(Obj(EncodeUser(p.userConstraints)))
    ensures AllowedSubtree(Obj(EncodeRef(p.ref)))
  {
  }

  /** Canonicalizing an encoded payload only normalizes its findings. */
  lemma CanonicalPayload(p: Payload)
    requires Digestible(Obj(EncodePayload(p)))
    ensures Canonical(EncodePayload(p)) == EncodePayload(p.(acceptedFindings := NormalizeFindings(p.acceptedFindings)))
  {
    hide EncodeUser, EncodeRef, EncodeSnapshot, NormalizeFindings, AllowedSubtree, ClosedKeys, Strs;
    var m := EncodePayload(p);
    var n := EncodePayload(p.(acceptedFindings := NormalizeFindings(p.acceptedFindings)));
    PayloadKeyLengths();
    AllowedStrings(p.acceptedFindings);
    assert m[FINDINGS_FIELD] == Arr(Strs(p.acceptedFindings));
    assert n == m[FINDINGS_FIELD := Arr(Strs(NormalizeFindings(p.acceptedFindings)))];
  }
}
