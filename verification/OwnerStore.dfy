/**
 internal/persistence/owner_scoped_store_dev.go and wallet_target_dev.go: persisted policies,
 scoped to their owner. Every method holds the store's lock throughout, so each is one step.
 */
module OwnerStore {
  import opened Wrappers
  import opened Text
  import opened Sorting
  import opened Json
  import opened WalletTarget

  datatype Owner = Owner(userID: string, tenantID: string)

  datatype Principal = Principal(userID: string, subject: string, tenantID: string) {
    predicate Authenticated() {
      Trim(userID) != "" && Trim(subject) != ""
    }

    function AsOwner(): (r: Owner) {
      Owner(userID, tenantID)
    }
  }

  datatype PolicyRecord = PolicyRecord(
    id: string, owner: Owner, scanID: string, payload: Object, payloadSHA256: string,
    wallet: string, chainID: int, createdAt: int, updatedAt: int)

  type Store = map<string, PolicyRecord>

  /** `stampedAt` is the printed form of `verifiedAt`. */
  datatype CreateInput = CreateInput(
    scanID: string, wallet: string, chainID: Int64, payload: Object, payloadSHA256: string,
    verifiedAt: int, stampedAt: string)

  datatype StoreError =
    | PrincipalRequired | ScanIDRequired | DigestRequired | ChainIDRequired | WalletInvalid
    | AlreadyExists | NotFound | Forbidden

  // ------------------------------------------------------------------ stamps

  const STAMPS: seq<string> := [
    "scan_id", "wallet_address", "chain_id", "ownership_status", "wallet_control_method",
    "wallet_control_verified_at", "persisted_at", "signed_message", "signature", "payload_sha256"
  ]

  function Stamped(payload: Object, scanID: string, wallet: string, chainID: int, at: string): (r: Object) {
    payload["scan_id" := Str(scanID)]["wallet_address" := Str(wallet)]["chain_id" := GoInt(chainID)]
           ["ownership_status" := Str("verified")]["wallet_control_method" := Str("eoa_signature")]
           ["wallet_control_verified_at" := Str(at)]["persisted_at" := Str(at)]
    - {"signed_message", "signature", "payload_sha256"}
  }

  /** Stamping and deleting touch only the stamp keys. */
  lemma StampedKeepsOthers(payload: Object, scanID: string, wallet: string, chainID: int, at: string, k: string)
    requires k !in STAMPS
    ensures k in Stamped(payload, scanID, wallet, chainID, at) <==> k in payload
    ensures k in payload ==> Stamped(payload, scanID, wallet, chainID, at)[k] == payload[k]
  {
  }

  lemma StampKeyLengths()
    ensures |"scan_id"| == 7 && |"wallet_address"| == 14 && |"chain_id"| == 8 && |"ownership_status"| == 16
    ensures |"wallet_control_method"| == 21 && |"wallet_control_verified_at"| == 26 && |"persisted_at"| == 12
    ensures |"signed_message"| == 14 && |"signature"| == 9 && |"payload_sha256"| == 14
    ensures "wallet_address" != "signed_message" && "wallet_address" != "payload_sha256"
  {
    assert "wallet_address"[0] == 'w' && "signed_message"[0] == 's' && "payload_sha256"[0] == 'p';
  }

  /** What a stored payload carries besides the client's fields, and what it must not carry. */
  lemma StampedReads(payload: Object, scanID: string, wallet: string, chainID: int, at: string)
    ensures var r := Stamped(payload, scanID, wallet, chainID, at);
            && "scan_id" in r && r["scan_id"] == Str(scanID)
            && "wallet_address" in r && r["wallet_address"] == Str(wallet)
            && "chain_id" in r && r["chain_id"] == GoInt(chainID)
            && "ownership_status" in r && r["ownership_status"] == Str("verified")
            && "wallet_control_method" in r && r["wallet_control_method"] == Str("eoa_signature")
            && "wallet_control_verified_at" in r && r["wallet_control_verified_at"] == Str(at)
            && "persisted_at" in r && r["persisted_at"] == Str(at)
            && "signed_message" !in r && "signature" !in r && "payload_sha256" !in r
  {
    StampKeyLengths();
  }

  // ---------------------------------------------------------- wallet lookups

  /** walletFromPolicyPayload: what the insert check reads. */
  function WalletFromPayload(payload: Object): (r: string) {
    if "wallet_address" in payload && payload["wallet_address"].Str? then
      var n := NormalizeWallet(payload["wallet_address"].s);
      if n.Some? then n.value else ""
    else ""
  }

  function Or(a: string, b: string): (r: string) {
    if a != "" then a else b
  }

  function ObjectAt(m: Object, k: string): (r: Object) {
    if k in m && m[k].Obj? then m[k].fields else map[]
  }

  function ResultTarget(m: Object): (r: string) {
    StringField(ObjectAt(m, "result"), "target_address")
  }

  function PolicyContextTarget(pc: Object): (r: string) {
    Or(StringField(pc, "target_address"), Or(StringField(pc, "wallet_address"),
      Or(StringField(pc, "walletAddress"), ResultTarget(pc))))
  }

  function ScanContextTarget(ctx: Object): (r: string) {
    Or(StringField(ctx, "target_address"), Or(StringField(ctx, "wallet_address"), ResultTarget(ctx)))
  }

  /** Everything the counter prefers over the stamped wallet_address. */
  function RivalTarget(payload: Object): (r: string) {
    Or(PolicyContextTarget(ObjectAt(payload, "policy_context")),
      Or(ScanContextTarget(ObjectAt(payload, "selected_wallet_policy_context")),
        StringField(payload, "target_address")))
  }

  function ExtractTarget(payload: Object): (r: string) {
    Or(RivalTarget(payload), Or(StringField(payload, "wallet_address"), StringField(payload, "walletAddress")))
  }

  /** walletTargetFromPayload: what the counter reads. */
  function TargetFromPayload(payload: Object): (r: string) {
    var n := NormalizeWallet(ExtractTarget(payload));
    if n.Some? then n.value else ""
  }

  /** The trimmed text at the end of a path of keys, blank when the path breaks off. */
  function PathText(m: Object, path: seq<string>): (r: string)
    decreases |path|
  {
    if path == [] || path[0] !in m then ""
    else if |path| == 1 then (if m[path[0]].Str? then Trim(m[path[0]].s) else "")
    else if m[path[0]].Obj? then PathText(m[path[0]].fields, path[1..])
    else ""
  }

  function FirstNonBlank(texts: seq<string>): (r: string) {
    if texts == [] then "" else if texts[0] != "" then texts[0] else FirstNonBlank(texts[1..])
  }

  /** Where the counter looks for the wallet of a payload, in this order. */
  function Places(): (r: seq<seq<string>>) {
    [ ["policy_context", "target_address"], ["policy_context", "wallet_address"], ["policy_context", "walletAddress"],
      ["policy_context", "result", "target_address"],
      ["selected_wallet_policy_context", "target_address"], ["selected_wallet_policy_context", "wallet_address"],
      ["selected_wallet_policy_context", "result", "target_address"],
      ["target_address"], ["wallet_address"], ["walletAddress"] ]
  }

  function TextsAt(payload: Object, places: seq<seq<string>>): (r: seq<string>) {
    if places == [] then [] else [PathText(payload, places[0])] + TextsAt(payload, places[1..])
  }

  lemma PathOne(m: Object, a: string)
    ensures PathText(m, [a]) == StringField(m, a)
  {
    hide Trim;
  }

  lemma PathTwo(m: Object, a: string, b: string)
    ensures PathText(m, [a, b]) == StringField(ObjectAt(m, a), b)
  {
    hide Trim;
    assert [a, b][1..] == [b];
    if a in m && m[a].Obj? {
      PathOne(m[a].fields, b);
    }
  }

  lemma PathThree(m: Object, a: string, b: string, c: string)
    ensures PathText(m, [a, b, c]) == StringField(ObjectAt(ObjectAt(m, a), b), c)
  {
    hide Trim;
    assert [a, b, c][1..] == [b, c];
    if a in m && m[a].Obj? {
      PathTwo(m[a].fields, b, c);
    }
  }

  lemma FirstNonBlankCons(a: string, rest: seq<string>)
    ensures FirstNonBlank([a] + rest) == Or(a, FirstNonBlank(rest))
  {
    assert ([a] + rest)[1..] == rest;
  }

  /** The counter takes the first of these places that holds a text. */
  lemma ExtractTargetReads(payload: Object)
    ensures ExtractTarget(payload) == FirstNonBlank(TextsAt(payload, Places()))
  {
    hide PathText, StringField, ObjectAt, FirstNonBlank;
    var pc, sc := "policy_context", "selected_wallet_policy_context";
    PathTwo(payload, pc, "target_address");
    PathTwo(payload, pc, "wallet_address");
    PathTwo(payload, pc, "walletAddress");
    PathThree(payload, pc, "result", "target_address");
    PathTwo(payload, sc, "target_address");
    PathTwo(payload, sc, "wallet_address");
    PathThree(payload, sc, "result", "target_address");
    PathOne(payload, "target_address");
    PathOne(payload, "wallet_address");
    PathOne(payload, "walletAddress");
    FirstOfTen(payload);
  }

  lemma TextsNext(payload: Object, places: seq<seq<string>>)
    requires places != []
    ensures FirstNonBlank(TextsAt(payload, places))
            == Or(PathText(payload, places[0]), FirstNonBlank(TextsAt(payload, places[1..])))
  {
    hide PathText, FirstNonBlank;
    FirstNonBlankCons(PathText(payload, places[0]), TextsAt(payload, places[1..]));
  }

  lemma FirstOfTen(payload: Object)
    ensures FirstNonBlank(TextsAt(payload, Places())) ==
            var t := Places();
            Or(PathText(payload, t[0]),
               Or(PathText(payload, t[1]), Or(PathText(payload, t[2]), Or(PathText(payload, t[3]),
            Or(PathText(payload, t[4]),
               Or(PathText(payload, t[5]), Or(PathText(payload, t[6]), Or(PathText(payload, t[7]),
            Or(PathText(payload, t[8]), PathText(payload, t[9]))))))))))
  {
    hide PathText, FirstNonBlank, TextsAt, Or;
    var t := Places();
    TextsFrom(payload, t, 0);
    TextsFrom(payload, t, 1);
    TextsFrom(payload, t, 2);
    TextsFrom(payload, t, 3);
    TextsFrom(payload, t, 4);
    TextsFrom(payload, t, 5);
    TextsFrom(payload, t, 6);
    TextsFrom(payload, t, 7);
    TextsFrom(payload, t, 8);
    TextsFrom(payload, t, 9);
    assert t[0..] == t;
    NoTexts(payload, t[10..], PathText(payload, t[9]));
  }

  lemma TextsFrom(payload: Object, places: seq<seq<string>>, i: nat)
    requires i < |places|
    ensures FirstNonBlank(TextsAt(payload, places[i..]))
            == Or(PathText(payload, places[i]), FirstNonBlank(TextsAt(payload, places[i + 1..])))
  {
    hide PathText, FirstNonBlank, TextsAt;
    TextsNext(payload, places[i..]);
    assert places[i..][1..] == places[i + 1..];
  }

  lemma NoTexts(payload: Object, places: seq<seq<string>>, a: string)
    requires places == []
    ensures Or(a, FirstNonBlank(TextsAt(payload, places))) == a
  {
  }

  /** Insert check and counter keep a wallet only if it is an address, in canonical form. */
  lemma WalletLookupsRead(payload: Object)
    ensures WalletFromPayload(payload) ==
            if "wallet_address" in payload && payload["wallet_address"].Str?
            then CanonicalWallet(payload["wallet_address"].s) else ""
    ensures TargetFromPayload(payload) == CanonicalWallet(FirstNonBlank(TextsAt(payload, Places())))
  {
    hide NormalizeWallet, ExtractTarget, TextsAt, FirstNonBlank;
    ExtractTargetReads(payload);
  }

  lemma RivalKeysNotStamps()
    ensures forall k :: k in ["policy_context", "selected_wallet_policy_context", "target_address"] ==> k !in STAMPS
  {
    StampKeyLengths();
    assert |"policy_context"| == 14 && |"selected_wallet_policy_context"| == 30 && |"target_address"| == 14;
    assert "policy_context"[1] == 'o' && "target_address"[0] == 't' && "payload_sha256"[1] == 'a';
    assert "wallet_address"[0] == 'w' && "signed_message"[0] == 's' && "policy_context"[0] == 'p';
  }

  lemma StampedRival(payload: Object, scanID: string, wallet: string, chainID: int, at: string)
    ensures RivalTarget(Stamped(payload, scanID, wallet, chainID, at)) == RivalTarget(payload)
  {
    hide Trim, PolicyContextTarget, ScanContextTarget, Stamped;
    RivalKeysNotStamps();
    var keys := ["policy_context", "selected_wallet_policy_context", "target_address"];
    assert keys[0] in keys && keys[1] in keys && keys[2] in keys;
    StampedKeepsOthers(payload, scanID, wallet, chainID, at, "policy_context");
    StampedKeepsOthers(payload, scanID, wallet, chainID, at, "selected_wallet_policy_context");
    StampedKeepsOthers(payload, scanID, wallet, chainID, at, "target_address");
  }

  /** The counter sees the stamped wallet exactly when nothing in the payload outranks it with another wallet. */
  lemma CounterSeesWallet(payload: Object, scanID: string, wallet: string, chainID: int, at: string)
    requires IsNormalWallet(wallet)
    ensures var r := Stamped(payload, scanID, wallet, chainID, at);
            && WalletFromPayload(r) == wallet
            && (TargetFromPayload(r) == wallet <==>
                  RivalTarget(payload) == "" || NormalizeWallet(RivalTarget(payload)) == Some(wallet))
  {
    hide Trim, NormalizeWallet, Stamped, RivalTarget;
    StampedReads(payload, scanID, wallet, chainID, at);
    StampedRival(payload, scanID, wallet, chainID, at);
    NormalWalletFixed(wallet);
  }

  /** Without that condition counter and insert check part ways. */
  lemma CounterMissesRival(scanID: string, wallet: string, at: string)
    requires IsNormalWallet(wallet)
    ensures var payload: Object := map["target_address" := Str("elsewhere")];
            TargetFromPayload(Stamped(payload, scanID, wallet, 1, at)) != wallet
  {
    hide NormalizeWallet, Stamped, RivalTarget, TargetFromPayload, WalletFromPayload;
    var payload: Object := map["target_address" := Str("elsewhere")];
    RivalElsewhere();
    NotAnAddress();
    CounterSeesWallet(payload, scanID, wallet, 1, at);
  }

  lemma RivalElsewhere()
    ensures RivalTarget(map["target_address" := Str("elsewhere")]) == "elsewhere" && "elsewhere" != ""
  {
    hide Trim, PolicyContextTarget, ScanContextTarget;
    var payload: Object := map["target_address" := Str("elsewhere")];
    assert |"policy_context"| == 14 && |"selected_wallet_policy_context"| == 30 && |"target_address"| == 14;
    assert "policy_context"[0] == 'p' && "target_address"[0] == 't';
    assert "policy_context" !in payload && "selected_wallet_policy_context" !in payload;
    assert Trimmed("elsewhere") && |"elsewhere"| == 9;
    EmptyContexts();
  }

  lemma EmptyContexts()
    ensures PolicyContextTarget(map[]) == "" && ScanContextTarget(map[]) == ""
  {
  }

  lemma NotAnAddress()
    ensures NormalizeWallet("elsewhere").None?
  {
    hide Trim;
    assert Trimmed("elsewhere") && |"elsewhere"| == 9 && |HexPart("elsewhere")| <= 9;
  }

  // --------------------------------------------------------------- operations

  /** The owner already holds a policy for this wallet. */
  predicate Taken(store: Store, owner: Owner, wallet: string) {
    exists id :: id in store && store[id].owner == owner && Occupies(store[id], wallet)
  }

  predicate Occupies(rec: PolicyRecord, wallet: string) {
    SameWallet(rec.wallet, wallet) || SameWallet(WalletFromPayload(rec.payload), wallet)
  }

  function NewRecord(principal: Principal, input: CreateInput, wallet: string, id: string): (r: PolicyRecord) {
    PolicyRecord(id, principal.AsOwner(), Trim(input.scanID),
      Stamped(input.payload, Trim(input.scanID), wallet, input.chainID, input.stampedAt),
      Trim(input.payloadSHA256), wallet, input.chainID, input.verifiedAt, input.verifiedAt)
  }

  /** The checks CreatePolicy makes before it looks at the stored policies. */
  function CreateInputFailure(principal: Principal, input: CreateInput): (r: Option<StoreError>) {
    if !principal.Authenticated() then Some(PrincipalRequired)
    else if Trim(input.scanID) == "" then Some(ScanIDRequired)
    else if Trim(input.payloadSHA256) == "" then Some(DigestRequired)
    else if input.chainID < 1 then Some(ChainIDRequired)
    else if NormalizeWallet(input.wallet).None? then Some(WalletInvalid)
    else None
  }

  function CreateFailure(store: Store, principal: Principal, input: CreateInput): (r: Option<StoreError>) {
    if CreateInputFailure(principal, input).Some? then CreateInputFailure(principal, input)
    else if Taken(store, principal.AsOwner(), CanonicalWallet(input.wallet)) then Some(AlreadyExists)
    else None
  }

  /** `id` is the random identifier drawn for the new record. */
  function Created(store: Store, principal: Principal, input: CreateInput, id: string): (r: Store) {
    store[id := NewRecord(principal, input, CanonicalWallet(input.wallet), id)]
  }

  /** A saved record has no wallet, chain or digest; an existing one keeps its creation time. */
  function SavedRecord(store: Store, owner: Owner, id: string, scanID: string, payload: Object,
                       now: int): (r: PolicyRecord) {
    PolicyRecord(id, owner, scanID, payload, "", "", 0, if id in store then store[id].createdAt else now, now)
  }

  function DeleteFailure(store: Store, principal: Principal, id: string): (r: Option<StoreError>) {
    if !principal.Authenticated() then Some(PrincipalRequired)
    else if id !in store then Some(NotFound)
    else if store[id].owner != principal.AsOwner() then Some(Forbidden)
    else None
  }

  /** The policies of one owner. */
  function RecordsOf(store: Store, owner: Owner): (r: Store) {
    map id | id in store && store[id].owner == owner :: store[id]
  }

  predicate Matches(rec: PolicyRecord, owner: Owner, needle: string) {
    rec.owner == owner && EqualFold(Trim(rec.scanID), needle)
  }

  /** Newest first, then by id. */
  predicate Newer(a: PolicyRecord, b: PolicyRecord) {
    a.updatedAt > b.updatedAt || (a.updatedAt == b.updatedAt && Less(a.id, b.id))
  }

  ghost predicate Listing(store: Store, owner: Owner, needle: string, out: seq<PolicyRecord>) {
    && StrictlyAscending(Newer, out)
    && (forall r :: r in out <==>
          exists id :: id in store && Matches(store[id], owner, needle) && r == store[id].(id := id))
  }

  /** The policies of an owner whose payload names the wallet. */
  function ActiveFor(store: Store, owner: Owner, wallet: string): (r: set<string>) {
    set id | id in store && store[id].owner == owner && TargetFromPayload(store[id].payload) == wallet
  }

  class OwnerScopedStore {
    var policies: Store

    constructor ()
      ensures policies == map[]
    {
      policies := map[];
    }

    method CreatePolicy(principal: Principal, input: CreateInput, id: string) returns (err: Option<StoreError>)
      modifies this
      ensures err == CreateFailure(old(policies), principal, input)
      ensures policies == if err.None? then Created(old(policies), principal, input, id) else old(policies)
    {
      hide Trim, NormalizeWallet, Stamped, Occupies;
      err := CreateInputFailure(principal, input);
      if err.Some? {
        return;
      }
      var wallet := CanonicalWallet(input.wallet);
      var todo := policies.Keys;
      while todo != {}
        invariant todo <= policies.Keys
        invariant forall k :: k in policies && k !in todo ==>
                    !(policies[k].owner == principal.AsOwner() && Occupies(policies[k], wallet))
        decreases |todo|
      {
        var k :| k in todo;
        if policies[k].owner == principal.AsOwner() && Occupies(policies[k], wallet) {
          return Some(AlreadyExists);
        }
        todo := todo - {k};
      }
      policies := policies[id := NewRecord(principal, input, wallet, id)];
      return None;
    }

    /** Not called by any handler, and not subject to W1. */
    method SavePolicy(principal: Principal, id: string, scanID: string, payload: Object, now: int)
      returns (err: Option<StoreError>)
      modifies this
      ensures err == (if !principal.Authenticated() then Some(PrincipalRequired)
                      else if id in old(policies) && old(policies)[id].owner != principal.AsOwner() then Some(Forbidden)
                      else None)
      ensures policies == if err.Some? then old(policies)
                          else old(policies)[id :=
                            SavedRecord(old(policies), principal.AsOwner(), id, scanID, payload, now)]
      ensures forall owner: Owner :: owner != principal.AsOwner() ==>
                RecordsOf(policies, owner) == RecordsOf(old(policies), owner)
    {
      hide Trim, RecordsOf;
      if !principal.Authenticated() {
        return Some(PrincipalRequired);
      }
      if id in policies && policies[id].owner != principal.AsOwner() {
        return Some(Forbidden);
      }
      var createdAt := now;
      if id in policies {
        createdAt := policies[id].createdAt;
      }
      var rec := PolicyRecord(id, principal.AsOwner(), scanID, payload, "", "", 0, createdAt, now);
      OthersUntouched(policies, id, rec);
      policies := policies[id := rec];
      return None;
    }

    method DeletePolicy(principal: Principal, id: string) returns (err: Option<StoreError>)
      modifies this
      ensures err == DeleteFailure(old(policies), principal, id)
      ensures policies == if err.None? then old(policies) - {id} else old(policies)
    {
      err := DeleteFailure(policies, principal, id);
      if err.None? {
        policies := policies - {id};
      }
    }

    method GetPolicy(principal: Principal, id: string) returns (r: Result<PolicyRecord, StoreError>)
      ensures r.Ok? <==> principal.Authenticated() && id in RecordsOf(policies, principal.AsOwner())
      ensures r.Ok? ==> r.value == policies[id]
      ensures r.Err? && principal.Authenticated() ==> r.error == if id in policies then Forbidden else NotFound
    {
      hide Trim;
      if !principal.Authenticated() {
        return Err(PrincipalRequired);
      }
      if id !in policies {
        return Err(NotFound);
      }
      if policies[id].owner != principal.AsOwner() {
        return Err(Forbidden);
      }
      return Ok(policies[id]);
    }

    method ListPersistedPoliciesForScan(principal: Principal, scanID: string)
      returns (r: Result<seq<PolicyRecord>, StoreError>)
      ensures r.Err? <==> !principal.Authenticated() || Trim(scanID) == ""
      ensures r.Ok? ==> Listing(policies, principal.AsOwner(), Trim(scanID), r.value)
    {
      hide Trim;
      if !principal.Authenticated() {
        return Err(PrincipalRequired);
      }
      var needle := Trim(scanID);
      if needle == "" {
        return Err(ScanIDRequired);
      }
      var out := CollectMatching(policies, principal.AsOwner(), needle);
      NewerOrder();
      var sorted := SortSlice(Newer, out);
      SortedListing(policies, principal.AsOwner(), needle, out, sorted);
      return Ok(sorted);
    }

    /** Counts the caller's policies for a wallet; the count is zero or one in every W1 state. */
    method CountActiveWalletCPMContext(principal: Principal, address: string) returns (r: Result<nat, StoreError>)
      ensures r.Ok? <==> principal.Authenticated() && NormalizeWallet(address).Some?
      ensures r.Ok? ==> r.value == |ActiveFor(policies, principal.AsOwner(), NormalizeWallet(address).value)|
    {
      hide Trim, NormalizeWallet, TargetFromPayload;
      if !principal.Authenticated() {
        return Err(PrincipalRequired);
      }
      var needle := NormalizeWallet(address);
      if needle.None? {
        return Err(WalletInvalid);
      }
      var todo := policies.Keys;
      var count := 0;
      ghost var counted: set<string> := {};
      while todo != {}
        invariant todo <= policies.Keys
        invariant count == |counted|
        invariant forall k :: k in counted <==>
                    k in ActiveFor(policies, principal.AsOwner(), needle.value) && k !in todo
        decreases |todo|
      {
        var k :| k in todo;
        if policies[k].owner == principal.AsOwner() && TargetFromPayload(policies[k].payload) == needle.value {
          counted := counted + {k};
          count := count + 1;
        }
        todo := todo - {k};
      }
      assert counted == ActiveFor(policies, principal.AsOwner(), needle.value);
      return Ok(count);
    }
  }

  /** Writing a record over none, or over one of the same owner, changes nobody else's policies. */
  lemma OthersUntouched(store: Store, id: string, rec: PolicyRecord)
    requires id in store ==> store[id].owner == rec.owner
    ensures forall owner: Owner :: owner != rec.owner ==> RecordsOf(store[id := rec], owner) == RecordsOf(store, owner)
  {
    forall owner: Owner | owner != rec.owner ensures RecordsOf(store[id := rec], owner) == RecordsOf(store, owner) {
      assert RecordsOf(store[id := rec], owner).Keys == RecordsOf(store, owner).Keys;
    }
  }

  // ------------------------------------------------------------------ listing

  method CollectMatching(store: Store, owner: Owner, needle: string) returns (out: seq<PolicyRecord>)
    ensures forall i, j :: 0 <= i < j < |out| ==> out[i].id != out[j].id
    ensures forall r :: r in out <==>
              exists id :: id in store && Matches(store[id], owner, needle) && r == store[id].(id := id)
  {
    hide Matches;
    out := [];
    var todo := store.Keys;
    while todo != {}
      invariant todo <= store.Keys
      invariant forall i :: 0 <= i < |out| ==> out[i].id in store && out[i].id !in todo
      invariant forall i, j :: 0 <= i < j < |out| ==> out[i].id != out[j].id
      invariant forall r :: r in out <==>
                  exists id :: id in store && id !in todo && Matches(store[id], owner, needle)
                    && r == store[id].(id := id)
      decreases |todo|
    {
      var k :| k in todo;
      ghost var before := out;
      if Matches(store[k], owner, needle) {
        out := out + [store[k].(id := k)];
      }
      CollectStep(store, owner, needle, before, out, todo, k);
      todo := todo - {k};
    }
  }

  lemma CollectStep(store: Store, owner: Owner, needle: string, before: seq<PolicyRecord>, after: seq<PolicyRecord>,
                    todo: set<string>, k: string)
    requires todo <= store.Keys && k in todo
    requires forall r :: r in before <==>
               exists id :: id in store && id !in todo && Matches(store[id], owner, needle) && r == store[id].(id := id)
    requires after == if Matches(store[k], owner, needle) then before + [store[k].(id := k)] else before
    ensures forall r :: r in after <==>
              exists id :: id in store && id !in todo - {k} && Matches(store[id], owner, needle)
                && r == store[id].(id := id)
  {
    hide Matches;
    forall r ensures r in after <==>
              exists id :: id in store && id !in todo - {k} && Matches(store[id], owner, needle)
                && r == store[id].(id := id)
    {
      if exists id :: id in store && id !in todo - {k} && Matches(store[id], owner, needle) &&
           r == store[id].(id := id) {
        var id :| id in store && id !in todo - {k} && Matches(store[id], owner, needle) && r == store[id].(id := id);
        assert id == k || id !in todo;
      }
      if r in after && r !in before {
        assert k in store && k !in todo - {k} && Matches(store[k], owner, needle) && r == store[k].(id := k);
      }
    }
  }

  lemma NewerOrder()
    ensures StrictWeakOrder(Newer)
  {
    LessIsOrder();
    hide Less;
    assert forall a: PolicyRecord, b, c :: Newer(a, b) && Newer(b, c) ==> Newer(a, c);
  }

  lemma NewerAsymmetric(a: PolicyRecord, b: PolicyRecord)
    ensures !(Newer(a, b) && Newer(b, a))
    ensures a.id != b.id ==> Newer(a, b) || Newer(b, a)
  {
    hide Less;
    LessTrichotomy(a.id, b.id);
  }

  lemma SortedListing(store: Store, owner: Owner, needle: string, out: seq<PolicyRecord>, sorted: seq<PolicyRecord>)
    requires SortedVersion(Newer, out, sorted)
    requires forall i, j :: 0 <= i < j < |out| ==> out[i].id != out[j].id
    requires forall r :: r in out <==>
               exists id :: id in store && Matches(store[id], owner, needle) && r == store[id].(id := id)
    ensures Listing(store, owner, needle, sorted)
  {
    hide Newer, Matches;
    SameElements(out, sorted);
    forall a, b | a in out && b in out && a != b ensures Newer(a, b) || Newer(b, a) {
      var i :| 0 <= i < |out| && out[i] == a;
      var j :| 0 <= j < |out| && out[j] == b;
      assert i < j || j < i;
      NewerAsymmetric(a, b);
    }
    NoTiesStrict(Newer, out, sorted);
  }

  /** On the records themselves: newest first, then by id; each is the owner's, of that scan, under its own id. */
  lemma ListingReads(store: Store, owner: Owner, needle: string, out: seq<PolicyRecord>)
    requires Listing(store, owner, needle, out)
    ensures forall i, j :: 0 <= i < j < |out| ==>
              || out[i].updatedAt > out[j].updatedAt
              || (out[i].updatedAt == out[j].updatedAt && Precedes(out[i].id, out[j].id))
    ensures forall r :: r in out <==>
              && r.id in store && r == store[r.id].(id := r.id)
              && r.owner == owner && Lower(Trim(r.scanID)) == Lower(needle)
  {
    hide Less, Precedes, Trim, Lower;
    forall i, j | 0 <= i < j < |out|
      ensures out[i].updatedAt > out[j].updatedAt
              || (out[i].updatedAt == out[j].updatedAt && Precedes(out[i].id, out[j].id))
    {
      assert Newer(out[i], out[j]);
      LessExact(out[i].id, out[j].id);
    }
    forall r: PolicyRecord | r.id in store && r == store[r.id].(id := r.id) && r.owner == owner
                             && Lower(Trim(r.scanID)) == Lower(needle)
      ensures r in out
    {
      assert Matches(store[r.id], owner, needle);
    }
  }

  /** A record holds a canonical wallet exactly when its own field or its payload names that wallet. */
  lemma OccupiesReads(rec: PolicyRecord, w: string)
    requires IsNormalWallet(w)
    ensures Occupies(rec, w) <==> NormalizeWallet(rec.wallet) == Some(w) || WalletFromPayload(rec.payload) == w
  {
    hide SameWallet, WalletFromPayload, NormalizeWallet, IsNormalWallet;
    SameWalletAsNormal(rec.wallet, w);
    SameWalletAsNormal(WalletFromPayload(rec.payload), w);
    WalletFromPayloadNormal(rec.payload, w);
  }

  lemma WalletFromPayloadNormal(payload: Object, w: string)
    requires IsNormalWallet(w)
    ensures NormalizeWallet(WalletFromPayload(payload)) == Some(w) <==> WalletFromPayload(payload) == w
  {
    hide NormalizeWallet, Trim;
    NormalWalletFixed(w);
    var v := WalletFromPayload(payload);
    if v == "" {
      BlankIsNoAddress();
    } else {
      NormalWalletFixed(v);
    }
  }

  lemma BlankIsNoAddress()
    ensures NormalizeWallet("").None?
  {
    assert Trimmed("") && |HexPart("")| == 0;
  }

  /** Every field of a saved record, by name. */
  lemma SavedRecordReads(store: Store, owner: Owner, id: string, scanID: string, payload: Object, now: int)
    ensures var r := SavedRecord(store, owner, id, scanID, payload, now);
            && r.id == id && r.owner == owner && r.scanID == scanID && r.payload == payload
            && r.payloadSHA256 == "" && r.wallet == "" && r.chainID == 0 && r.updatedAt == now
            && (id in store ==> r.createdAt == store[id].createdAt) && (id !in store ==> r.createdAt == now)
  {
  }

  /** Which refusal an insert gets: that of the first check that fails, the wallet's being taken last. */
  lemma CreateRefusals(store: Store, principal: Principal, input: CreateInput)
    ensures var r := CreateFailure(store, principal, input);
            var known := Trim(principal.userID) != "" && Trim(principal.subject) != "";
            var scan := known && Trim(input.scanID) != "";
            var digest := scan && Trim(input.payloadSHA256) != "";
            var chain := digest && input.chainID >= 1;
            var wallet := chain && NormalizeWallet(input.wallet).Some?;
            && (!known ==> r == Some(PrincipalRequired))
            && (known && !scan ==> r == Some(ScanIDRequired))
            && (scan && !digest ==> r == Some(DigestRequired))
            && (digest && !chain ==> r == Some(ChainIDRequired))
            && (chain && !wallet ==> r == Some(WalletInvalid))
            && (wallet ==>
                  var taken := Taken(store, Owner(principal.userID, principal.tenantID),
                                     NormalizeWallet(input.wallet).value);
                  r == if taken then Some(AlreadyExists) else None)
  {
    hide Trim, NormalizeWallet, Taken;
  }

  /** Which refusal a delete gets. */
  lemma DeleteRefusals(store: Store, principal: Principal, id: string)
    ensures var r := DeleteFailure(store, principal, id);
            var known := Trim(principal.userID) != "" && Trim(principal.subject) != "";
            && (!known ==> r == Some(PrincipalRequired))
            && (known && id !in store ==> r == Some(NotFound))
            && (known && id in store && store[id].owner != Owner(principal.userID, principal.tenantID)
                ==> r == Some(Forbidden))
            && (known && id in store && store[id].owner == Owner(principal.userID, principal.tenantID) ==> r == None)
  {
    hide Trim;
  }

  /** Every field of a new record, by name. */
  lemma NewRecordReads(principal: Principal, input: CreateInput, wallet: string, id: string)
    ensures var r := NewRecord(principal, input, wallet, id);
            && r.id == id && r.owner.userID == principal.userID && r.owner.tenantID == principal.tenantID
            && r.scanID == Trim(input.scanID) && r.payloadSHA256 == Trim(input.payloadSHA256)
            && r.wallet == wallet && r.chainID == input.chainID
            && r.createdAt == input.verifiedAt && r.updatedAt == input.verifiedAt
            && r.payload == Stamped(input.payload, Trim(input.scanID), wallet, input.chainID, input.stampedAt)
  {
    hide Trim, Stamped;
  }

  /** Stores that agree on an owner's policies give that owner the same list, whatever the map order. */
  lemma ListingDependsOnOwner(s1: Store, s2: Store, owner: Owner, needle: string, a: seq<PolicyRecord>,
                              b: seq<PolicyRecord>)
    requires RecordsOf(s1, owner) == RecordsOf(s2, owner)
    requires Listing(s1, owner, needle, a) && Listing(s2, owner, needle, b)
    ensures a == b
  {
    hide Newer, Trim, EqualFold;
    assert forall id :: id in s1 && Matches(s1[id], owner, needle) ==> id in RecordsOf(s1, owner);
    assert forall id :: id in s2 && Matches(s2[id], owner, needle) ==> id in RecordsOf(s2, owner);
    forall r ensures r in a <==> r in b {
      if r in a {
        var id :| id in s1 && Matches(s1[id], owner, needle) && r == s1[id].(id := id);
        assert id in RecordsOf(s2, owner) && s2[id] == RecordsOf(s2, owner)[id] == RecordsOf(s1, owner)[id];
      }
      if r in b {
        var id :| id in s2 && Matches(s2[id], owner, needle) && r == s2[id].(id := id);
        assert id in RecordsOf(s1, owner) && s1[id] == RecordsOf(s1, owner)[id] == RecordsOf(s2, owner)[id];
      }
    }
    forall x, y | x in a && y in a ensures !(Newer(x, y) && Newer(y, x)) {
      NewerAsymmetric(x, y);
    }
    StrictlyAscendingUnique(Newer, a, b);
  }

  /** So do the counter and the insert check. */
  lemma CountsDependOnOwner(s1: Store, s2: Store, owner: Owner, wallet: string)
    requires RecordsOf(s1, owner) == RecordsOf(s2, owner)
    ensures ActiveFor(s1, owner, wallet) == ActiveFor(s2, owner, wallet)
    ensures Taken(s1, owner, wallet) == Taken(s2, owner, wallet)
  {
    hide TargetFromPayload, Occupies;
    var r1, r2 := RecordsOf(s1, owner), RecordsOf(s2, owner);
    assert forall id :: id in s1 && s1[id].owner == owner <==> id in r1;
    assert forall id :: id in s2 && s2[id].owner == owner <==> id in r2;
    assert forall id :: id in r1 ==> s1[id] == r1[id] == r2[id] == s2[id];
    forall id ensures id in ActiveFor(s1, owner, wallet) <==> id in ActiveFor(s2, owner, wallet) {
      assert id in r1 <==> id in r2;
    }
  }

  /** An insert leaves every other owner's wallets as free as they were. */
  lemma CreateKeepsOthersFree(store: Store, principal: Principal, input: CreateInput, id: string, owner: Owner,
                              wallet: string)
    requires id !in store && owner != principal.AsOwner()
    ensures Taken(Created(store, principal, input, id), owner, wallet) == Taken(store, owner, wallet)
  {
    hide Taken, RecordsOf, Stamped, NormalizeWallet, Trim;
    OthersUntouched(store, id, NewRecord(principal, input, CanonicalWallet(input.wallet), id));
    CountsDependOnOwner(store, Created(store, principal, input, id), owner, wallet);
  }

  // ----------------------------------------------------------------------- W1

  /** A policy as CreatePolicy stores it, whatever payload the caller gave. */
  predicate WellStored(id: string, rec: PolicyRecord) {
    && rec.id == id
    && IsNormalWallet(rec.wallet)
    && "wallet_address" in rec.payload && rec.payload["wallet_address"] == Str(rec.wallet)
  }

  predicate SameTarget(a: PolicyRecord, b: PolicyRecord) {
    a.owner == b.owner && a.wallet == b.wallet
  }

  /** At most one policy per owner and wallet. */
  predicate OnePerWallet(store: Store) {
    && (forall id :: id in store ==> WellStored(id, store[id]))
    && (forall i, j :: i in store && j in store && SameTarget(store[i], store[j]) ==> i == j)
  }

  /** The counter reads the wallet every policy was stored for. */
  predicate CounterReads(store: Store) {
    forall id :: id in store ==> TargetFromPayload(store[id].payload) == store[id].wallet
  }

  /** W1 as the service needs it: uniqueness, and a counter that sees it. */
  predicate W1(store: Store) {
    OnePerWallet(store) && CounterReads(store)
  }

  /** Nothing in the payload is preferred to the stamped wallet and differs from it. */
  predicate NothingOutranks(payload: Object, wallet: string) {
    RivalTarget(payload) == "" || NormalizeWallet(RivalTarget(payload)) == Some(wallet)
  }

  /** The two wallet lookups on one stored policy: the insert check always reads its wallet, the counter sometimes. */
  lemma StoredLookups(id: string, rec: PolicyRecord)
    requires WellStored(id, rec)
    ensures WalletFromPayload(rec.payload) == rec.wallet
    ensures TargetFromPayload(rec.payload) == rec.wallet <==> NothingOutranks(rec.payload, rec.wallet)
  {
    hide Trim, NormalizeWallet, RivalTarget;
    NormalWalletFixed(rec.wallet);
  }

  lemma UniqueHolder(store: Store, i: string, j: string)
    requires W1(store) && i in store && j in store && SameTarget(store[i], store[j])
    ensures i == j
  {
    hide WellStored, CounterReads;
  }

  lemma OccupiesExactly(id: string, rec: PolicyRecord, wallet: string)
    requires WellStored(id, rec) && IsNormalWallet(wallet)
    ensures Occupies(rec, wallet) <==> rec.wallet == wallet
  {
    hide SameWallet, WalletFromPayload, TargetFromPayload, NormalizeWallet, IsNormalWallet;
    StoredLookups(id, rec);
    NormalWalletFixed(rec.wallet);
    SameWalletAsNormal(rec.wallet, wallet);
  }

  /** The counter answers zero or one, and answers one exactly when the next insert for that wallet is refused. */
  lemma CounterAgreesWithInsert(store: Store, owner: Owner, wallet: string)
    requires W1(store) && IsNormalWallet(wallet)
    ensures |ActiveFor(store, owner, wallet)| <= 1
    ensures |ActiveFor(store, owner, wallet)| == 1 <==> Taken(store, owner, wallet)
  {
    hide Occupies, WalletFromPayload, TargetFromPayload;
    var active := ActiveFor(store, owner, wallet);
    forall id | id in store ensures Occupies(store[id], wallet) <==> store[id].wallet == wallet {
      OccupiesExactly(id, store[id], wallet);
    }
    assert forall id :: id in store && store[id].owner == owner ==> (id in active <==> store[id].wallet == wallet);
    assert Taken(store, owner, wallet) <==> exists id :: id in active;
    if active != {} {
      var id :| id in active;
      assert active == {id};
    }
  }

  /** In particular `Exists` predicts the outcome of the next otherwise valid insert. */
  lemma ExistsMeansRefused(store: Store, principal: Principal, input: CreateInput)
    requires W1(store) && CreateInputFailure(principal, input).None?
    ensures |ActiveFor(store, principal.AsOwner(), CanonicalWallet(input.wallet))| > 0 <==>
            CreateFailure(store, principal, input) == Some(AlreadyExists)
  {
    hide Trim, W1, Taken, ActiveFor, NormalizeWallet;
    CounterAgreesWithInsert(store, principal.AsOwner(), CanonicalWallet(input.wallet));
  }

  lemma NewRecordStored(principal: Principal, input: CreateInput, id: string)
    requires NormalizeWallet(input.wallet).Some?
    ensures WellStored(id, NewRecord(principal, input, CanonicalWallet(input.wallet), id))
  {
    hide Trim, NormalizeWallet, Stamped;
    StampedReads(input.payload, Trim(input.scanID), CanonicalWallet(input.wallet), input.chainID, input.stampedAt);
  }

  lemma FreeWalletUnheld(store: Store, owner: Owner, wallet: string)
    requires OnePerWallet(store) && IsNormalWallet(wallet) && !Taken(store, owner, wallet)
    ensures forall k :: k in store && store[k].owner == owner ==> store[k].wallet != wallet
  {
    hide WellStored, Occupies, IsNormalWallet;
    forall k | k in store && store[k].owner == owner ensures store[k].wallet != wallet {
      OccupiesExactly(k, store[k], wallet);
    }
  }

  /** Inserting under a fresh id keeps uniqueness, whatever the payload says. */
  lemma CreateKeepsUnique(store: Store, principal: Principal, input: CreateInput, id: string)
    requires OnePerWallet(store) && id !in store
    requires CreateFailure(store, principal, input).None?
    ensures OnePerWallet(Created(store, principal, input, id))
  {
    hide Trim, NormalizeWallet, Stamped, Taken, WellStored;
    NewRecordStored(principal, input, id);
    FreeWalletUnheld(store, principal.AsOwner(), CanonicalWallet(input.wallet));
  }

  /** Nothing in the payload outranks the stamped wallet with another one. */
  predicate NoRival(input: CreateInput) {
    NothingOutranks(input.payload, CanonicalWallet(input.wallet))
  }

  /** It keeps all of W1 exactly when nothing in the payload names a rival wallet. */
  lemma CreateKeepsW1(store: Store, principal: Principal, input: CreateInput, id: string)
    requires W1(store) && id !in store
    requires CreateFailure(store, principal, input).None?
    ensures W1(Created(store, principal, input, id)) <==> NoRival(input)
  {
    hide Trim, NormalizeWallet, Stamped, RivalTarget, TargetFromPayload, OnePerWallet;
    var wallet := CanonicalWallet(input.wallet);
    CreateKeepsUnique(store, principal, input, id);
    CounterSeesWallet(input.payload, Trim(input.scanID), wallet, input.chainID, input.stampedAt);
    var after := Created(store, principal, input, id);
    assert TargetFromPayload(after[id].payload) == wallet <==> NoRival(input);
  }

  lemma DeleteKeeps(store: Store, id: string)
    requires OnePerWallet(store)
    ensures OnePerWallet(store - {id})
    ensures W1(store) ==> W1(store - {id})
  {
    hide WellStored, TargetFromPayload;
  }

  // ------------------------------------------------------------- store runs

  datatype StoreOp =
    | CreateOp(principal: Principal, input: CreateInput, id: string)
    | DeleteOp(principal: Principal, id: string)

  function Apply(store: Store, op: StoreOp): (r: Store) {
    match op
    case CreateOp(p, input, id) =>
      if CreateFailure(store, p, input).None? then Created(store, p, input, id) else store
    case DeleteOp(p, id) =>
      if DeleteFailure(store, p, id).None? then store - {id} else store
  }

  function StoreAfter(ops: seq<StoreOp>): (r: Store) {
    if ops == [] then map[] else Apply(StoreAfter(ops[..|ops| - 1]), ops[|ops| - 1])
  }

  /** Every create draws an id not in use. */
  predicate FreshRun(ops: seq<StoreOp>) {
    forall i :: 0 <= i < |ops| && ops[i].CreateOp? ==> ops[i].id !in StoreAfter(ops[..i])
  }

  /** One policy per owner and wallet holds in every state of every run, whatever the payloads. */
  lemma {:induction false} RunsKeepUnique(ops: seq<StoreOp>)
    requires FreshRun(ops)
    ensures OnePerWallet(StoreAfter(ops))
  {
    hide OnePerWallet, W1, CreateFailure, DeleteFailure, Created;
    if ops == [] {
      EmptyW1();
    } else {
      var n := |ops| - 1;
      assert forall i :: 0 <= i < n ==> ops[..n][i] == ops[i] && ops[..n][..i] == ops[..i];
      RunsKeepUnique(ops[..n]);
      var store := StoreAfter(ops[..n]);
      match ops[n]
      case CreateOp(p, input, id) =>
        if CreateFailure(store, p, input).None? {
          CreateKeepsUnique(store, p, input, id);
        }
      case DeleteOp(p, id) =>
        DeleteKeeps(store, id);
    }
  }

  /** Every state of every run satisfies W1 exactly when no policy in it names a rival wallet. */
  lemma RunsKeepW1(ops: seq<StoreOp>)
    requires FreshRun(ops)
    ensures var store := StoreAfter(ops);
            W1(store) <==> forall id :: id in store ==> NothingOutranks(store[id].payload, store[id].wallet)
  {
    hide StoreAfter, WellStored, TargetFromPayload, NothingOutranks;
    RunsKeepUnique(ops);
    var store := StoreAfter(ops);
    forall id | id in store
      ensures TargetFromPayload(store[id].payload) == store[id].wallet
              <==> NothingOutranks(store[id].payload, store[id].wallet)
    {
      StoredLookups(id, store[id]);
    }
  }

  /** The operation stores a policy. */
  predicate Stores(store: Store, op: StoreOp) {
    op.CreateOp? && CreateFailure(store, op.principal, op.input).None?
  }

  /** W1 holds throughout a run. */
  predicate W1Throughout(ops: seq<StoreOp>) {
    forall n :: 0 <= n <= |ops| ==> W1(StoreAfter(ops[..n]))
  }

  /** No create that stores a policy names a rival wallet. */
  predicate NoRivals(ops: seq<StoreOp>) {
    forall i :: 0 <= i < |ops| && Stores(StoreAfter(ops[..i]), ops[i]) ==> NoRival(ops[i].input)
  }

  lemma StepKeepsW1(store: Store, op: StoreOp)
    requires W1(store) && (op.CreateOp? ==> op.id !in store)
    ensures W1(Apply(store, op)) <==> (Stores(store, op) ==> NoRival(op.input))
  {
    hide W1, CreateFailure, DeleteFailure, Created, NoRival;
    match op
    case CreateOp(p, input, id) =>
      if CreateFailure(store, p, input).None? {
        CreateKeepsW1(store, p, input, id);
      }
    case DeleteOp(_, id) =>
      assert OnePerWallet(store) by {
        W1MeansUnique(store);
      }
      DeleteKeeps(store, id);
  }

  lemma W1MeansUnique(store: Store)
    requires W1(store)
    ensures OnePerWallet(store)
  {
    hide OnePerWallet, CounterReads;
  }

  lemma StoreAfterNext(ops: seq<StoreOp>, i: nat)
    requires i < |ops|
    ensures StoreAfter(ops[..i + 1]) == Apply(StoreAfter(ops[..i]), ops[i])
  {
    hide Apply;
    assert ops[..i + 1][..i] == ops[..i];
  }

  lemma {:induction false} NoRivalsKeepW1(ops: seq<StoreOp>, n: nat)
    requires FreshRun(ops) && NoRivals(ops) && n <= |ops|
    ensures W1(StoreAfter(ops[..n]))
  {
    hide W1, NoRival, Stores, Apply, StoreAfter;
    if n == 0 {
      StartEmpty(ops);
      EmptyW1();
    } else {
      NoRivalsKeepW1(ops, n - 1);
      StoreAfterNext(ops, n - 1);
      StepKeepsW1(StoreAfter(ops[..n - 1]), ops[n - 1]);
    }
  }

  lemma StartEmpty(ops: seq<StoreOp>)
    ensures StoreAfter(ops[..0]) == map[]
  {
  }

  /** W1 holds throughout a run with fresh ids exactly when no create in it that succeeds names a rival wallet. */
  lemma W1ThroughoutExact(ops: seq<StoreOp>)
    requires FreshRun(ops)
    ensures W1Throughout(ops) <==> NoRivals(ops)
  {
    hide W1, NoRival, CreateFailure, Apply, StoreAfter;
    if NoRivals(ops) {
      forall n | 0 <= n <= |ops| ensures W1(StoreAfter(ops[..n])) {
        NoRivalsKeepW1(ops, n);
      }
    }
    if W1Throughout(ops) {
      forall i | 0 <= i < |ops| && Stores(StoreAfter(ops[..i]), ops[i]) ensures NoRival(ops[i].input) {
        StoreAfterNext(ops, i);
        StepKeepsW1(StoreAfter(ops[..i]), ops[i]);
      }
    }
  }

  lemma EmptyW1()
    ensures W1(map[]) && OnePerWallet(map[])
  {
  }
}
