/**
 internal/app: the wallet challenge (wallet_challenge_routes.go), the signed persist handler
 (policy_persist_routes.go), the W2 guard (w2_engagement.go) and deletion, as steps over a
 store, a discovery service and a clock.
 */
module Protocol {
  import opened Wrappers
  import opened Text
  import opened Json
  import opened WalletTarget
  import opened PayloadHash
  import opened Message
  import opened WalletAuth
  import opened PersistGate
  import opened OwnerStore

  // ----------------------------------------------------------------- scan ids

  predicate UuidChar(i: int, c: char) {
    if i == 8 || i == 13 || i == 18 || i == 23 then c == '-' else IsHex(c)
  }

  predicate IsUuid(s: string) {
    |s| == 36 && forall i :: 0 <= i < 36 ==> UuidChar(i, s[i])
  }

  function NormalizeScanID(s: string): (r: Option<string>) {
    if IsUuid(Trim(s)) then Some(Lower(Trim(s))) else None
  }

  /** A normalized scan id is a fixed point on one line. */
  lemma NormalScanIDFixed(s: string)
    requires NormalizeScanID(s).Some?
    ensures var n := NormalizeScanID(s).value;
            Trim(n) == n && n != "" && '\n' !in n && Lower(n) == n && NormalizeScanID(n) == Some(n)
  {
    hide Trim;
    var t := Trim(s);
    var n := Lower(t);
    assert forall i :: 0 <= i < 36 ==> UuidChar(i, t[i]) && n[i] == LowerChar(t[i]);
    assert forall i :: 0 <= i < 36 ==> UuidChar(i, n[i]) && n[i] != '\n' && LowerChar(n[i]) == n[i];
    assert Trimmed(n);
    assert Lower(n) == n;
  }

  // ------------------------------------------------------------------- guards

  datatype Discovery = Unavailable | Latest(scanID: string)

  /** The latest completed scan per caller and wallet. */
  type Oracle = (Principal, string) -> Discovery

  datatype Config = Config(walletAuthDomain: string, clockSkew: int, discoveryConfigured: bool)

  datatype W2Error = DiscoveryUnavailable | ScanNotLatest

  function W2Failure(cfg: Config, oracle: Oracle, principal: Principal, wallet: string,
                     scanID: string): (r: Option<W2Error>) {
    if !cfg.discoveryConfigured then Some(DiscoveryUnavailable)
    else
      match oracle(principal, wallet)
      case Unavailable => Some(DiscoveryUnavailable)
      case Latest(latest) =>
        if Trim(latest) == "" then Some(ScanNotLatest)
        else if NormalizeScanID(latest).None? then Some(DiscoveryUnavailable)
        else if !EqualFold(NormalizeScanID(latest).value, Trim(scanID)) then Some(ScanNotLatest)
        else None
  }

  /** For a normalized scan id the guard holds exactly when discovery reports that very scan. */
  lemma W2Exact(cfg: Config, oracle: Oracle, principal: Principal, wallet: string, raw: string)
    requires NormalizeScanID(raw).Some?
    ensures var scanID := NormalizeScanID(raw).value;
            W2Failure(cfg, oracle, principal, wallet, scanID).None? <==>
            && cfg.discoveryConfigured
            && oracle(principal, wallet).Latest?
            && NormalizeScanID(oracle(principal, wallet).scanID) == Some(scanID)
  {
    hide Trim, Lower;
    NormalScanIDFixed(raw);
    var scanID := NormalizeScanID(raw).value;
    if oracle(principal, wallet).Latest? {
      var latest := oracle(principal, wallet).scanID;
      if NormalizeScanID(latest).Some? {
        NormalScanIDFixed(latest);
      }
    }
  }

  /** Which of its two refusals the guard gives. */
  lemma W2Refusals(cfg: Config, oracle: Oracle, principal: Principal, wallet: string, scanID: string)
    ensures var r := W2Failure(cfg, oracle, principal, wallet, scanID);
            var answered := cfg.discoveryConfigured && oracle(principal, wallet).Latest?;
            && (!answered ==> r == Some(DiscoveryUnavailable))
            && (answered ==>
                  var latest := oracle(principal, wallet).scanID;
                  && (Trim(latest) == "" ==> r == Some(ScanNotLatest))
                  && (Trim(latest) != "" && NormalizeScanID(latest).None? ==> r == Some(DiscoveryUnavailable))
                  && (Trim(latest) != "" && NormalizeScanID(latest).Some? ==>
                        r == if Lower(NormalizeScanID(latest).value) == Lower(Trim(scanID)) then None
                             else Some(ScanNotLatest)))
  {
    hide Trim, NormalizeScanID, Lower;
  }

  /** A scan id is 8-4-4-4-12 hexadecimal digits of either case, and is kept in lower case. */
  lemma ScanIDExact(s: string)
    ensures NormalizeScanID(s).Some? <==>
            var t := Trim(s);
            |t| == 36 && forall i :: 0 <= i < 36 ==>
              if i in {8, 13, 18, 23} then t[i] == '-'
              else '0' <= t[i] <= '9' || 'a' <= t[i] <= 'f' || 'A' <= t[i] <= 'F'
    ensures NormalizeScanID(s).Some? ==> NormalizeScanID(s).value == Lower(Trim(s))
  {
    hide Trim;
    var t := Trim(s);
    if |t| == 36 {
      assert forall i :: 0 <= i < 36 ==>
               (UuidChar(i, t[i]) <==>
                 if i in {8, 13, 18, 23} then t[i] == '-'
                 else '0' <= t[i] <= '9' || 'a' <= t[i] <= 'f' || 'A' <= t[i] <= 'F');
    }
  }

  function ColonIndex(s: string): (i: nat)
    ensures i <= |s|
  {
    if s == [] || s[0] == ':' then 0 else 1 + ColonIndex(s[1..])
  }

  /** The configured domain, else the request host without its port, else localhost. */
  function AuthDomain(cfg: Config, host: string): (r: string) {
    var configured, h := Trim(cfg.walletAuthDomain), Trim(host);
    if configured != "" then configured
    else if h != "" then
      var i := ColonIndex(h);
      if 0 < i < |h| then h[..i] else h
    else "localhost"
  }

  lemma {:induction false} ColonIndexFirst(s: string)
    ensures var i := ColonIndex(s);
            && (i < |s| ==> s[i] == ':')
            && forall k :: 0 <= k < i ==> s[k] != ':'
  {
    if s == [] || s[0] == ':' {
    } else {
      ColonIndexFirst(s[1..]);
      assert forall k :: 1 <= k < |s| ==> s[k] == s[1..][k - 1];
    }
  }

  /** The domain: as configured, else the host up to its port, else localhost. */
  lemma AuthDomainReads(cfg: Config, host: string)
    ensures var d := AuthDomain(cfg, host);
            var h := Trim(host);
            && (Trim(cfg.walletAuthDomain) != "" ==> d == Trim(cfg.walletAuthDomain))
            && (Trim(cfg.walletAuthDomain) == "" && h == "" ==> d == "localhost")
            && (Trim(cfg.walletAuthDomain) == "" && h != "" && (':' !in h || h[0] == ':') ==> d == h)
            && (Trim(cfg.walletAuthDomain) == "" && h != "" && ':' in h && h[0] != ':' ==>
                  d != "" && ':' !in d && |d| < |h| && h[..|d|] == d && h[|d|] == ':')
  {
    hide Trim;
    ColonIndexFirst(Trim(host));
  }

  function EffectiveSkew(cfg: Config): (r: int) {
    if cfg.clockSkew <= 0 then DEFAULT_SKEW else cfg.clockSkew
  }

  // ------------------------------------------------------------------ persist

  /** `payload` is Null when the body carries none. */
  datatype PersistRequest = PersistRequest(
    wallet: string, chainID: Int64, scanID: string, signedMessage: string, signature: string,
    payload: Json, host: string)

  datatype PersistError =
    | WalletAddressRequired | ChainIDMissing | ScanIDMissing | PayloadRequired | ProofRequired
    | InvalidAddress | InvalidScanID
    | W2Rejected(w2: W2Error)
    | PayloadRejected
    | NotAuthorized(auth: AuthError)
    | GateRejected(gate: GateError)
    | StoreRejected(store: StoreError)

  /** What has been established once every gate has passed. */
  datatype Admitted = Admitted(wallet: string, scanID: string, digest: string, canonical: Object)

  function RequestFailure(req: PersistRequest): (r: Option<PersistError>) {
    if Trim(req.wallet) == "" then Some(WalletAddressRequired)
    else if req.chainID < 1 then Some(ChainIDMissing)
    else if Trim(req.scanID) == "" then Some(ScanIDMissing)
    else if req.payload.Null? then Some(PayloadRequired)
    else if Trim(req.signedMessage) == "" || Trim(req.signature) == "" then Some(ProofRequired)
    else if NormalizeWallet(req.wallet).None? then Some(InvalidAddress)
    else if NormalizeScanID(req.scanID).None? then Some(InvalidScanID)
    else None
  }

  /** Which refusal a malformed request gets: that of the first check that fails. */
  lemma RequestRefusals(req: PersistRequest)
    ensures var r := RequestFailure(req);
            var wallet := Trim(req.wallet) != "";
            var chain := wallet && req.chainID >= 1;
            var scan := chain && Trim(req.scanID) != "";
            var payload := scan && !req.payload.Null?;
            var proof := payload && Trim(req.signedMessage) != "" && Trim(req.signature) != "";
            var address := proof && NormalizeWallet(req.wallet).Some?;
            && (!wallet ==> r == Some(WalletAddressRequired))
            && (wallet && !chain ==> r == Some(ChainIDMissing))
            && (chain && !scan ==> r == Some(ScanIDMissing))
            && (scan && !payload ==> r == Some(PayloadRequired))
            && (payload && !proof ==> r == Some(ProofRequired))
            && (proof && !address ==> r == Some(InvalidAddress))
            && (address ==> r == if NormalizeScanID(req.scanID).Some? then None else Some(InvalidScanID))
  {
    hide Trim, NormalizeWallet, NormalizeScanID;
  }

  function CanonicalScanID(s: string): (r: string) {
    match NormalizeScanID(s)
    case Some(n) => n
    case None => ""
  }

  function AuthInput(cfg: Config, req: PersistRequest, digest: string, now: int): (r: VerifyInput) {
    VerifyInput(AuthDomain(cfg, req.host), CanonicalWallet(req.wallet), req.chainID, CanonicalScanID(req.scanID),
      digest, req.signedMessage, req.signature, now, EffectiveSkew(cfg))
  }

  /** The gates in order: request shape, W2, digest, authorization, business replay. */
  function Admission(env: Env, cfg: Config, oracle: Oracle, principal: Principal, req: PersistRequest, now: int)
    : (r: Result<Admitted, PersistError>)
  {
    var wallet, scanID := CanonicalWallet(req.wallet), CanonicalScanID(req.scanID);
    var w2 := W2Failure(cfg, oracle, principal, wallet, scanID);
    if RequestFailure(req).Some? then Err(RequestFailure(req).value)
    else if w2.Some? then Err(W2Rejected(w2.value))
    else
      match DigestOf(env.hash, req.payload)
      case None => Err(PayloadRejected)
      case Some(d) =>
        var auth := VerifyFailure(env, AuthInput(cfg, req, d.digest, now));
        var gate := GateFailure(d.canonical);
        if auth.Some? then Err(NotAuthorized(auth.value))
        else if gate.Some? then Err(GateRejected(gate.value))
        else Ok(Admitted(wallet, scanID, d.digest, d.canonical))
  }

  function InsertInput(env: Env, req: PersistRequest, a: Admitted, createNow: int): (r: CreateInput) {
    CreateInput(a.scanID, a.wallet, req.chainID, a.canonical, a.digest, createNow, PrintInstant(env.times, createNow))
  }

  /** The error the handler answers with, if any. The clock is read once to verify and once to insert. */
  function PersistFailure(env: Env, cfg: Config, oracle: Oracle, store: Store, principal: Principal,
                          req: PersistRequest, verifyNow: int, createNow: int): (r: Option<PersistError>)
  {
    match Admission(env, cfg, oracle, principal, req, verifyNow)
    case Err(e) => Some(e)
    case Ok(a) =>
      match CreateFailure(store, principal, InsertInput(env, req, a, createNow))
      case Some(e) => Some(StoreRejected(e))
      case None => None
  }

  function StoreAfterPersist(env: Env, cfg: Config, oracle: Oracle, store: Store, principal: Principal,
                             req: PersistRequest, verifyNow: int, createNow: int, id: string): (r: Store)
  {
    match Admission(env, cfg, oracle, principal, req, verifyNow)
    case Err(_) => store
    case Ok(a) => OwnerStore.Apply(store, CreateOp(principal, InsertInput(env, req, a, createNow), id))
  }

  /** A corollary: any refused persist leaves the store as it was. */
  lemma RefusedLeavesStore(env: Env, cfg: Config, oracle: Oracle, store: Store, principal: Principal,
                           req: PersistRequest, verifyNow: int, createNow: int, id: string)
    requires PersistFailure(env, cfg, oracle, store, principal, req, verifyNow, createNow).Some?
    ensures StoreAfterPersist(env, cfg, oracle, store, principal, req, verifyNow, createNow, id) == store
  {
    hide Admission, CreateFailure;
  }

  /**
   A corollary of the gate order: a refusal names the first gate that fails. The business gate
   speaks only to authorized callers, authorization is judged only for a digested payload of the
   latest scan, and the store is reached only when every gate has passed.
   */
  lemma RefusalNamesFirstGate(env: Env, cfg: Config, oracle: Oracle, store: Store, principal: Principal,
                              req: PersistRequest, verifyNow: int, createNow: int)
    ensures var err := PersistFailure(env, cfg, oracle, store, principal, req, verifyNow, createNow);
            var w2 := W2Failure(cfg, oracle, principal, CanonicalWallet(req.wallet), CanonicalScanID(req.scanID));
            var d := DigestOf(env.hash, req.payload);
            var shapeOk := RequestFailure(req).None?;
            && (err.Some? && err.value.W2Rejected? <==> shapeOk && w2.Some?)
            && (err == Some(PayloadRejected) <==> shapeOk && w2.None? && d.None?)
            && (err.Some? && err.value.NotAuthorized? <==>
                  shapeOk && w2.None? && d.Some? && !Authorized(env, AuthInput(cfg, req, d.value.digest, verifyNow)))
            && (err.Some? && err.value.GateRejected? <==>
                  shapeOk && w2.None? && d.Some? && Authorized(env, AuthInput(cfg, req, d.value.digest, verifyNow))
                  && GateFailure(d.value.canonical).Some?)
            && (err.None? || err.value.StoreRejected? <==>
                  shapeOk && w2.None? && d.Some? && Authorized(env, AuthInput(cfg, req, d.value.digest, verifyNow))
                  && GateFailure(d.value.canonical).None?)
  {
    hide W2Failure, DigestOf, VerifyFailure, GateFailure, CreateFailure, CanonicalWallet, CanonicalScanID, AuthInput,
         Trim, NormalizeWallet, NormalizeScanID;
  }

  method HandlePolicyPersist(store: OwnerScopedStore, env: Env, cfg: Config, oracle: Oracle, principal: Principal,
                             req: PersistRequest, verifyNow: int, createNow: int, id: string)
    returns (err: Option<PersistError>)
    modifies store
    ensures err == PersistFailure(env, cfg, oracle, old(store.policies), principal, req, verifyNow, createNow)
    ensures store.policies
            == StoreAfterPersist(env, cfg, oracle, old(store.policies), principal, req, verifyNow, createNow, id)
  {
    hide RequestFailure, W2Failure, DigestOf, VerifyFailure, GateFailure, CreateFailure, Created;
    err := RequestFailure(req);
    if err.Some? {
      return;
    }
    var wallet, scanID := CanonicalWallet(req.wallet), CanonicalScanID(req.scanID);
    var w2 := W2Failure(cfg, oracle, principal, wallet, scanID);
    if w2.Some? {
      return Some(W2Rejected(w2.value));
    }
    var digested := DigestCanonical(env.hash, req.payload);
    if digested.Err? {
      return Some(PayloadRejected);
    }
    var d := digested.value;
    var auth := VerifyFailure(env, AuthInput(cfg, req, d.digest, verifyNow));
    if auth.Some? {
      return Some(NotAuthorized(auth.value));
    }
    var gate := ValidatePayloadForPersist(d.canonical);
    if gate.Some? {
      return Some(GateRejected(gate.value));
    }
    var input := InsertInput(env, req, Admitted(wallet, scanID, d.digest, d.canonical), createNow);
    var stored := store.CreatePolicy(principal, input, id);
    return match stored
      case Some(e) => Some(StoreRejected(e))
      case None => None;
  }

  // ---------------------------------------------------------------- challenge

  datatype ChallengeRequest = ChallengeRequest(
    wallet: string, chainID: Int64, scanID: string, action: string, payload: Json, host: string)

  function ChallengeShapeOk(req: ChallengeRequest): (r: bool) {
    && req.chainID >= 1 && !req.payload.Null? && Trim(req.action) == PERSIST_ACTION
    && NormalizeWallet(req.wallet).Some? && NormalizeScanID(req.scanID).Some?
  }

  /** handleWalletChallenge stores nothing; it prints what the wallet should sign. */
  function ChallengeMessage(env: Env, cfg: Config, oracle: Oracle, principal: Principal, req: ChallengeRequest,
                            now: int)
    : (r: Option<string>)
  {
    var wallet, scanID := CanonicalWallet(req.wallet), CanonicalScanID(req.scanID);
    if !ChallengeShapeOk(req) || W2Failure(cfg, oracle, principal, wallet, scanID).Some? then None
    else
      match DigestOf(env.hash, req.payload)
      case None => None
      case Some(d) =>
        Some(BuildMessage(env.times,
                          ChallengeFields(AuthDomain(cfg, req.host), wallet, req.chainID, scanID, d.digest, now)))
  }

  /**
   A message is issued exactly for a well-formed request about the latest scan with a digestible
   payload, and for no other.
   */
  lemma ChallengeExact(env: Env, cfg: Config, oracle: Oracle, principal: Principal, req: ChallengeRequest, now: int)
    ensures ChallengeMessage(env, cfg, oracle, principal, req, now).Some? <==>
            && req.chainID >= 1
            && Trim(req.action) == "persist_crypto_policy"
            && NormalizeWallet(req.wallet).Some?
            && NormalizeScanID(req.scanID).Some?
            && cfg.discoveryConfigured
            && (var answer := oracle(principal, NormalizeWallet(req.wallet).value);
                answer.Latest? && NormalizeScanID(answer.scanID) == NormalizeScanID(req.scanID))
            && Digestible(req.payload)
  {
    hide Trim, NormalizeWallet, NormalizeScanID, W2Failure, AllowedSubtree, ClosedKeys, StringArray, Canonical,
         BuildMessage, AuthDomain, ChallengeFields;
    if NormalizeScanID(req.scanID).Some? {
      W2Exact(cfg, oracle, principal, CanonicalWallet(req.wallet), req.scanID);
    }
  }

  /** What an issued message says: these very values, good for ten minutes from the second it was issued in. */
  lemma ChallengeReads(env: Env, cfg: Config, oracle: Oracle, principal: Principal, req: ChallengeRequest, now: int)
    requires ChallengeMessage(env, cfg, oracle, principal, req, now).Some?
    requires var digest := env.hash(Canonical(req.payload.fields)); '\n' !in digest && Trim(digest) != ""
    requires '\n' !in Trim(AuthDomain(cfg, req.host))
    requires Readable(env.times, now / NANOS) && Readable(env.times, now / NANOS + 600)
    ensures var parsed := Parsed(env.times, ChallengeMessage(env, cfg, oracle, principal, req, now).value);
            && parsed.Some?
            && parsed.value.domain == Trim(AuthDomain(cfg, req.host))
            && parsed.value.action == "persist_crypto_policy"
            && Some(parsed.value.wallet) == NormalizeWallet(req.wallet)
            && parsed.value.chainID == req.chainID
            && Some(parsed.value.scanID) == NormalizeScanID(req.scanID)
            && parsed.value.payloadSHA256 == Trim(env.hash(Canonical(req.payload.fields)))
            && parsed.value.issuedAt <= now < parsed.value.issuedAt + 1_000_000_000
            && parsed.value.issuedAt % 1_000_000_000 == 0
            && parsed.value.expiresAt == parsed.value.issuedAt + 600 * 1_000_000_000
  {
    hide Trim, NormalizeWallet, NormalizeScanID, W2Failure, AllowedSubtree, ClosedKeys, StringArray, Canonical,
         BuildMessage, AuthDomain, Parsed, Readable;
    var digest := env.hash(Canonical(req.payload.fields));
    var wallet, scanID := CanonicalWallet(req.wallet), CanonicalScanID(req.scanID);
    var f := ChallengeFields(AuthDomain(cfg, req.host), wallet, req.chainID, scanID, digest, now);
    NormalWalletFixed(wallet);
    NormalScanIDFixed(req.scanID);
    PersistActionTrimmed();
    ChallengeSeconds(now);
    SecondsOf(now);
    assert OneLineEach(env.times, f);
    ParseUndoesBuild(env.times, f);
  }

  lemma SecondsOf(now: int)
    ensures (now / NANOS * NANOS) / NANOS == now / NANOS
    ensures (now / NANOS * NANOS + MAX_VALIDITY) / NANOS == now / NANOS + 600
    ensures (now / NANOS * NANOS) % NANOS == 0
  {
    var s := now / NANOS;
    assert (s * NANOS) / NANOS == s;
    assert s * NANOS + MAX_VALIDITY == (s + 600) * NANOS;
  }

  // -------------------------------------------------------------------- runs

  datatype State = State(store: Store, oracle: Oracle, now: int)

  datatype Step =
    | Tick(elapsed: nat)
    | Discover(oracle: Oracle)
    | Challenge(principal: Principal, challenge: ChallengeRequest)
    | Persist(principal: Principal, req: PersistRequest, toVerify: nat, toCreate: nat, id: string)
    | Delete(principal: Principal, id: string)

  /** The delete handler trims the id and refuses a blank one. */
  function StoreAfterDelete(store: Store, principal: Principal, rawID: string): (r: Store) {
    if Trim(rawID) == "" then store else OwnerStore.Apply(store, DeleteOp(principal, Trim(rawID)))
  }

  function Next(env: Env, cfg: Config, s: State, step: Step): (r: State) {
    match step
    case Tick(elapsed) => s.(now := s.now + elapsed)
    case Discover(oracle) => s.(oracle := oracle)
    case Challenge(_, _) => s
    case Persist(p, req, toVerify, toCreate, id) =>
      var verifyNow := s.now + toVerify;
      var createNow := verifyNow + toCreate;
      State(StoreAfterPersist(env, cfg, s.oracle, s.store, p, req, verifyNow, createNow, id), s.oracle, createNow)
    case Delete(p, id) => s.(store := StoreAfterDelete(s.store, p, id))
  }

  function After(env: Env, cfg: Config, init: State, steps: seq<Step>): (r: State) {
    if steps == [] then init
    else Next(env, cfg, After(env, cfg, init, steps[..|steps| - 1]), steps[|steps| - 1])
  }

  /** Random ids are assumed not to be in use when drawn. */
  predicate FreshIDs(env: Env, cfg: Config, init: State, steps: seq<Step>) {
    forall i :: 0 <= i < |steps| && steps[i].Persist? ==> FreshAt(env, cfg, init, steps, i)
  }

  predicate FreshAt(env: Env, cfg: Config, init: State, steps: seq<Step>, i: nat)
    requires i < |steps| && steps[i].Persist?
  {
    steps[i].id !in After(env, cfg, init, steps[..i]).store
  }

  predicate StartsEmpty(init: State) {
    init.store == map[]
  }

  lemma FreshPrefix(env: Env, cfg: Config, init: State, steps: seq<Step>)
    requires FreshIDs(env, cfg, init, steps) && steps != []
    ensures FreshIDs(env, cfg, init, steps[..|steps| - 1])
  {
    var front := steps[..|steps| - 1];
    forall i | 0 <= i < |front| && front[i].Persist? ensures FreshAt(env, cfg, init, front, i) {
      assert FreshAt(env, cfg, init, steps, i);
      assert front[..i] == steps[..i];
    }
  }

  // --------------------------------------------------------- justified records

  /** The input under which a persist step verified the authorization for its record. */
  function InsertAuth(cfg: Config, s: State, step: Step, rec: PolicyRecord, digest: string): (r: VerifyInput)
    requires step.Persist?
  {
    VerifyInput(AuthDomain(cfg, step.req.host), rec.wallet, step.req.chainID, rec.scanID, digest,
      step.req.signedMessage, step.req.signature, s.now + step.toVerify, EffectiveSkew(cfg))
  }

  /** The persist step that inserted the record, at the state it ran in. */
  predicate Justifies(env: Env, cfg: Config, s: State, step: Step, rec: PolicyRecord) {
    && step.Persist?
    && rec.id == step.id
    && rec.owner == step.principal.AsOwner()
    && rec.createdAt == rec.updatedAt == s.now + step.toVerify + step.toCreate
    && NormalizeWallet(step.req.wallet) == Some(rec.wallet)
    && NormalizeScanID(step.req.scanID) == Some(rec.scanID)
    && W2Failure(cfg, s.oracle, step.principal, rec.wallet, rec.scanID).None?
    && match DigestOf(env.hash, step.req.payload)
       case None => false
       case Some(d) =>
         && rec.payloadSHA256 == Trim(d.digest)
         && rec.payload
            == Stamped(d.canonical, rec.scanID, rec.wallet, rec.chainID, PrintInstant(env.times, rec.createdAt))
         && GateFailure(d.canonical).None?
         && Authorized(env, InsertAuth(cfg, s, step, rec, d.digest))
         && rec.chainID == step.req.chainID
  }

  lemma AdmissionMeans(env: Env, cfg: Config, oracle: Oracle, principal: Principal, req: PersistRequest, now: int)
    requires Admission(env, cfg, oracle, principal, req, now).Ok?
    ensures var a := Admission(env, cfg, oracle, principal, req, now).value;
            && NormalizeWallet(req.wallet) == Some(a.wallet)
            && NormalizeScanID(req.scanID) == Some(a.scanID)
            && W2Failure(cfg, oracle, principal, a.wallet, a.scanID).None?
            && DigestOf(env.hash, req.payload) == Some(Digested(a.digest, a.canonical))
            && GateFailure(a.canonical).None?
            && Authorized(env, AuthInput(cfg, req, a.digest, now))
            && CanonicalWallet(req.wallet) == a.wallet && CanonicalScanID(req.scanID) == a.scanID
  {
    hide Trim, NormalizeWallet, NormalizeScanID, W2Failure, DigestOf, GateFailure, VerifyFailure;
  }

  /** A persist step that changes the store adds one record, under its id, and that record is justified. */
  lemma PersistInserts(env: Env, cfg: Config, s: State, step: Step)
    requires step.Persist?
    ensures var s' := Next(env, cfg, s, step);
            || s'.store == s.store
            || (&& step.id in s'.store
                && s'.store == s.store[step.id := s'.store[step.id]]
                && Justifies(env, cfg, s, step, s'.store[step.id])
                && IsNormalWallet(s'.store[step.id].wallet))
  {
    hide Trim, NormalizeWallet, NormalizeScanID, W2Failure, DigestOf, GateFailure, VerifyFailure, Admission, Stamped,
         Taken, AuthDomain;
    var verifyNow := s.now + step.toVerify;
    var createNow := verifyNow + step.toCreate;
    var admitted := Admission(env, cfg, s.oracle, step.principal, step.req, verifyNow);
    if admitted.Ok? {
      AdmissionMeans(env, cfg, s.oracle, step.principal, step.req, verifyNow);
      var a := admitted.value;
      var input := InsertInput(env, step.req, a, createNow);
      if CreateFailure(s.store, step.principal, input).None? {
        NormalWalletFixed(a.wallet);
        NormalScanIDFixed(step.req.scanID);
        assert CanonicalWallet(input.wallet) == a.wallet;
        var rec := NewRecord(step.principal, input, a.wallet, step.id);
        assert Next(env, cfg, s, step).store == s.store[step.id := rec];
      }
    }
  }

  /** The owner of the record deletes it. */
  predicate DeletesOwn(step: Step, id: string, owner: Owner) {
    && step.Delete? && step.principal.Authenticated() && step.principal.AsOwner() == owner
    && Trim(step.id) == id && id != ""
  }

  /** Step i inserted this record and no later step deleted it. */
  predicate InsertedAt(env: Env, cfg: Config, init: State, steps: seq<Step>, i: nat, id: string, rec: PolicyRecord)
    requires i < |steps|
  {
    && steps[i].Persist? && steps[i].id == id
    && Justifies(env, cfg, After(env, cfg, init, steps[..i]), steps[i], rec)
    && forall j :: i < j < |steps| ==> !DeletesOwn(steps[j], id, rec.owner)
  }

  lemma DeleteOnlyRemoves(env: Env, cfg: Config, s: State, step: Step, id: string)
    requires step.Delete?
    requires id in Next(env, cfg, s, step).store
    ensures id in s.store && Next(env, cfg, s, step).store[id] == s.store[id]
    ensures !DeletesOwn(step, id, s.store[id].owner)
  {
    hide Trim;
  }

  /**
   Whole-run safety. Whatever the interleaving of challenges, persists, deletions, clock ticks
   and discovery changes, every stored record was inserted by a step at which W2 held, the
   authorization for its wallet, chain, scan and digest verified, and the persist gate passed.
   */
  lemma {:induction false} EveryRecordJustified(env: Env, cfg: Config, init: State, steps: seq<Step>, id: string)
    requires StartsEmpty(init) && FreshIDs(env, cfg, init, steps)
    requires id in After(env, cfg, init, steps).store
    ensures exists i :: 0 <= i < |steps| &&
              InsertedAt(env, cfg, init, steps, i, id, After(env, cfg, init, steps).store[id])
  {
    hide Justifies, Trim, StoreAfterPersist, StoreAfterDelete;
    if steps == [] {
    } else {
      var n := |steps| - 1;
      var front := steps[..n];
      var s := After(env, cfg, init, front);
      var step := steps[n];
      var rec := After(env, cfg, init, steps).store[id];
      FreshPrefix(env, cfg, init, steps);
      var inserted := false;
      match step {
        case Persist(_, _, _, _, sid) =>
          PersistInserts(env, cfg, s, step);
          assert FreshAt(env, cfg, init, steps, n);
          if id !in s.store {
            assert id == sid && Justifies(env, cfg, s, step, rec);
            assert InsertedAt(env, cfg, init, steps, n, id, rec);
            inserted := true;
          }
        case Delete(_, _) => DeleteOnlyRemoves(env, cfg, s, step, id);
        case _ =>
      }
      if !inserted {
        assert id in s.store && s.store[id] == rec;
        EveryRecordJustified(env, cfg, init, front, id);
        var i :| 0 <= i < |front| && InsertedAt(env, cfg, init, front, i, id, rec);
        ExtendInserted(env, cfg, init, steps, i, id, rec);
      }
    }
  }

  lemma ExtendInserted(env: Env, cfg: Config, init: State, steps: seq<Step>, i: nat, id: string, rec: PolicyRecord)
    requires steps != [] && i < |steps| - 1
    requires InsertedAt(env, cfg, init, steps[..|steps| - 1], i, id, rec)
    requires !DeletesOwn(steps[|steps| - 1], id, rec.owner)
    ensures InsertedAt(env, cfg, init, steps, i, id, rec)
  {
    hide Justifies, DeletesOwn, After;
    var front := steps[..|steps| - 1];
    assert front[..i] == steps[..i] && front[i] == steps[i];
    forall j | i < j < |steps| ensures !DeletesOwn(steps[j], id, rec.owner) {
      if j < |front| {
        assert front[j] == steps[j];
      }
    }
  }

  /** Conversely, a record stays, unchanged, until its owner deletes it. */
  lemma RecordsStay(env: Env, cfg: Config, s: State, step: Step, id: string)
    requires id in s.store
    requires step.Persist? ==> step.id !in s.store
    requires !DeletesOwn(step, id, s.store[id].owner)
    ensures id in Next(env, cfg, s, step).store && Next(env, cfg, s, step).store[id] == s.store[id]
  {
    hide Trim, StoreAfterPersist;
    if step.Persist? {
      PersistInserts(env, cfg, s, step);
    }
  }

  /** Over a whole run: what is stored at some point is still stored later unless its owner deleted it meanwhile. */
  lemma {:induction false} RecordsStayOverRuns(env: Env, cfg: Config, init: State, steps: seq<Step>, i: nat, id: string)
    requires FreshIDs(env, cfg, init, steps) && i <= |steps|
    requires id in After(env, cfg, init, steps[..i]).store
    requires forall j :: i <= j < |steps| ==>
               !DeletesOwn(steps[j], id, After(env, cfg, init, steps[..i]).store[id].owner)
    ensures id in After(env, cfg, init, steps).store
    ensures After(env, cfg, init, steps).store[id] == After(env, cfg, init, steps[..i]).store[id]
  {
    hide DeletesOwn, StoreAfterPersist, StoreAfterDelete;
    if i == |steps| {
      assert steps[..i] == steps;
    } else {
      var n := |steps| - 1;
      var front := steps[..n];
      assert front[..i] == steps[..i];
      assert forall j :: i <= j < n ==> front[j] == steps[j];
      FreshPrefix(env, cfg, init, steps);
      RecordsStayOverRuns(env, cfg, init, front, i, id);
      assert steps[n].Persist? ==> FreshAt(env, cfg, init, steps, n);
      RecordsStay(env, cfg, After(env, cfg, init, front), steps[n], id);
    }
  }

  // ------------------------------------------------------- what records mean

  /** The closed fields of a stored payload. */
  function Project(payload: Object): (r: Object) {
    map k | k in payload && k in CLOSED_FIELDS :: payload[k]
  }

  lemma ClosedNotStamps()
    ensures forall k :: k in CLOSED_FIELDS ==> k !in STAMPS
  {
    StampKeyLengths();
    assert |"schema_version"| == 14 && |"crypto_policy_id"| == 16 && |"required_posture"| == 16
      && |"user_constraints"| == 16;
    assert |"solution_profile_ref"| == 20 && |"accepted_provider_snapshot"| == 26 && |"accepted_findings"| == 17;
    assert "schema_version"[1] == 'c' && "signed_message"[1] == 'i' && "schema_version"[0] == 's';
    assert "wallet_address"[0] == 'w' && "payload_sha256"[0] == 'p' && "ownership_status"[0] == 'o';
    assert "crypto_policy_id"[0] == 'c' && "required_posture"[0] == 'r' && "user_constraints"[0] == 'u';
    assert "accepted_provider_snapshot"[0] == 'a' && "wallet_control_verified_at"[0] == 'w';
  }

  /** Stamping a closed payload and projecting it gives it back. */
  lemma ProjectStamped(payload: Object, scanID: string, wallet: string, chainID: int, at: string)
    requires ClosedKeys(payload)
    ensures Project(Stamped(payload, scanID, wallet, chainID, at)) == payload
  {
    hide Stamped;
    ClosedNotStamps();
    var r := Stamped(payload, scanID, wallet, chainID, at);
    forall k | k in CLOSED_FIELDS ensures k in r && r[k] == payload[k] {
      StampedKeepsOthers(payload, scanID, wallet, chainID, at, k);
    }
    assert Project(r).Keys == payload.Keys;
  }

  /** The record still tells the truth about its digest, and its payload would pass the gate again. */
  predicate Truthful(env: Env, rec: PolicyRecord) {
    var closed := Project(rec.payload);
    && Digestible(Obj(closed))
    && Canonical(closed) == closed
    && rec.payloadSHA256 == Trim(env.hash(closed))
    && GateFailure(closed).None?
  }

  lemma JustifiedIsTruthful(env: Env, cfg: Config, s: State, step: Step, rec: PolicyRecord)
    requires Justifies(env, cfg, s, step, rec)
    ensures Truthful(env, rec)
  {
    hide Trim, GateFailure, VerifyFailure, W2Failure, Stamped, AuthDomain, Project;
    var root := step.req.payload;
    var c := Canonical(root.fields);
    CanonicalFixedPoint(env.hash, root);
    assert Digestible(Obj(c)) && Canonical(c) == c;
    ProjectStamped(c, rec.scanID, rec.wallet, rec.chainID, PrintInstant(env.times, rec.createdAt));
  }

  /** Stored digests stay true in every reachable state. */
  lemma StoredDigestStaysTrue(env: Env, cfg: Config, init: State, steps: seq<Step>, id: string)
    requires StartsEmpty(init) && FreshIDs(env, cfg, init, steps)
    requires id in After(env, cfg, init, steps).store
    ensures Truthful(env, After(env, cfg, init, steps).store[id])
  {
    hide Justifies, Truthful, FreshIDs;
    EveryRecordJustified(env, cfg, init, steps, id);
    var rec := After(env, cfg, init, steps).store[id];
    var i :| 0 <= i < |steps| && InsertedAt(env, cfg, init, steps, i, id, rec);
    JustifiedIsTruthful(env, cfg, After(env, cfg, init, steps[..i]), steps[i], rec);
  }

  /** The signed message behind a record names its wallet, chain, scan and digest, and was signed by that wallet. */
  lemma RecordWasAuthorized(env: Env, cfg: Config, init: State, steps: seq<Step>, id: string)
    returns (i: nat, parsed: Fields)
    requires StartsEmpty(init) && FreshIDs(env, cfg, init, steps)
    requires id in After(env, cfg, init, steps).store
    ensures i < |steps| && steps[i].Persist?
    ensures var rec, req := After(env, cfg, init, steps).store[id], steps[i].req;
            && Parsed(env.times, req.signedMessage) == Some(parsed)
            && parsed.action == PERSIST_ACTION
            && NormalizeWallet(parsed.wallet) == Some(rec.wallet)
            && Signer(env, req.signedMessage, req.signature) == Some(rec.wallet)
            && parsed.chainID == rec.chainID
            && Trim(parsed.scanID) == rec.scanID
            && EqualFold(rec.payloadSHA256, Trim(parsed.payloadSHA256))
            && parsed.issuedAt - EffectiveSkew(cfg) <= rec.createdAt - steps[i].toCreate <= parsed.expiresAt
  {
    hide FreshIDs, Trim, GateFailure, VerifyFailure, W2Failure, Stamped, AuthDomain, Parsed, BuildMessage, Signer,
         EqualFold, DigestOf, NormalizeWallet, After;
    EveryRecordJustified(env, cfg, init, steps, id);
    var rec := After(env, cfg, init, steps).store[id];
    i :| 0 <= i < |steps| && InsertedAt(env, cfg, init, steps, i, id, rec);
    var s := After(env, cfg, init, steps[..i]);
    var step := steps[i];
    var digest := DigestOf(env.hash, step.req.payload).value.digest;
    var input := InsertAuth(cfg, s, step, rec, digest);
    parsed := AuthorizedBinds(env, input);
    RecordTexts(env, cfg, init, steps, id);
  }

  // ----------------------------------------------------------- W1 over runs

  lemma ClosedHasNoRival(payload: Object)
    requires ClosedKeys(payload)
    ensures RivalTarget(payload) == ""
  {
    hide Trim;
    ClosedHasNoContext(payload);
    assert |"selected_wallet_policy_context"| == 30 && |"target_address"| == 14 && |"schema_version"| == 14;
    assert "target_address"[0] == 't' && "schema_version"[0] == 's';
    RivalKeysNotClosed();
    assert ObjectAt(payload, "policy_context") == map[];
    assert ObjectAt(payload, "selected_wallet_policy_context") == map[];
    EmptyContexts();
  }

  lemma RivalKeysNotClosed()
    ensures "selected_wallet_policy_context" !in CLOSED_FIELDS && "target_address" !in CLOSED_FIELDS
  {
    assert |"selected_wallet_policy_context"| == 30 && |"target_address"| == 14 && |"schema_version"| == 14;
    assert "target_address"[0] == 't' && "schema_version"[0] == 's';
    assert |"crypto_policy_id"| == 16 && |"required_posture"| == 16 && |"user_constraints"| == 16;
    assert |"solution_profile_ref"| == 20 && |"accepted_provider_snapshot"| == 26 && |"accepted_findings"| == 17;
  }

  predicate OneLineRecord(rec: PolicyRecord) {
    Trim(rec.scanID) == rec.scanID && NormalizeWallet(rec.wallet) == Some(rec.wallet)
  }

  predicate OneLineRecords(store: Store) {
    forall id :: id in store ==> OneLineRecord(store[id])
  }

  lemma InsertKeepsW1(env: Env, store: Store, principal: Principal, req: PersistRequest, a: Admitted, createNow: int,
                      id: string)
    requires W1(store) && OneLineRecords(store) && id !in store
    requires NormalizeWallet(req.wallet) == Some(a.wallet) && NormalizeScanID(req.scanID) == Some(a.scanID)
    requires ClosedKeys(a.canonical)
    ensures var after := OwnerStore.Apply(store, CreateOp(principal, InsertInput(env, req, a, createNow), id));
            W1(after) && OneLineRecords(after)
  {
    hide Trim, NormalizeWallet, NormalizeScanID, Stamped, Taken, W1, RivalTarget, ClosedKeys;
    var input := InsertInput(env, req, a, createNow);
    ClosedHasNoRival(a.canonical);
    NormalWalletFixed(a.wallet);
    NormalScanIDFixed(req.scanID);
    if CreateFailure(store, principal, input).None? {
      CreateKeepsW1(store, principal, input, id);
    }
  }

  lemma AdmittedIsClosed(env: Env, root: Json, d: Digested)
    requires DigestOf(env.hash, root) == Some(d)
    ensures ClosedKeys(d.canonical)
  {
    hide AllowedSubtree, StringArray, NormalizeFindings;
  }

  lemma PersistKeepsW1(env: Env, cfg: Config, s: State, step: Step)
    requires step.Persist? && W1(s.store) && OneLineRecords(s.store) && step.id !in s.store
    ensures W1(Next(env, cfg, s, step).store) && OneLineRecords(Next(env, cfg, s, step).store)
  {
    hide NormalizeWallet, NormalizeScanID, W2Failure, DigestOf, GateFailure, Authorized, Admission, InsertInput, W1,
         OneLineRecords, OwnerStore.Apply, StoreAfterDelete, AuthInput;
    var verifyNow := s.now + step.toVerify;
    var createNow := verifyNow + step.toCreate;
    var admitted := Admission(env, cfg, s.oracle, step.principal, step.req, verifyNow);
    if admitted.Ok? {
      AdmissionMeans(env, cfg, s.oracle, step.principal, step.req, verifyNow);
      var a := admitted.value;
      AdmittedIsClosed(env, step.req.payload, Digested(a.digest, a.canonical));
      InsertKeepsW1(env, s.store, step.principal, step.req, a, createNow, step.id);
    }
  }

  lemma DeleteStepKeepsW1(s: State, principal: Principal, id: string)
    requires W1(s.store)
    ensures W1(StoreAfterDelete(s.store, principal, id))
    ensures forall k :: k in StoreAfterDelete(s.store, principal, id) ==>
              k in s.store && StoreAfterDelete(s.store, principal, id)[k] == s.store[k]
  {
    hide Trim, OnePerWallet, CounterReads;
    DeleteKeeps(s.store, Trim(id));
  }

  /** In every reachable state an owner has at most one policy per wallet, and the counter knows it. */
  lemma {:induction false} ReachableW1(env: Env, cfg: Config, init: State, steps: seq<Step>)
    requires StartsEmpty(init) && FreshIDs(env, cfg, init, steps)
    ensures W1(After(env, cfg, init, steps).store)
    ensures OneLineRecords(After(env, cfg, init, steps).store)
  {
    hide W1, StoreAfterPersist, StoreAfterDelete, OneLineRecord;
    if steps == [] {
      EmptyW1();
    } else {
      var n := |steps| - 1;
      FreshPrefix(env, cfg, init, steps);
      ReachableW1(env, cfg, init, steps[..n]);
      var s := After(env, cfg, init, steps[..n]);
      match steps[n]
      case Persist(_, _, _, _, _) =>
        assert FreshAt(env, cfg, init, steps, n);
        PersistKeepsW1(env, cfg, s, steps[n]);
      case Delete(p, id) => DeleteStepKeepsW1(s, p, id);
      case _ =>
    }
  }

  lemma RecordTexts(env: Env, cfg: Config, init: State, steps: seq<Step>, id: string)
    requires StartsEmpty(init) && FreshIDs(env, cfg, init, steps)
    requires id in After(env, cfg, init, steps).store
    ensures OneLineRecord(After(env, cfg, init, steps).store[id])
  {
    hide FreshIDs, After, OneLineRecord, W1;
    ReachableW1(env, cfg, init, steps);
  }

  // ------------------------------------------------------ one message, one matter

  lemma JustifiedAuth(env: Env, cfg: Config, s: State, step: Step, rec: PolicyRecord) returns (input: VerifyInput)
    requires Justifies(env, cfg, s, step, rec)
    ensures Authorized(env, input) && input.signedMessage == step.req.signedMessage
    ensures input.wallet == rec.wallet && input.chainID == rec.chainID && input.scanID == rec.scanID
    ensures Trim(input.payloadSHA256) == rec.payloadSHA256
  {
    hide Trim, GateFailure, VerifyFailure, W2Failure, Stamped, AuthDomain, DigestOf, NormalizeWallet, NormalizeScanID;
    input := InsertAuth(cfg, s, step, rec, DigestOf(env.hash, step.req.payload).value.digest);
  }

  /**
   Two live records that rest on the same signed message are about the same wallet, chain, scan
   and digest, whoever persisted them and whenever; one owner has at most one of them.
   */
  lemma OneMessageOneMatter(env: Env, cfg: Config, init: State, steps: seq<Step>, i: nat, id: string, j: nat,
                            other: string)
    requires StartsEmpty(init) && FreshIDs(env, cfg, init, steps)
    requires var store := After(env, cfg, init, steps).store;
             && id in store && i < |steps| && InsertedAt(env, cfg, init, steps, i, id, store[id])
             && other in store && j < |steps| && InsertedAt(env, cfg, init, steps, j, other, store[other])
    requires steps[i].req.signedMessage == steps[j].req.signedMessage
    ensures var store := After(env, cfg, init, steps).store;
            && store[id].wallet == store[other].wallet
            && store[id].chainID == store[other].chainID
            && store[id].scanID == store[other].scanID
            && store[id].payloadSHA256 == store[other].payloadSHA256
            && (store[id].owner == store[other].owner ==> id == other)
  {
    hide FreshIDs, After, Justifies, Authorized, Trim, DigestOf, NormalizeWallet, AuthDomain, WellStored, CounterReads;
    var store := After(env, cfg, init, steps).store;
    var a := JustifiedAuth(env, cfg, After(env, cfg, init, steps[..i]), steps[i], store[id]);
    var b := JustifiedAuth(env, cfg, After(env, cfg, init, steps[..j]), steps[j], store[other]);
    UnambiguousAuthorization(env, a, b);
    RecordTexts(env, cfg, init, steps, id);
    RecordTexts(env, cfg, init, steps, other);
    ReachableW1(env, cfg, init, steps);
  }

  /** Step i of a run stored a policy. */
  predicate StoredAt(env: Env, cfg: Config, init: State, steps: seq<Step>, i: nat)
    requires i < |steps|
  {
    steps[i].Persist? && steps[i].id in After(env, cfg, init, steps[..i + 1]).store
  }

  lemma AfterNext(env: Env, cfg: Config, init: State, steps: seq<Step>, i: nat)
    requires i < |steps|
    ensures After(env, cfg, init, steps[..i + 1]) == Next(env, cfg, After(env, cfg, init, steps[..i]), steps[i])
  {
    hide Next;
    assert steps[..i + 1][..i] == steps[..i];
  }

  lemma FreshUpTo(env: Env, cfg: Config, init: State, steps: seq<Step>, n: nat)
    requires FreshIDs(env, cfg, init, steps) && n <= |steps|
    ensures FreshIDs(env, cfg, init, steps[..n])
  {
    hide After;
    var front := steps[..n];
    forall i | 0 <= i < |front| && front[i].Persist? ensures FreshAt(env, cfg, init, front, i) {
      assert FreshAt(env, cfg, init, steps, i);
      assert front[..i] == steps[..i];
    }
  }

  lemma StoredIsJustified(env: Env, cfg: Config, init: State, steps: seq<Step>, i: nat) returns (input: VerifyInput)
    requires FreshIDs(env, cfg, init, steps) && i < |steps| && StoredAt(env, cfg, init, steps, i)
    ensures var rec := After(env, cfg, init, steps[..i + 1]).store[steps[i].id];
            && rec.owner == steps[i].principal.AsOwner()
            && NormalizeWallet(rec.wallet) == Some(rec.wallet)
            && Authorized(env, input) && input.signedMessage == steps[i].req.signedMessage && input.wallet == rec.wallet
  {
    hide After, Next, NormalizeWallet, Authorized, W2Failure, DigestOf, GateFailure, Stamped, Trim, NormalizeScanID;
    var s := After(env, cfg, init, steps[..i]);
    AfterNext(env, cfg, init, steps, i);
    assert FreshAt(env, cfg, init, steps, i);
    PersistInserts(env, cfg, s, steps[i]);
    var rec := After(env, cfg, init, steps[..i + 1]).store[steps[i].id];
    NormalWalletFixed(rec.wallet);
    input := JustifiedAuth(env, cfg, s, steps[i], rec);
  }

  /**
   A message carries no nonce, yet one owner never has two policies from it: between two steps of
   a run that store a policy for one owner on one message, that owner deleted the first.
   */
  lemma SecondUseNeedsDelete(env: Env, cfg: Config, init: State, steps: seq<Step>, i: nat, j: nat)
    requires StartsEmpty(init) && FreshIDs(env, cfg, init, steps) && i < j < |steps|
    requires StoredAt(env, cfg, init, steps, i) && StoredAt(env, cfg, init, steps, j)
    requires steps[i].principal.AsOwner() == steps[j].principal.AsOwner()
    requires steps[i].req.signedMessage == steps[j].req.signedMessage
    ensures exists d :: i < d < j && DeletesOwn(steps[d], steps[i].id, steps[i].principal.AsOwner())
  {
    hide After, Next, FreshIDs, FreshAt, StartsEmpty, DeletesOwn, W1, SameTarget, OneLineRecords;
    if forall d :: i < d < j ==> !DeletesOwn(steps[d], steps[i].id, steps[i].principal.AsOwner()) {
      BothStored(env, cfg, init, steps, i, j);
      FreshUpTo(env, cfg, init, steps, j + 1);
      ReachableW1(env, cfg, init, steps[..j + 1]);
      UniqueHolder(After(env, cfg, init, steps[..j + 1]).store, steps[i].id, steps[j].id);
      assert false;
    }
  }

  /** Undeleted, the first record would stand beside the second, for the same owner and wallet. */
  lemma BothStored(env: Env, cfg: Config, init: State, steps: seq<Step>, i: nat, j: nat)
    requires FreshIDs(env, cfg, init, steps) && i < j < |steps|
    requires StoredAt(env, cfg, init, steps, i) && StoredAt(env, cfg, init, steps, j)
    requires steps[i].principal.AsOwner() == steps[j].principal.AsOwner()
    requires steps[i].req.signedMessage == steps[j].req.signedMessage
    requires forall d :: i < d < j ==> !DeletesOwn(steps[d], steps[i].id, steps[i].principal.AsOwner())
    ensures var store := After(env, cfg, init, steps[..j + 1]).store;
            && steps[i].id in store && steps[j].id in store && steps[i].id != steps[j].id
            && SameTarget(store[steps[i].id], store[steps[j].id])
  {
    hide After, NormalizeWallet, Authorized, FreshIDs, DeletesOwn, Trim;
    var a := StoredIsJustified(env, cfg, init, steps, i);
    var b := StoredIsJustified(env, cfg, init, steps, j);
    UnambiguousAuthorization(env, a, b);
    StillThere(env, cfg, init, steps, i, j);
  }

  /** Undeleted, the record of step i outlives the insertion at step j. */
  lemma StillThere(env: Env, cfg: Config, init: State, steps: seq<Step>, i: nat, j: nat)
    requires FreshIDs(env, cfg, init, steps) && i < j < |steps|
    requires StoredAt(env, cfg, init, steps, i) && StoredAt(env, cfg, init, steps, j)
    requires forall d :: i < d < j ==> !DeletesOwn(steps[d], steps[i].id, steps[i].principal.AsOwner())
    ensures var later := After(env, cfg, init, steps[..j + 1]).store;
            && steps[i].id in later && later[steps[i].id] == After(env, cfg, init, steps[..i + 1]).store[steps[i].id]
            && steps[i].id != steps[j].id
  {
    hide After, Next, DeletesOwn, NormalizeWallet, Authorized;
    var run, id := steps[..j], steps[i].id;
    var _ := StoredIsJustified(env, cfg, init, steps, i);
    FreshUpTo(env, cfg, init, steps, j);
    assert run[..i + 1] == steps[..i + 1];
    assert forall d :: i + 1 <= d < |run| ==> run[d] == steps[d];
    RecordsStayOverRuns(env, cfg, init, run, i + 1, id);
    assert FreshAt(env, cfg, init, steps, j);
    AfterNext(env, cfg, init, steps, j);
    KeptByPersist(env, cfg, After(env, cfg, init, run), steps[j], id);
  }

  lemma KeptByPersist(env: Env, cfg: Config, s: State, step: Step, id: string)
    requires step.Persist? && step.id !in s.store && id in s.store
    ensures id in Next(env, cfg, s, step).store && Next(env, cfg, s, step).store[id] == s.store[id]
  {
    hide Next, Justifies;
    PersistInserts(env, cfg, s, step);
  }

  /** The gates depend on the caller only through discovery: neither user nor tenant is part of the message. */
  lemma AdmissionIgnoresCaller(env: Env, cfg: Config, oracle: Oracle, p: Principal, q: Principal, req: PersistRequest,
                               now: int)
    requires oracle(p, CanonicalWallet(req.wallet)) == oracle(q, CanonicalWallet(req.wallet))
    ensures Admission(env, cfg, oracle, p, req, now) == Admission(env, cfg, oracle, q, req, now)
  {
    hide RequestFailure, DigestOf, VerifyFailure, GateFailure, CanonicalWallet, NormalizeScanID, Trim, EqualFold,
         AuthInput;
  }

  /** The message of the request can be read and has not expired at this instant. */
  predicate NotExpired(env: Env, req: PersistRequest, now: int) {
    var parsed := Parsed(env.times, req.signedMessage);
    parsed.Some? && now <= parsed.value.expiresAt
  }

  /** What is admitted once stays admitted, with the same result, until the message expires. */
  lemma AdmittedUntilExpiry(env: Env, cfg: Config, oracle: Oracle, p: Principal, req: PersistRequest, now: int,
                            later: int)
    requires Admission(env, cfg, oracle, p, req, now).Ok? && now <= later && NotExpired(env, req, later)
    ensures Admission(env, cfg, oracle, p, req, later) == Admission(env, cfg, oracle, p, req, now)
  {
    hide Trim, NormalizeWallet, NormalizeScanID, W2Failure, DigestOf, GateFailure, VerifyFailure, Parsed, Skew;
    AdmissionMeans(env, cfg, oracle, p, req, now);
    var a := Admission(env, cfg, oracle, p, req, now).value;
    var input := AuthInput(cfg, req, a.digest, now);
    AcceptedInstants(env, input, later);
    AcceptedInstants(env, input, now);
    assert input.(now := later) == AuthInput(cfg, req, a.digest, later);
  }

  lemma PersistedAgain(env: Env, cfg: Config, oracle: Oracle, store: Store, p: Principal, req: PersistRequest,
                       now: int, createNow: int, later: int, laterCreate: int)
    requires PersistFailure(env, cfg, oracle, store, p, req, now, createNow) == None
    requires now <= later && NotExpired(env, req, later)
    ensures PersistFailure(env, cfg, oracle, store, p, req, later, laterCreate) == None
  {
    hide Admission, Taken, Trim, NormalizeWallet, NotExpired;
    AdmittedUntilExpiry(env, cfg, oracle, p, req, now, later);
  }

  /** Persisting and deleting is as if nothing had happened, so the same request is good again until it expires. */
  lemma DeletedCanBePersistedAgain(env: Env, cfg: Config, oracle: Oracle, store: Store, p: Principal,
                                   req: PersistRequest, now: int, createNow: int, id: string, later: int,
                                   laterCreate: int)
    requires PersistFailure(env, cfg, oracle, store, p, req, now, createNow) == None
    requires id !in store && id != "" && Trim(id) == id
    requires now <= later && NotExpired(env, req, later)
    ensures var held := StoreAfterPersist(env, cfg, oracle, store, p, req, now, createNow, id);
            && id in held && StoreAfterDelete(held, p, id) == store
            && PersistFailure(env, cfg, oracle, StoreAfterDelete(held, p, id), p, req, later, laterCreate) == None
  {
    hide Admission, Taken, Trim, NormalizeWallet, NotExpired, Stamped;
    PersistedAgain(env, cfg, oracle, store, p, req, now, createNow, later, laterCreate);
    var held := StoreAfterPersist(env, cfg, oracle, store, p, req, now, createNow, id);
    assert held - {id} == store;
  }

  lemma TwoInserts(env: Env, store: Store, p: Principal, q: Principal, req: PersistRequest, a: Admitted, createNow: int,
                   id: string, laterCreate: int, other: string)
    requires CreateFailure(store, p, InsertInput(env, req, a, createNow)) == None
    requires id !in store && other != id && q.Authenticated() && q.AsOwner() != p.AsOwner()
    requires !Taken(store, q.AsOwner(), CanonicalWallet(a.wallet))
    ensures var held := OwnerStore.Apply(store, CreateOp(p, InsertInput(env, req, a, createNow), id));
            var both := OwnerStore.Apply(held, CreateOp(q, InsertInput(env, req, a, laterCreate), other));
            && CreateFailure(held, q, InsertInput(env, req, a, laterCreate)) == None
            && id in both && both[id].owner == p.AsOwner()
            && other in both && both[other].owner == q.AsOwner()
            && both[id].wallet == both[other].wallet && both[id].payloadSHA256 == both[other].payloadSHA256
  {
    hide Taken, Trim, NormalizeWallet, Stamped;
    CreateKeepsOthersFree(store, p, InsertInput(env, req, a, createNow), id, q.AsOwner(), CanonicalWallet(a.wallet));
  }

  /** Another owner may persist the very same request: both then hold a policy from one message. */
  lemma TwoOwnersOneMessage(env: Env, cfg: Config, oracle: Oracle, store: Store, p: Principal, q: Principal,
                            req: PersistRequest, now: int, createNow: int, id: string, later: int, laterCreate: int,
                            other: string)
    requires PersistFailure(env, cfg, oracle, store, p, req, now, createNow) == None
    requires id !in store && other !in store && other != id
    requires q.Authenticated() && q.AsOwner() != p.AsOwner()
    requires oracle(p, CanonicalWallet(req.wallet)) == oracle(q, CanonicalWallet(req.wallet))
    requires !Taken(store, q.AsOwner(), CanonicalWallet(req.wallet))
    requires now <= later && NotExpired(env, req, later)
    ensures var held := StoreAfterPersist(env, cfg, oracle, store, p, req, now, createNow, id);
            var both := StoreAfterPersist(env, cfg, oracle, held, q, req, later, laterCreate, other);
            && PersistFailure(env, cfg, oracle, held, q, req, later, laterCreate) == None
            && id in both && both[id].owner == p.AsOwner()
            && other in both && both[other].owner == q.AsOwner()
            && both[id].wallet == both[other].wallet && both[id].payloadSHA256 == both[other].payloadSHA256
  {
    hide Admission, Taken, CreateFailure, OwnerStore.Apply, InsertInput, CanonicalWallet, NormalizeWallet, NotExpired,
         W2Failure, DigestOf, GateFailure, Authorized, NormalizeScanID, Trim, CanonicalScanID, AuthInput;
    AdmittedUntilExpiry(env, cfg, oracle, p, req, now, later);
    AdmissionIgnoresCaller(env, cfg, oracle, p, q, req, later);
    AdmissionMeans(env, cfg, oracle, p, req, now);
    var a := Admission(env, cfg, oracle, p, req, now).value;
    CanonicalFixed(req.wallet);
    TwoInserts(env, store, p, q, req, a, createNow, id, laterCreate, other);
  }

  lemma CanonicalFixed(wallet: string)
    requires NormalizeWallet(wallet).Some?
    ensures CanonicalWallet(CanonicalWallet(wallet)) == CanonicalWallet(wallet)
  {
    hide NormalizeWallet;
    NormalWalletFixed(CanonicalWallet(wallet));
  }

  // ------------------------------------------------------------- isolation

  /** The run with every other owner's requests replaced by the time they took. */
  function Purge(steps: seq<Step>, owner: Owner): (r: seq<Step>)
    ensures |r| == |steps|
  {
    if steps == [] then []
    else
      var n := |steps| - 1;
      Purge(steps[..n], owner) + [PurgeStep(steps[n], owner)]
  }

  function PurgeStep(step: Step, owner: Owner): (r: Step) {
    match step
    case Persist(p, _, toVerify, toCreate, _) => if p.AsOwner() == owner then step else Tick(toVerify + toCreate)
    case Delete(p, _) => if p.AsOwner() == owner then step else Tick(0)
    case _ => step
  }

  lemma RecordsOfTwice(store: Store, owner: Owner)
    ensures RecordsOf(RecordsOf(store, owner), owner) == RecordsOf(store, owner)
  {
  }

  lemma GrowOwn(store: Store, id: string, rec: PolicyRecord, owner: Owner)
    requires id !in store
    ensures RecordsOf(store[id := rec], owner) ==
            if rec.owner == owner then RecordsOf(store, owner)[id := rec] else RecordsOf(store, owner)
  {
  }

  lemma CreateIsolated(store: Store, principal: Principal, input: CreateInput, id: string, owner: Owner)
    requires id !in store
    ensures RecordsOf(OwnerStore.Apply(store, CreateOp(principal, input, id)), owner) ==
            if principal.AsOwner() == owner
              then OwnerStore.Apply(RecordsOf(store, owner), CreateOp(principal, input, id))
            else RecordsOf(store, owner)
  {
    hide RecordsOf, CreateInputFailure, NewRecord, Taken, CanonicalWallet;
    var wallet := CanonicalWallet(input.wallet);
    var own := RecordsOf(store, owner);
    RecordsOfTwice(store, owner);
    CountsDependOnOwner(store, own, owner, wallet);
    NewRecordOwner(principal, input, wallet, id);
    GrowOwn(store, id, NewRecord(principal, input, wallet, id), owner);
  }

  lemma PersistIsolated(env: Env, cfg: Config, s: State, t: State, step: Step, owner: Owner)
    requires step.Persist? && step.id !in s.store
    requires t == State(RecordsOf(s.store, owner), s.oracle, s.now)
    ensures var s' := Next(env, cfg, s, step);
            Next(env, cfg, t, PurgeStep(step, owner)) == State(RecordsOf(s'.store, owner), s'.oracle, s'.now)
  {
    hide Admission, OwnerStore.Apply, RecordsOf, InsertInput, StoreAfterDelete;
    var verifyNow := s.now + step.toVerify;
    var createNow := verifyNow + step.toCreate;
    var admitted := Admission(env, cfg, s.oracle, step.principal, step.req, verifyNow);
    if admitted.Ok? {
      CreateIsolated(s.store, step.principal, InsertInput(env, step.req, admitted.value, createNow), step.id, owner);
    }
  }

  lemma NewRecordOwner(principal: Principal, input: CreateInput, wallet: string, id: string)
    ensures NewRecord(principal, input, wallet, id).owner == principal.AsOwner()
  {
  }

  lemma DeleteIsolated(s: State, t: State, principal: Principal, id: string, owner: Owner)
    requires t.store == RecordsOf(s.store, owner)
    ensures var gone := StoreAfterDelete(s.store, principal, id);
            RecordsOf(gone, owner) == if principal.AsOwner() == owner then StoreAfterDelete(t.store, principal, id)
              else t.store
  {
    hide Trim;
    var k := Trim(id);
    var gone := StoreAfterDelete(s.store, principal, id);
    assert RecordsOf(s.store - {k}, owner) == RecordsOf(s.store, owner) - {k};
    if principal.AsOwner() != owner && gone != s.store {
      assert RecordsOf(s.store, owner) - {k} == RecordsOf(s.store, owner);
    }
  }

  /**
   Owner isolation over whole runs: what an owner has stored is what they would have stored had
   every other owner's requests never been made.
   */
  lemma {:induction false} OwnersDoNotInterfere(env: Env, cfg: Config, init: State, steps: seq<Step>, owner: Owner)
    requires StartsEmpty(init) && FreshIDs(env, cfg, init, steps)
    ensures var s := After(env, cfg, init, steps);
            After(env, cfg, init, Purge(steps, owner)) == State(RecordsOf(s.store, owner), s.oracle, s.now)
  {
    hide StoreAfterPersist, StoreAfterDelete;
    if steps == [] {
      assert RecordsOf(init.store, owner) == map[];
    } else {
      var n := |steps| - 1;
      FreshPrefix(env, cfg, init, steps);
      OwnersDoNotInterfere(env, cfg, init, steps[..n], owner);
      var s := After(env, cfg, init, steps[..n]);
      var t := After(env, cfg, init, Purge(steps[..n], owner));
      var p := Purge(steps, owner);
      assert p[..|p| - 1] == Purge(steps[..n], owner) && p[|p| - 1] == PurgeStep(steps[n], owner);
      match steps[n]
      case Persist(_, _, _, _, _) =>
        assert FreshAt(env, cfg, init, steps, n);
        PersistIsolated(env, cfg, s, t, steps[n], owner);
      case Delete(pr, id) => DeleteIsolated(s, t, pr, id, owner);
      case _ =>
    }
  }
}
