/**
 internal/walletauth/verify.go: what makes a signed message an authorization. Signature
 recovery is a function from message and signature to an address.
 */
module WalletAuth {
  import opened Wrappers
  import opened Text
  import opened WalletTarget
  import opened Message
  import opened PayloadHash

  /** The outside world: hashing, signature recovery and timestamps. */
  datatype Env = Env(hash: Hash, recover: (string, string) -> Option<string>, times: TimeText)

  const MAX_VALIDITY: int := 600 * NANOS
  const DEFAULT_SKEW: int := 30 * NANOS

  datatype VerifyInput = VerifyInput(
    domain: string, wallet: string, chainID: Int64, scanID: string, payloadSHA256: string,
    signedMessage: string, signature: string, now: int, clockSkew: int)

  datatype AuthError =
    | ControlProofRequired | InvalidSignature | ValidityTooLong | Expired | NotYetValid
    | ActionMismatch | PayloadMismatch | ScanMismatch | ChainMismatch | WalletMismatch | SignerMismatch

  function Skew(clockSkew: int): (r: int)
    ensures r > 0
  {
    if clockSkew <= 0 then DEFAULT_SKEW else clockSkew
  }

  function FreshnessFailure(issuedAt: int, expiresAt: int, now: int, skew: int): (r: Option<AuthError>) {
    if expiresAt - issuedAt > MAX_VALIDITY then Some(ValidityTooLong)
    else if now > expiresAt then Some(Expired)
    else if issuedAt > now + skew then Some(NotYetValid)
    else None
  }

  /** compareBindings never looks at the domain. */
  function BindingFailure(parsed: Fields, input: VerifyInput): (r: Option<AuthError>) {
    var wantSHA := Trim(input.payloadSHA256);
    var gotSHA := Trim(parsed.payloadSHA256);
    if parsed.action != PERSIST_ACTION then Some(ActionMismatch)
    else if wantSHA == "" || gotSHA == "" || !EqualFold(wantSHA, gotSHA) then Some(PayloadMismatch)
    else if Trim(parsed.scanID) != Trim(input.scanID) then Some(ScanMismatch)
    else if parsed.chainID != input.chainID then Some(ChainMismatch)
    else
      var want := NormalizeWallet(input.wallet);
      var got := NormalizeWallet(parsed.wallet);
      if want.None? || got.None? || !SameWallet(got.value, want.value) then Some(WalletMismatch) else None
  }

  function WalletForMessage(address: string): (r: string) {
    var n := NormalizeWallet(address);
    if n.None? then Trim(address) else n.value
  }

  /** The fields the server itself would have printed. */
  function ExpectedFields(parsed: Fields, input: VerifyInput): (r: Fields) {
    Fields(input.domain, PERSIST_ACTION, WalletForMessage(input.wallet), input.chainID, Trim(input.scanID),
      Trim(input.payloadSHA256), parsed.issuedAt, parsed.expiresAt)
  }

  /** RecoverSignerAddress: the recovered address in canonical form. */
  function Signer(env: Env, message: string, signature: string): (r: Option<string>)
    ensures r.Some? ==> IsNormalWallet(r.value)
  {
    match env.recover(message, signature)
    case None => None
    case Some(a) => NormalizeWallet(a)
  }

  function SignatureFailure(env: Env, input: VerifyInput): (r: Option<AuthError>) {
    var signer := Signer(env, input.signedMessage, input.signature);
    var want := NormalizeWallet(input.wallet);
    if signer.None? then Some(InvalidSignature)
    else if want.None? then Some(WalletMismatch)
    else if !SameWallet(signer.value, want.value) then Some(SignerMismatch)
    else None
  }

  /** VerifyAuthorization: the first check that fails, if any. */
  function VerifyFailure(env: Env, input: VerifyInput): (r: Option<AuthError>) {
    if Trim(input.signedMessage) == "" || Trim(input.signature) == "" then Some(ControlProofRequired)
    else
      match Parsed(env.times, input.signedMessage)
      case None => Some(InvalidSignature)
      case Some(parsed) =>
        var stale := FreshnessFailure(parsed.issuedAt, parsed.expiresAt, input.now, Skew(input.clockSkew));
        var bound := BindingFailure(parsed, input);
        if stale.Some? then stale
        else if bound.Some? then bound
        else if input.signedMessage != BuildMessage(env.times, ExpectedFields(parsed, input))
          then Some(InvalidSignature)
        else SignatureFailure(env, input)
  }

  predicate Authorized(env: Env, input: VerifyInput) {
    VerifyFailure(env, input).None?
  }

  // ---------------------------------------------------------------- soundness

  /** What an accepted authorization has established. */
  predicate Binds(env: Env, input: VerifyInput, parsed: Fields) {
    && Parsed(env.times, input.signedMessage) == Some(parsed)
    && parsed.action == PERSIST_ACTION
    && NormalizeWallet(input.wallet).Some?
    && NormalizeWallet(parsed.wallet) == NormalizeWallet(input.wallet)
    && Signer(env, input.signedMessage, input.signature) == NormalizeWallet(input.wallet)
    && parsed.chainID == input.chainID
    && Trim(parsed.scanID) == Trim(input.scanID)
    && Trim(input.payloadSHA256) != ""
    && EqualFold(Trim(input.payloadSHA256), Trim(parsed.payloadSHA256))
    && input.signedMessage == BuildMessage(env.times, ExpectedFields(parsed, input))
    && parsed.issuedAt - Skew(input.clockSkew) <= input.now <= parsed.expiresAt
    && parsed.expiresAt - parsed.issuedAt <= MAX_VALIDITY
  }

  /** The message names the wallet, chain, scan and digest, the wallet signed it, and it is fresh. */
  lemma AuthorizedBinds(env: Env, input: VerifyInput) returns (parsed: Fields)
    requires Authorized(env, input)
    ensures Binds(env, input, parsed)
  {
    hide Trim, NormalizeWallet, BuildMessage, Parsed, SameWallet, EqualFold;
    parsed := Parsed(env.times, input.signedMessage).value;
    var want := NormalizeWallet(input.wallet).value;
    NormalWalletFixed(want);
    NormalWalletFixed(NormalizeWallet(parsed.wallet).value);
    SameWalletAsNormal(NormalizeWallet(parsed.wallet).value, want);
    NormalWalletFixed(Signer(env, input.signedMessage, input.signature).value);
    SameWalletAsNormal(Signer(env, input.signedMessage, input.signature).value, want);
  }

  /** And nothing else is asked: these conditions are all there is to an authorization. */
  lemma AuthorizedExact(env: Env, input: VerifyInput)
    ensures Authorized(env, input) <==>
            && Trim(input.signature) != ""
            && Parsed(env.times, input.signedMessage).Some?
            && Binds(env, input, Parsed(env.times, input.signedMessage).value)
  {
    hide Trim, NormalizeWallet, BuildMessage, Parsed, SameWallet, Lower, Signer;
    if Authorized(env, input) {
      var _ := AuthorizedBinds(env, input);
    }
    if Trim(input.signature) != "" && Parsed(env.times, input.signedMessage).Some?
       && Binds(env, input, Parsed(env.times, input.signedMessage).value) {
      var parsed := Parsed(env.times, input.signedMessage).value;
      BuiltNotBlank(env, ExpectedFields(parsed, input));
      var want := NormalizeWallet(input.wallet).value;
      NormalWalletFixed(want);
      SameWalletAsNormal(want, want);
      assert |Trim(parsed.payloadSHA256)| == |Lower(Trim(parsed.payloadSHA256))| == |Trim(input.payloadSHA256)|;
    }
  }

  /** Which refusal is given: that of the first condition that fails, in this order. */
  lemma VerifyRefusals(env: Env, input: VerifyInput)
    ensures var r := VerifyFailure(env, input);
            var proof := Trim(input.signedMessage) != "" && Trim(input.signature) != "";
            && (!proof ==> r == Some(ControlProofRequired))
            && (proof && Parsed(env.times, input.signedMessage).None? ==> r == Some(InvalidSignature))
            && (proof && Parsed(env.times, input.signedMessage).Some? ==>
                  var f := Parsed(env.times, input.signedMessage).value;
                  var short := f.expiresAt - f.issuedAt <= 600 * 1_000_000_000;
                  var timely := short && f.issuedAt - Skew(input.clockSkew) <= input.now <= f.expiresAt;
                  var action := timely && f.action == "persist_crypto_policy";
                  var digest := action && Trim(input.payloadSHA256) != ""
                                && Lower(Trim(input.payloadSHA256)) == Lower(Trim(f.payloadSHA256));
                  var scan := digest && Trim(f.scanID) == Trim(input.scanID);
                  var chain := scan && f.chainID == input.chainID;
                  var wallet := chain && NormalizeWallet(input.wallet).Some?
                                && NormalizeWallet(f.wallet) == NormalizeWallet(input.wallet);
                  var text := wallet && input.signedMessage == BuildMessage(env.times, ExpectedFields(f, input));
                  && (!short ==> r == Some(ValidityTooLong))
                  && (short && input.now > f.expiresAt ==> r == Some(Expired))
                  && (short && input.now <= f.expiresAt && !timely ==> r == Some(NotYetValid))
                  && (timely && !action ==> r == Some(ActionMismatch))
                  && (action && !digest ==> r == Some(PayloadMismatch))
                  && (digest && !scan ==> r == Some(ScanMismatch))
                  && (scan && !chain ==> r == Some(ChainMismatch))
                  && (chain && !wallet ==> r == Some(WalletMismatch))
                  && (wallet && !text ==> r == Some(InvalidSignature))
                  && (text && Signer(env, input.signedMessage, input.signature).None? ==> r == Some(InvalidSignature))
                  && (text && Signer(env, input.signedMessage, input.signature).Some?
                      && Signer(env, input.signedMessage, input.signature) != NormalizeWallet(input.wallet) ==>
                        r == Some(SignerMismatch)))
  {
    hide Trim, NormalizeWallet, BuildMessage, Parsed, SameWallet, Lower, Signer, ExpectedFields;
    if Parsed(env.times, input.signedMessage).Some? {
      var f := Parsed(env.times, input.signedMessage).value;
      assert |Lower(Trim(f.payloadSHA256))| == |Trim(f.payloadSHA256)|;
      assert |Lower(Trim(input.payloadSHA256))| == |Trim(input.payloadSHA256)|;
      if NormalizeWallet(input.wallet).Some? {
        var want := NormalizeWallet(input.wallet).value;
        NormalWalletFixed(want);
        if NormalizeWallet(f.wallet).Some? {
          NormalWalletFixed(NormalizeWallet(f.wallet).value);
          SameWalletAsNormal(NormalizeWallet(f.wallet).value, want);
        }
        if Signer(env, input.signedMessage, input.signature).Some? {
          NormalWalletFixed(Signer(env, input.signedMessage, input.signature).value);
          SameWalletAsNormal(Signer(env, input.signedMessage, input.signature).value, want);
        }
      }
    }
  }

  /** A skew that is not configured is half a minute. */
  lemma SkewReads(clockSkew: int)
    ensures Skew(clockSkew) == if clockSkew > 0 then clockSkew else 30_000_000_000
  {
  }

  /**
   One signed message authorizes one thing: whoever accepts it under two inputs accepted the
   same domain, wallet, chain, scan and digest. No field need be free of newlines.
   */
  lemma UnambiguousAuthorization(env: Env, a: VerifyInput, b: VerifyInput)
    requires Authorized(env, a) && Authorized(env, b)
    requires a.signedMessage == b.signedMessage
    ensures Trim(a.domain) == Trim(b.domain)
    ensures NormalizeWallet(a.wallet) == NormalizeWallet(b.wallet) && NormalizeWallet(a.wallet).Some?
    ensures a.chainID == b.chainID
    ensures Trim(a.scanID) == Trim(b.scanID)
    ensures Trim(a.payloadSHA256) == Trim(b.payloadSHA256)
  {
    hide Trim, NormalizeWallet, BuildMessage, Parsed, Lower, Authorized;
    var p := AuthorizedBinds(env, a);
    var q := AuthorizedBinds(env, b);
    assert p == q;
    var f, g := ExpectedFields(p, a), ExpectedFields(q, b);
    assert |Trim(a.payloadSHA256)| == |Lower(Trim(p.payloadSHA256))| == |Trim(b.payloadSHA256)|;
    SameTextSameDomain(env.times, f, g);
  }

  // ---------------------------------------------------------------- freshness

  /**
   The instants at which a message is accepted form one interval, from issuance minus skew to
   expiry, no longer than ten minutes plus the skew; outside it the error tells the side.
   */
  lemma AcceptedInstants(env: Env, input: VerifyInput, later: int)
    requires Authorized(env, input)
    ensures var parsed := Parsed(env.times, input.signedMessage);
            && parsed.Some?
            && (Authorized(env, input.(now := later)) <==>
                  parsed.value.issuedAt - Skew(input.clockSkew) <= later <= parsed.value.expiresAt)
            && (later > parsed.value.expiresAt ==> VerifyFailure(env, input.(now := later)) == Some(Expired))
            && (later < parsed.value.issuedAt - Skew(input.clockSkew) && later <= parsed.value.expiresAt ==>
                  VerifyFailure(env, input.(now := later)) == Some(NotYetValid))
            && parsed.value.expiresAt - (parsed.value.issuedAt - Skew(input.clockSkew))
                 <= MAX_VALIDITY + Skew(input.clockSkew)
  {
    hide Trim, NormalizeWallet, BuildMessage, Parsed, SameWallet, EqualFold;
  }

  // --------------------------------------------------------------- challenges

  /** The fields a challenge issued at `now` prints: whole-second issuance, ten minutes of validity. */
  function ChallengeFields(domain: string, wallet: string, chainID: Int64, scanID: string, digest: string,
                           now: int): (r: Fields) {
    var issuedAt := now / NANOS * NANOS;
    Fields(domain, PERSIST_ACTION, wallet, chainID, scanID, digest, issuedAt, issuedAt + MAX_VALIDITY)
  }

  lemma ChallengeSeconds(now: int)
    ensures var issuedAt := now / NANOS * NANOS;
            && issuedAt <= now < issuedAt + NANOS
            && issuedAt / NANOS * NANOS == issuedAt
            && (issuedAt + MAX_VALIDITY) / NANOS * NANOS == issuedAt + MAX_VALIDITY
  {
    var s := now / NANOS;
    assert (s * NANOS) / NANOS == s;
    assert s * NANOS + MAX_VALIDITY == (s + 600) * NANOS;
    assert ((s + 600) * NANOS) / NANOS == s + 600;
  }

  lemma PersistActionTrimmed()
    ensures Trim(PERSIST_ACTION) == PERSIST_ACTION && '\n' !in PERSIST_ACTION && PERSIST_ACTION != ""
  {
    assert PERSIST_ACTION[0] == 'p' && PERSIST_ACTION[|PERSIST_ACTION| - 1] == 'y';
  }

  lemma BuiltNotBlank(env: Env, f: Fields)
    ensures Trim(BuildMessage(env.times, f)) != ""
  {
    hide Trim, FormatInt;
    var lines := MessageLines(env.times, f);
    LineTags(env.times, f);
    assert BuildMessage(env.times, f)[0] == lines[0][0] == 'C';
    NonBlank(BuildMessage(env.times, f), 0);
  }

  /**
   A message built for these values and signed by the wallet is accepted at every instant from
   issuance to expiry, for the same domain and digest.
   */
  lemma ChallengeVerifies(env: Env, input: VerifyInput, issuedBy: int)
    requires var f := ChallengeFields(input.domain, input.wallet, input.chainID, input.scanID, input.payloadSHA256,
                                      issuedBy);
             && OneLineEach(env.times, f)
             && input.signedMessage == BuildMessage(env.times, f)
             && f.issuedAt <= input.now <= f.expiresAt
    requires IsNormalWallet(input.wallet)
    requires Trim(input.signature) != ""
    requires Signer(env, input.signedMessage, input.signature) == Some(input.wallet)
    ensures Authorized(env, input)
  {
    hide Trim, Parsed, BuildMessage, SameWallet, NormalizeWallet, Signer, OneLineEach, Lower;
    var f := ChallengeFields(input.domain, input.wallet, input.chainID, input.scanID, input.payloadSHA256, issuedBy);
    BuiltNotBlank(env, f);
    ParseUndoesBuild(env.times, f);
    ChallengeSeconds(issuedBy);
    PersistActionTrimmed();
    NormalWalletFixed(input.wallet);
    SameWalletAsNormal(input.wallet, input.wallet);
    assert Trim(input.payloadSHA256) != "" by {
      assert OneLineEach(env.times, f);
      NonBlankDigest(env, f);
    }
    var parsed := Carried(f);
    assert FreshnessFailure(parsed.issuedAt, parsed.expiresAt, input.now, Skew(input.clockSkew)) == None;
    assert BindingFailure(parsed, input) == None;
    SameBuild(env, f, parsed, input);
  }

  lemma NonBlankDigest(env: Env, f: Fields)
    requires OneLineEach(env.times, f)
    ensures Trim(f.payloadSHA256) != ""
  {
    hide Trim;
  }

  /** Trimming twice prints the same text. */
  lemma SameBuild(env: Env, f: Fields, parsed: Fields, input: VerifyInput)
    requires parsed.issuedAt == f.issuedAt && parsed.expiresAt == f.expiresAt
    requires f.domain == input.domain && f.action == PERSIST_ACTION && f.wallet == input.wallet
             && f.chainID == input.chainID
    requires f.scanID == input.scanID && f.payloadSHA256 == input.payloadSHA256
    requires IsNormalWallet(input.wallet)
    ensures BuildMessage(env.times, ExpectedFields(parsed, input)) == BuildMessage(env.times, f)
  {
    hide Trim, JoinLines, NormalizeWallet;
    NormalWalletFixed(input.wallet);
    assert MessageLines(env.times, ExpectedFields(parsed, input)) == MessageLines(env.times, f);
  }
}
