# Verified model of CAFE crypto policy management

CPM lets a wallet owner pick a provider for a crypto policy and persist that choice with a signed
message. This project models the path such a choice takes and proves what the path keeps:

- **Registry and catalogue.** Provider manifests are normalized, validated and indexed
  (`Provider.dfy`, `Registry.dfy`); catalogue facts are derived from the index (`Catalogue.dfy`).
- **Explore and assist.** Explore splits the profiles of a policy into ranked and rejected by couche A
  (`Compatibility.dfy`, `Explore.dfy`). Assist freezes a profile into a snapshot (`Assist.dfy`).
- **Payload.** The payload as a typed value and as JSON (`Codec.dfy`), its canonical object and digest
  (`PayloadHash.dfy`), and the gate that replays couche A, couche B and the combined gate against the
  snapshot (`PersistGate.dfy`).
- **Authorization.** The canonical message, its parser and the verifier (`Message.dfy`,
  `WalletAuth.dfy`, `WalletTarget.dfy`).
- **Store and protocol.** The owner-scoped store (`OwnerStore.dfy`) and the handlers as steps over a
  store, a discovery service and a clock (`Protocol.dfy`).
- **Edges.** `Witnesses.dfy` holds loadable manifests at which the conditions of the exact theorems fail.
- **The whole path.** `EndToEnd.dfy` joins all of it: whatever explore ranks on a constrained EOA scan
  can be frozen, challenged, signed and stored.

`Text.dfy`, `Sorting.dfy`, `Json.dfy` and `Wrappers.dfy` hold the library operations the service uses.
Code that loops or changes fields is a method proved equal to a specification function, mostly a
declarative one; the theorems are about those functions. Lemmas named `...Exact`, `...Reads` and `...Refusals`
say what an operation accepts, returns and refuses in terms of its raw input, with the literal vocabulary. `sort.Slice` is modelled by its promise, some
ascending permutation, so results hold for every order an unstable sort may choose.

Three services of the outside world are parameters (`WalletAuth.Env`): hashing (RFC 8785
canonicalization and SHA-256 as one function of the object; section 3.2.3 of RFC 8785 is why key order
cannot matter), signature recovery (a function from message and signature to an address), and printing
and parsing of timestamps (section 5.6 of RFC 3339). Theorems hold for all of them; where a theorem
needs a fact about one, it is a precondition: a printed second reads back, a digest is a non-blank line.
Random policy ids are drawn by the step and assumed not to be in use.

Where documentation and code differ, the model follows the code:

- README.md:377 of the service describes a constrained persist as one overlapping chain. The third gate
  also asks every observed chain to be supported (`PersistGate.ReplayExact`, `PersistGate.OverlapIsNotEnough`).
- README.md:185-192 describes ranking by several keys. The code ranks by candidate id (`Explore.ExploreSorted`).

Facts about the code that a reader may not expect:

- The verifier never compares the domain, yet one message cannot be accepted for two domains, even if
  fields hold newlines (`WalletAuth.UnambiguousAuthorization`).
- A profile without references cannot reach the reference check of the gate on the closed path: assist
  leaves the slice nil, it is encoded as null, and the digest rejects it (`Codec.SnapshotAllowed`).
- Manifests may repeat a chain id. The snapshot then keeps its meaning exactly when no deployable entry is
  shadowed (`Assist.SnapshotMeaningExact`, `Witnesses.ShadowedManifest`).
- A NUL in a provider id may let profiles of two providers share a registry key (`Registry.ProfileKeyCollision`).
  They can if and only if one provider key continues the other with a NUL and then nothing or a non-blank
  (`Registry.ProfileKeyExact`). AddManifest then stops half way and leaves an invalid index
  (`Registry.AddedValid`, `Witnesses.CollidingManifests`); the loader drops such a registry, so what it
  returns is always valid (`Registry.LoadRegistryFromFiles`). A lookup may still answer with another provider,
  and assist freeze a profile the policy does not allow (`Witnesses.ForeignProfileFrozen`). Exactly when that
  cannot happen is `Registry.LookupExact`, `Assist.FreezesOnlyAllowedExact` and `Catalogue.PinsCompatibleExact`.
- Candidate ids join provider and profile with a slash and may tie. The order of allowed_providers then decides
  the ranking (`Witnesses.TiedCandidates`). It cannot exactly when candidate ids name candidates
  (`Explore.OrderIrrelevantExact`), for example when no allowed provider id contains a slash.
- The wallet counter and the insert check read different fields of a stored payload. One record per owner and
  wallet holds in every run (`OwnerStore.RunsKeepUnique`); the counter sees it on closed payloads and, in general,
  exactly when nothing outranks the stamped wallet (`OwnerStore.W1ThroughoutExact`, `OwnerStore.CounterMissesRival`).
- A signed message names no user, no tenant and no nonce. Two owners may persist the same one
  (`Protocol.TwoOwnersOneMessage`). One owner holds at most one policy from it at a time, and after deleting that
  one may persist the same request again until it expires (`Protocol.SecondUseNeedsDelete`,
  `Protocol.DeletedCanBePersistedAgain`).

`dafny verify dfyconfig.toml` checks the project.

## Model

| member | source | states |
|---|---|---|
| EndToEnd.RankedCandidateCanBePersisted | internal/app/policy_persist_routes.go:65-156 | a candidate ranked on a constrained EOA scan gets a snapshot, its payload gets a challenge, and once the wallet has signed it the persist handler, at every instant before expiry, adds exactly one record: the stamped canonical payload with its digest, wallet, scan, chain and owner |
| EndToEnd.RankedCandidateAdmissible | internal/domain/policy/persist_payload.go:144-270 | for such a candidate assist never fails, and the assembled payload passes digest and gate if and only if its references are pinned and the user choices satisfy couche B |
| EndToEnd.SuggestedChoicesAdmissible | internal/domain/provider/manifest.go:316-334 | the suggestion a ranked row carries is always such a choice, so only unpinned references can keep the payload out |
| EndToEnd.RankedGetsSnapshot | internal/domain/policy/accepted_provider_snapshot.go:52-126 | every row ranked on a constrained scan resolves to its own profile in assist, and none of the five assist errors can occur |
| EndToEnd.AssembledAdmissible | internal/domain/policy/persist_payload.go:121-162 | a payload assembled from a snapshot of a loaded profile survives encoding, canonicalization, decoding and normalization, and is admitted exactly when references are pinned and couche B holds, whatever the order of its findings |
| EndToEnd.SnapshotAlreadyNormal | internal/domain/policy/persist_payload.go:382-412 | a snapshot of a loaded profile is a fixed point of the gate normalization |
| EndToEnd.SignedChallengePersists | internal/app/wallet_challenge_routes.go:76-93 | a challenge signed by its wallet passes every gate of the persist handler until it expires, if W2 still holds and the wallet is free, and exactly the record it describes is added to the store |
| Assist.SnapshotMeaningExact | internal/domain/policy/accepted_provider_snapshot.go:143-165 | freezing a validated profile preserves its couche A findings for every scan and posture, under every order an unstable sort may choose, if and only if no deployable chain entry is shadowed by an earlier entry of the same chain id with another verdict |
| Assist.SnapshotPreservesMeaning | internal/domain/policy/persist_payload.go:358-380 | dropping planned chains, sorting and rebuilding the profile gives exactly the original couche A findings |
| Assist.SnapshotAsProfileReads | internal/domain/policy/persist_payload.go:358-380 | each field of the replayed profile is that of the snapshot |
| Assist.ShadowedChangesMeaning | internal/domain/policy/accepted_provider_snapshot.go:157-163 | if an entry is shadowed, one sort order and a scan of that one chain tell snapshot and profile apart |
| Witnesses.ShadowedManifest | internal/domain/provider/manifest.go:290-294 | a loadable manifest lists a chain as planned and then as supported: couche A rejects the profile on it and accepts every snapshot of it |
| Assist.DistinctNothingShadowed | internal/domain/provider/manifest.go:290-294 | distinct chain ids are enough for that condition |
| Assist.SortKeepsFirst | internal/domain/policy/accepted_provider_snapshot.go:161-163 | a stable sort by chain id keeps the first entry of every chain id first |
| Assist.CollectPersistableChainSupport | internal/domain/policy/accepted_provider_snapshot.go:143-165 | fails exactly when no entry is persistable; otherwise returns some ascending permutation of the persistable entries |
| Assist.PinnedChainsAre | internal/domain/policy/accepted_provider_snapshot.go:143-165 | pinned chains ascend by chain id and are exactly the entries that are not planned |
| Assist.MergeAssistAcceptedFindings | internal/domain/policy/accepted_provider_snapshot.go:167-187 | rejects exactly the client lists with an unknown non-blank code; otherwise returns the normalized union with the soft findings of the profile |
| Assist.MergedFindingsCover | internal/domain/policy/accepted_provider_snapshot.go:167-187 | merged findings are strictly ascending and cover everything the profile requires |
| Assist.MergedFindingsExact | internal/domain/policy/accepted_provider_snapshot.go:167-187 | a code is merged exactly when it is a non-blank client code or required by the profile; codes ascend |
| Assist.ProviderAllowedByCryptoPolicy | internal/domain/policy/accepted_provider_snapshot.go:128-139 | a provider is allowed when some entry equals it after trimming and lower-casing |
| Assist.BuildAcceptedProviderSnapshot | internal/domain/policy/accepted_provider_snapshot.go:52-126 | answers the first failing check, or the snapshot of the looked-up profile with its reference |
| Assist.AnswerKeepsReference | internal/domain/policy/accepted_provider_snapshot.go:73-84 | an answer carries exactly the version asked for, and freezes the profile the reference names in that version |
| Assist.AssistRefusals | internal/domain/policy/accepted_provider_snapshot.go:56-101 | each of the five refusals is given exactly when its check is the first to fail |
| Assist.SnapshotReads | internal/domain/policy/accepted_provider_snapshot.go:103-126 | each snapshot field is that field of the profile |
| Assist.FreezesAllowedExact | internal/domain/policy/accepted_provider_snapshot.go:64-84 | the same for the requests naming one provider id, on any id |
| Assist.FreezesOnlyAllowedExact | internal/domain/policy/accepted_provider_snapshot.go:64-84 | whatever assist is asked for under a policy, it freezes only profiles of allowed providers, if and only if every persistable profile whose registry key continues the key of an allowed entry is of an allowed provider |
| Compatibility.EvaluateScanCompatibility | internal/domain/provider/scan_compat.go:33-94 | returns the posture, wallet type and chain findings of couche A, the chain part only on a constrained scan |
| Compatibility.ScanFindingsExact | internal/domain/provider/scan_compat.go:33-133 | each couche A finding is there exactly under its condition on posture, account kind and the first entries of the observed chains, in that order |
| Compatibility.ScanChainDeployability | internal/domain/provider/scan_compat.go:117-133 | reports whether some positive scan chain is deployable and whether some is capable |
| Compatibility.HasPositiveChainID | internal/domain/provider/scan_compat.go:98-105 | finds whether the scan has a positive chain id |
| Compatibility.ChainHasCapabilities | internal/domain/provider/scan_compat.go:135-146 | every required capability is advertised up to case and blanks |
| Compatibility.MinimumCapabilities | internal/domain/provider/scan_compat.go:107-113 | exactly deploy and sign_userop, and rotate_signer for per_userop rotation |
| Compatibility.FindChainSupport | internal/domain/provider/hard_compat.go:167-174 | returns the first entry with the chain id |
| Compatibility.EvaluateUserConstraints | internal/domain/provider/user_compat.go:18-57 | returns the couche B findings, none exactly when the profile can honour every choice |
| Compatibility.UserFindingsExact | internal/domain/provider/user_compat.go:18-57 | each couche B finding is there exactly under its condition, in that order, naming its field |
| Compatibility.EvaluateHardCompatibility | internal/domain/provider/hard_compat.go:37-133 | returns posture, wallet, couche B and per-target-chain findings of the combined gate |
| Compatibility.HardFindingsExact | internal/domain/provider/hard_compat.go:37-133 | the same conditions, then the findings of the targets, or of the observed chains when there are none |
| Compatibility.TargetsPass | internal/domain/provider/hard_compat.go:97-130 | the target loop finds nothing exactly when every positive target is deployable with at least one capability |
| Compatibility.TargetFindingsAre | internal/domain/provider/hard_compat.go:97-130 | one finding per positive target that is not supported |
| Compatibility.EvaluateSoftFindings | internal/domain/provider/soft_compat.go:21-42 | lists a soft code exactly when its flag is set |
| Compatibility.SuggestionSatisfiesCoucheB | internal/domain/provider/manifest.go:316-334 | the suggestion of a loaded profile is consistent if and only if couche B accepts it |
| Compatibility.ScanSeesOnlyPositiveSet | internal/domain/provider/scan_compat.go:98-133 | couche A depends on the scan only through the set of its positive chains |
| Compatibility.ScanMonotone | internal/domain/provider/scan_compat.go:64-94 | seeing more chains never turns acceptance of a constrained scan into rejection |
| Compatibility.HardGateAntitone | internal/domain/provider/hard_compat.go:97-130 | a pass of the combined gate survives dropping target chains |
| Compatibility.ReplayGatesExact | internal/domain/policy/persist_payload.go:251-270 | the three replayed gates accept exactly when posture, wallet type and couche B hold, some observed chain is capable if any is observed, and every observed chain is supported |
| Compatibility.HardGateRedundantOnGreenfield | internal/domain/policy/persist_payload.go:260-268 | without observed chains the third gate rejects nothing the first two accept |
| PersistGate.ValidatePayloadForPersist | internal/domain/policy/persist_payload.go:121-141 | returns the first failing check of shape, decoding, identity, snapshot, findings, references and replay |
| PersistGate.ValidateForPersist | internal/domain/policy/persist_payload.go:144-162 | the same for a decoded payload, after normalization |
| PersistGate.GateExact | internal/domain/policy/persist_payload.go:144-412 | over the raw, untrimmed fields of every payload: accepted exactly when identity, snapshot header, pinned chains, findings, references, couche A, couche B and observed chains meet their conditions; otherwise the error is that of the first group that does not |
| PersistGate.GateIgnoresBlanks | internal/domain/policy/persist_payload.go:382-412 | payloads that differ only in blanks around trimmed texts get the same answer, errors included |
| PersistGate.GateOnDocuments | internal/domain/policy/persist_payload.go:121-142 | a document passes exactly when it has no legacy key, nests its three user constraints, decodes, and its payload is accepted |
| PersistGate.ObservationReads | internal/domain/policy/persist_payload.go:338-356 | the replayed observation comes from policy_context: wallet_type, else account_kind, else EOA, and chain_ids |
| PersistGate.ValidatePersistSnapshot | internal/domain/policy/persist_payload.go:183-209 | header first, then the first unusable pinned chain decides the error |
| PersistGate.RequireAcceptedSoftFindings | internal/domain/policy/persist_payload.go:211-236 | divergent copies and missing soft findings are told apart, the top-level copy having authority |
| PersistGate.RequirePinnedReferences | internal/domain/policy/persist_payload.go:238-249 | accepts exactly non-empty lists without unpinned references |
| PersistGate.ReplayCoucheAB | internal/domain/policy/persist_payload.go:251-270 | couche A, couche B, combined gate in that order, with the code of the first finding |
| PersistGate.ReplayExact | internal/domain/policy/persist_payload.go:251-270 | the replay accepts exactly the payloads that meet conditions stated without any evaluator |
| PersistGate.NormalizedExact | internal/domain/policy/persist_payload.go:144-162 | the whole gate accepts exactly when the payload conditions and the replay conditions hold |
| PersistGate.ChainsPass | internal/domain/policy/persist_payload.go:200-207 | the chain loop passes exactly when every pinned chain has a positive id and a non-blank status other than planned |
| PersistGate.ChainsFailureRaw | internal/domain/policy/persist_payload.go:198-208 | the first malformed or planned pinned chain decides between the two errors |
| PersistGate.ClosedObservation | internal/domain/policy/persist_payload.go:338-356 | whatever the digest accepts is replayed as an EOA with no observed chain |
| PersistGate.ClosedReplayExact | internal/domain/policy/persist_payload.go:338-356 | on closed payloads the replay reduces to posture, wallet type and couche B, and the third gate never decides |
| PersistGate.OverlapIsNotEnough | internal/domain/policy/persist_payload.go:260-268 | one capable overlapping chain does not suffice: a second observed chain without support is rejected by the third gate although couche A accepts |
| Codec.PayloadRoundTrip | internal/domain/policy/persist_payload.go:32-66 | decoding an encoded closed payload gives the payload back |
| Codec.FieldsRead | internal/domain/policy/persist_payload.go:121-142 | an absent or null field is the zero value and a wrong type an error |
| Codec.ChainRoundTrip | internal/domain/policy/persist_payload.go:71-116 | a chain id printed as a decimal string reads back as the same int64, with status and capabilities |
| Codec.ChainIDReads | internal/domain/policy/persist_payload.go:73-113 | a chain id is read from a decimal string or a whole number, and is zero when absent or blank |
| Codec.SnapshotRoundTrip | internal/domain/policy/persist_payload.go:44-58 | all eleven snapshot fields survive encoding and decoding |
| Codec.SnapshotAllowed | internal/domain/policy/accepted_provider_snapshot.go:206-213 | an encoded snapshot holds neither number nor null if and only if it has wallet types and references, since nil slices become null |
| Codec.PayloadDigestible | internal/payloadhash/digest.go:52-77 | the digest accepts an encoded payload under exactly that condition |
| Codec.CanonicalPayload | internal/payloadhash/digest.go:79-91 | canonicalizing an encoded payload is encoding it with normalized findings |
| PayloadHash.NormalizeAcceptedFindings | internal/payloadhash/normalize.go:8-23 | the sort followed by in-place compaction computes the normalized findings |
| PayloadHash.Compact | internal/payloadhash/normalize.go:14-22 | comparing with out[i-1] while overwriting the prefix drops exactly the repeats |
| PayloadHash.NormalizeFindingsCanonical | internal/payloadhash/normalize.go:8-23 | strictly ascending by the first differing code point, with exactly the given elements |
| PayloadHash.NormalizeFindingsIs | internal/payloadhash/normalize.go:8-23 | the list of the given findings in the order of their first differing code point is the normal form |
| Text.LessExact | internal/payloadhash/normalize.go:13 | string order is decided by the first differing code point, a proper prefix first |
| PayloadHash.NormalizeFindingsSameSet | internal/payloadhash/normalize.go:8-23 | two lists normalize alike if and only if they have the same elements |
| PayloadHash.NormalizeFindingsFixed | internal/payloadhash/normalize.go:8-23 | a strictly ascending list is left as it is |
| PayloadHash.AssertAllowedSubtree | internal/payloadhash/digest.go:121-148 | accepts exactly the allowed trees in every visiting order, and reports a reason some node justifies |
| PayloadHash.AllowedMeansNoneForbidden | internal/payloadhash/digest.go:121-148 | the recursive check accepts exactly the trees in which no null and no number occurs |
| PayloadHash.FindingsAsStrings | internal/payloadhash/digest.go:105-119 | succeeds exactly on arrays of strings and returns them |
| PayloadHash.DigestCanonical | internal/payloadhash/digest.go:52-103 | accepts exactly the documents with the closed keys, an allowed tree and string findings and returns digest and canonical object; otherwise the reason is the one of the first failing check, of some offending node for the tree check |
| PayloadHash.ClosedKeysAre | internal/payloadhash/digest.go:14-22 | the closed set is these seven keys |
| PayloadHash.CanonicalFixedPoint | internal/payloadhash/digest.go:79-102 | the canonical object is accepted again, is its own canonical object and has the same digest |
| PayloadHash.DigestIgnoresFindingOrder | internal/payloadhash/digest.go:73-91 | two accepted documents share a canonical object if and only if they agree outside findings and name the same findings |
| Registry.Registry.AddManifest | internal/domain/provider/registry.go:70-97 | leaves exactly the specified index for every manifest; a known provider changes nothing, a taken profile key leaves what was written before it; from a valid index with a loaded manifest the result is valid exactly when no key was taken |
| Registry.AddedValid | internal/domain/provider/registry.go:84-95 | adding a manifest of a new provider keeps the representation invariant if and only if none of its profile keys is taken, and always does when its provider key neither reaches a registered one nor is reached |
| Registry.NewProviderVacant | internal/domain/provider/registry.go:86-89 | the duplicate-profile error is unreachable for such a provider key |
| Registry.LoadValid | internal/domain/provider/registry.go:70-97 | after every run of additions of loaded manifests the invariant holds if and only if no two registered manifests share a profile key, which provider keys that do not reach one another rule out |
| Registry.LoadRegistryFromFiles | internal/domain/provider/registry.go:47-63 | returns a registry exactly for valid manifests of different providers that share no profile key, and that registry is valid |
| Registry.LoadKeepsFirst | internal/domain/provider/registry.go:81-84 | after every run exactly the first manifest of each provider is registered, under its own key |
| Registry.OneEntryPerProfile | internal/domain/provider/registry.go:85-95 | index keys correspond one to one to pairs of manifest and profile |
| Registry.ProfileKeyInjective | internal/domain/provider/registry.go:33-35 | when neither provider key reaches the other, the key determines provider and profile |
| Registry.ProfileKeyExact | internal/domain/provider/registry.go:33-35 | for any two provider ids the key determines provider and profile if and only if neither provider key reaches the other, that is, continues it with a NUL and then nothing or a non-blank; NUL-free ids are a special case |
| Registry.ReachedCollides | internal/domain/provider/registry.go:33-35 | when one reaches the other, two profile ids a manifest may hold share a key |
| Registry.ProfileKeyCollision | internal/domain/provider/registry.go:33-35 | with a NUL in a provider id two different pairs share a key |
| Witnesses.CollidingManifests | internal/domain/provider/registry.go:85-89 | two manifests that load one by one and leave an invalid index together |
| Registry.Registry.Lookup | internal/domain/provider/registry.go:101-114 | finds the entry of the key unless a given version differs |
| Registry.LookupAnswers | internal/domain/provider/registry.go:101-114 | on a valid index a reference is answered with a profile exactly when its key is that of the profile and its version is blank or that of the manifest, and with nothing exactly when it names no profile |
| Registry.Registry.ProfilesForProvider | internal/domain/provider/registry.go:143-160 | lists the provider entries in some order by profile id; on a valid index there is only one such list |
| Registry.ProfilesInElements | internal/domain/provider/registry.go:143-160 | lists exactly the index entries of the provider manifest |
| Registry.ListedInOrder | internal/domain/provider/registry.go:156-158 | no profile is listed after one with a later id, whatever the index and the sort |
| Registry.ListedIsFound | internal/domain/provider/registry.go:93-114 | every listed profile is found by Lookup under its own version |
| Registry.FoundIsListed | internal/domain/provider/registry.go:101-114 | a profile Lookup finds is listed for its own provider, and for the provider asked for exactly when both keys agree |
| Registry.LookupExact | internal/domain/provider/registry.go:101-114 | on a valid index every lookup for a provider id answers with that provider if and only if no profile key of another registered provider continues its key; keys that reach no registered one and are reached by none are a special case |
| Registry.Registry.ApplyManifestLoadSignals | internal/domain/provider/load_signals.go:16-38 | flags exactly the contradictory profiles, counts them, and keeps the invariant |
| Provider.DedupeStrings | internal/domain/provider/manifest.go:345-366 | trims, drops blanks and keeps first occurrences |
| Provider.DedupeElements | internal/domain/provider/manifest.go:345-366 | nothing but blanks and repeats is lost |
| Provider.Validate | internal/domain/provider/manifest.go:202-230 | accepts exactly the valid manifests, with pairwise distinct profile ids |
| Provider.ValidManifestExact | internal/domain/provider/manifest.go:202-305 | the header, every profile with its vocabulary, chains and references, and distinct profile ids |
| Provider.NormalizeManifestIdempotent | internal/domain/provider/manifest.go:155-200 | normalizing a manifest twice is normalizing it once |
| Provider.NormalizeProfileReads | internal/domain/provider/manifest.go:155-200 | which text of a profile is trimmed and which list deduplicated |
| Provider.NormalizeAndValidate | internal/domain/provider/manifest.go:232-235 | what loading accepts is normalized and valid |
| Explore.EvaluateExploreCoucheA | internal/domain/policy/explore_couche_a.go:31-181 | on any index, or without a registry, the loops and stable sorts compute a decision of the specification; a valid index leaves exactly one |
| Explore.ExploreProfile | internal/domain/policy/explore_couche_a.go:94-165 | one profile is rejected for a failed lookup, a contradictory suggestion or couche A findings, in that order, else ranked |
| Explore.ProfileRowReads | internal/domain/policy/explore_couche_a.go:94-165 | the verdict on a profile is that of the first of the three checks that fails |
| Explore.RankedExactly | internal/domain/policy/explore_couche_a.go:118-165 | a row is ranked if and only if it stands for an allowed profile with a consistent suggestion and no couche A finding |
| Explore.ValidPolicyExact | internal/domain/policy/crypto_policy.go:76-104 | a valid policy has an id, a name, a version, a known posture and no blank provider |
| Explore.ExploreConserves | internal/domain/policy/explore_couche_a.go:63-167 | ranked plus rejected rows number one per profile of each non-blank entry, or one for an unresolved entry |
| Explore.ExploreSorted | internal/domain/policy/explore_couche_a.go:169-174 | both lists of the decision are ascending by candidate id |
| Explore.DecisionInOrder | internal/domain/policy/explore_couche_a.go:169-181 | for every decision on any index, no row comes after one with a later candidate id, the selected policy is that of the first row, and the chains are the observed ones, ascending |
| Explore.RankedRowReads | internal/domain/policy/explore_couche_a.go:151-165 | each field of a ranked row, from policy and profile |
| Explore.RejectedRowReads | internal/domain/policy/explore_couche_a.go:94-149 | each field of a rejected row; a failed lookup shows nothing of the profile |
| Explore.ExploreOrderIrrelevant | internal/domain/policy/explore_couche_a.go:63-178 | permuting allowed_providers leaves the decision unchanged when rows that share a candidate id are equal |
| Explore.ExploreOrderExact | internal/domain/policy/explore_couche_a.go:169-178 | on one scan no permutation of allowed_providers changes the decision if and only if rows of one list that share a candidate id are equal |
| Explore.OrderIrrelevantExact | internal/domain/policy/explore_couche_a.go:63-178 | no permutation of allowed_providers changes the decision on any scan, if and only if different candidates have different candidate ids and no unresolved entry is the candidate id of a candidate |
| Explore.SlashFreeNamesApart | internal/domain/policy/explore_couche_a.go:183-192 | that condition holds when no allowed provider id contains a slash |
| Witnesses.TiedCandidates | internal/domain/policy/policy_decision.go:83-92 | for a loadable catalogue and policy, profile b/c of provider a and profile c of provider a/b share a candidate id, so listing order decides their ranking |
| Explore.EntryTiesEqual | internal/domain/policy/explore_couche_a.go:183-192 | within one allowed provider candidate ids tell the rows apart |
| Sorting.StableSortKeepsFirstTied | internal/domain/policy/explore_couche_a.go:169-174 | a stable sort leaves the first of several tied elements first |
| Sorting.AscendingUnique | internal/domain/provider/registry.go:156-158 | when different elements never tie, every sort gives the same list |
| Explore.LookupNeverFails | internal/domain/policy/explore_couche_a.go:93-117 | on a valid registry no row is rejected for a failed lookup |
| Explore.NormalizeChainIDsLoop | internal/domain/policy/chains.go:5-20 | returns the strictly ascending list of the same ids |
| Explore.NormalizedScanSameFindings | internal/domain/policy/chains.go:5-20 | normalizing the observed chain ids never changes couche A findings |
| WalletTarget.NormalizeWalletTargetAddress | internal/persistence/wallet_target.go:18-39 | accepts exactly forty hex digits of either case with an optional prefix and returns 0x with lower-case digits |
| WalletTarget.NormalizeWalletExact | internal/persistence/wallet_target.go:18-39 | forty hex digits, alone or after 0x or 0X, become 0x and the lower-case digits |
| WalletTarget.AddressHasForm | internal/persistence/wallet_target.go:18-39 | nothing else is an address |
| WalletTarget.NormalWalletFixed | internal/persistence/wallet_target.go:18-39 | canonical addresses are fixed points |
| WalletTarget.SameWalletAsNormal | internal/walletauth/verify.go:173-180 | against a canonical wallet, address equality is equality of canonical forms; the folding fallback never matches |
| Text.ParseFormatInt | internal/walletauth/message.go:83-86 | an int64 printed in decimal parses back |
| Text.SplitJoin | internal/walletauth/message.go:46-47 | splitting undoes joining for newline-free lines |
| Text.TrimIsMiddle | internal/domain/policy/persist_payload.go:382-412 | trimming removes all blanks around a text and nothing else |
| Text.JoinSplit | internal/walletauth/message.go:46-47 | splitting cuts at every newline and nowhere else |
| Message.ParseMessage | internal/walletauth/message.go:46-130 | the line scans compute the parsed fields, or none |
| Message.ParseExact | internal/walletauth/message.go:46-130 | a message is read as some fields exactly when it has the title and footer, each label on a first line with that text, a positive chain id, a digest, two readable instants and no draft line |
| Message.ParseUndoesBuild | internal/walletauth/message.go:26-130 | parsing a built message returns its trimmed fields and whole seconds |
| Message.MessageReads | internal/walletauth/message.go:26-43 | the text line by line, with its labels and separators |
| Message.BuildInjective | internal/walletauth/message.go:26-43 | on fields in carried form parsing returns the very fields, so building is injective |
| Message.SameTextSameDomain | internal/walletauth/message.go:26-43 | equal texts with equal remaining fields have equal domain and digest, even with newlines in fields |
| WalletAuth.AuthorizedBinds | internal/walletauth/verify.go:29-82 | an accepted authorization names wallet, chain, scan and digest, was signed by the wallet, is fresh, and is the text the server would print |
| WalletAuth.AuthorizedExact | internal/walletauth/verify.go:29-82 | an authorization is accepted exactly when it is signed and all those conditions hold |
| WalletAuth.VerifyRefusals | internal/walletauth/verify.go:29-124 | each refusal is given exactly when its condition is the first to fail, in the order of the checks |
| WalletAuth.UnambiguousAuthorization | internal/walletauth/verify.go:52-68 | one message accepted under two inputs means equal domain, wallet, chain, scan and digest, without any assumption on newlines |
| WalletAuth.AcceptedInstants | internal/walletauth/verify.go:84-95 | accepted instants are exactly issuance minus skew to expiry, at most ten minutes plus skew; outside, the error names the side |
| WalletAuth.ChallengeVerifies | internal/app/wallet_challenge_routes.go:81-93 | a challenge signed by its wallet verifies at every instant from issuance to expiry |
| OwnerStore.OwnerScopedStore.CreatePolicy | internal/persistence/owner_scoped_store_dev.go:66-146 | inserts the stamped record under the drawn id, or changes nothing and names the first failing check, W1 last |
| OwnerStore.CreateRefusals | internal/persistence/owner_scoped_store_dev.go:66-104 | each refusal of an insert is given exactly when its check is the first to fail |
| OwnerStore.NewRecordReads | internal/persistence/owner_scoped_store_dev.go:124-137 | each field of a new record |
| OwnerStore.OwnerScopedStore.SavePolicy | internal/persistence/owner_scoped_store_dev.go:37-63 | writes exactly one record, over a free id or an own record, keeps its creation time, and leaves every other owner untouched; otherwise changes nothing |
| OwnerStore.SavedRecordReads | internal/persistence/owner_scoped_store_dev.go:51-61 | each field of a saved record |
| OwnerStore.OwnerScopedStore.DeletePolicy | internal/persistence/owner_scoped_store_dev.go:205-220 | removes an own record, or changes nothing |
| OwnerStore.DeleteRefusals | internal/persistence/owner_scoped_store_dev.go:205-220 | each refusal of a delete is given exactly when its check is the first to fail |
| OwnerStore.OwnerScopedStore.GetPolicy | internal/persistence/owner_scoped_store_dev.go:222-237 | returns exactly the own records |
| OwnerStore.OwnerScopedStore.ListPersistedPoliciesForScan | internal/persistence/owner_scoped_store_dev.go:172-201 | lists exactly the own matching records, newest first, then by id |
| OwnerStore.ListingReads | internal/persistence/owner_scoped_store_dev.go:172-201 | by descending update time, then by id; exactly the own records of that scan, in either letter case |
| OwnerStore.OwnerScopedStore.CountActiveWalletCPMContext | internal/persistence/wallet_target_dev.go:13-40 | counts the own records whose payload names the wallet |
| OwnerStore.StampedKeepsOthers | internal/persistence/owner_scoped_store_dev.go:114-123 | stamping and deleting touch only the stamp keys |
| OwnerStore.StampedReads | internal/persistence/owner_scoped_store_dev.go:114-123 | all seven stamps have the given values and no proof material is kept |
| OwnerStore.CounterSeesWallet | internal/persistence/wallet_target_dev.go:42-71 | the counter reads the stamped wallet if and only if nothing in the payload outranks it with another wallet |
| OwnerStore.OccupiesReads | internal/persistence/owner_scoped_store_dev.go:96-104 | the insert check finds a wallet in the record or in its payload |
| OwnerStore.ExtractTargetReads | internal/persistence/wallet_target_dev.go:52-71 | the counter takes the first of ten places of a payload that holds a text, in a fixed order |
| OwnerStore.CounterMissesRival | internal/persistence/wallet_target_dev.go:52-71 | with a rival target_address the counter misses the record |
| OwnerStore.CounterAgreesWithInsert | internal/persistence/wallet_target_dev.go:17-40 | in a W1 state the counter answers zero or one, and one exactly when the wallet is taken |
| OwnerStore.ExistsMeansRefused | internal/persistence/owner_scoped_store_dev.go:96-104 | Exists holds exactly when the next otherwise valid insert is refused as already existing |
| OwnerStore.RunsKeepW1 | internal/persistence/owner_scoped_store_dev.go:93-137 | in the state after a run the counter side of W1 holds too, if and only if no stored payload outranks its wallet with another one |
| OwnerStore.W1ThroughoutExact | internal/persistence/owner_scoped_store_dev.go:93-137 | W1 holds in every state of a run with fresh ids if and only if no create in it that succeeds names a rival wallet |
| OwnerStore.RunsKeepUnique | internal/persistence/owner_scoped_store_dev.go:93-137 | every run of creates with fresh ids and deletes has at most one record per owner and wallet, whatever the payloads |
| OwnerStore.CreateKeepsW1 | internal/persistence/owner_scoped_store_dev.go:93-137 | an insert keeps W1 if and only if nothing in its payload outranks the wallet |
| OwnerStore.StoredLookups | internal/persistence/wallet_target_dev.go:42-71 | of a stored record the insert check always reads its wallet, the counter exactly when nothing outranks it |
| OwnerStore.ListingDependsOnOwner | internal/persistence/owner_scoped_store_dev.go:172-201 | stores agreeing on an owner give that owner the same list, whatever the map order |
| OwnerStore.CountsDependOnOwner | internal/persistence/wallet_target_dev.go:28-36 | likewise for the counter and the insert check |
| Protocol.HandlePolicyPersist | internal/app/policy_persist_routes.go:65-156 | the handler answers the specified error and leaves the specified store |
| Protocol.RefusalNamesFirstGate | internal/app/policy_persist_routes.go:65-122 | corollary of the gate order: each error occurs exactly when its gate is the first to fail |
| Protocol.RequestRefusals | internal/app/policy_persist_routes.go:60-78 | each refusal of a malformed request is given exactly when its check is the first to fail |
| Protocol.RefusedLeavesStore | internal/app/policy_persist_routes.go:134-156 | corollary: a refused persist leaves the store unchanged |
| Protocol.W2Exact | internal/app/w2_engagement.go:25-68 | the guard holds exactly when discovery is configured and available and its latest scan normalizes to the requested one |
| Protocol.W2Refusals | internal/app/w2_engagement.go:25-68 | unavailable or unusable discovery and another latest scan are told apart |
| Protocol.ChallengeExact | internal/app/wallet_challenge_routes.go:40-93 | a message is issued exactly for a well-formed request about the latest scan of that wallet with a digestible payload |
| Protocol.ChallengeReads | internal/app/wallet_challenge_routes.go:81-93 | an issued message parses to domain, wallet, chain, scan and digest of the request, its own second, and ten minutes later |
| Protocol.AuthDomainReads | internal/app/wallet_challenge_routes.go:169-182 | the configured domain, else the host up to its port, else localhost |
| Protocol.NormalScanIDFixed | internal/app/scan_id.go:18-24 | a normalized scan id is a one-line fixed point |
| Protocol.ScanIDExact | internal/app/scan_id.go:11-24 | accepts exactly 8-4-4-4-12 hexadecimal digits of either case and keeps them in lower case |
| Protocol.EveryRecordJustified | internal/app/policy_persist_routes.go:65-145 | in every run each stored record was inserted by a persist step at which W2 held, the authorization verified and the gate passed, and was not deleted since |
| Protocol.RecordWasAuthorized | internal/walletauth/verify.go:52-124 | the signed message behind each stored record names its wallet, chain, scan and digest, carries the signature of that wallet and was fresh |
| Protocol.OneMessageOneMatter | internal/walletauth/verify.go:52-124 | in every reachable state two records resting on one signed message agree on wallet, chain, scan and digest, and one owner has at most one of them at a time |
| Protocol.SecondUseNeedsDelete | internal/app/policy_persist_routes.go:65-145 | between two steps of a run that store a policy for one owner on one message, that owner deleted the first |
| Protocol.DeletedCanBePersistedAgain | internal/app/policy_persist_routes.go:65-145 | persisting and deleting restores the store, and the same signed request is stored again at any instant until its message expires |
| Protocol.AdmissionIgnoresCaller | internal/app/policy_persist_routes.go:65-122 | the gates depend on the caller only through discovery |
| Protocol.TwoOwnersOneMessage | internal/app/policy_persist_routes.go:65-145 | after one owner persisted a request, another for whom discovery answers alike and the wallet is free persists the same request, and both records stand |
| Protocol.RecordsStayOverRuns | internal/persistence/owner_scoped_store_dev.go:203-220 | a stored record stays unchanged through every run until its owner deletes it |
| Protocol.StoredDigestStaysTrue | internal/persistence/owner_scoped_store_dev.go:110-137 | in every reachable state projecting a record onto the closed fields and digesting gives its stored digest, and the projection passes the gate again |
| Protocol.ProjectStamped | internal/persistence/owner_scoped_store_dev.go:110-123 | stamping a closed payload and projecting it gives it back |
| Protocol.ReachableW1 | internal/persistence/owner_scoped_store_dev.go:93-104 | every state reachable through the handlers satisfies W1 |
| Protocol.OwnersDoNotInterfere | internal/persistence/owner_scoped_store_dev.go:239-241 | the policies of an owner after a run are those after the run with every other owner removed |
| Catalogue.DeriveCompatibleNetworks | internal/domain/policy/compatible_networks.go:57-91 | on any index strictly ascending chain ids, exactly the non-planned chains of the allowed providers; on a valid index the compatible networks |
| Catalogue.CompatibleNetworksExact | internal/domain/policy/compatible_networks.go:57-91 | strictly ascending chain ids, exactly the non-planned chains of the allowed providers |
| Catalogue.CompatibleNetworkIsFirst | internal/domain/policy/compatible_networks.go:69-83 | each network is the first deployable entry of its chain id |
| Catalogue.DeriveAllowedProviderSummaries | internal/domain/policy/allowed_provider_summaries.go:30-57 | on any index one summary per resolved non-blank entry, in order, for some listing of its profiles; a valid index leaves one listing |
| Catalogue.PickCatalogProfile | internal/domain/policy/allowed_provider_summaries.go:59-74 | picks the first profile of the posture, else the first profile |
| Catalogue.FirstMatchIsFirst | internal/domain/policy/allowed_provider_summaries.go:59-74 | the preferred profile matches the posture whenever one does, and no earlier one does |
| Catalogue.SummaryShows | internal/domain/policy/allowed_provider_summaries.go:30-101 | a summary shows scheme, family and ascending deployable networks of one profile of its provider, one of the required posture with the first id whenever there is any |
| Catalogue.DeployableNetworksFromProfile | internal/domain/policy/allowed_provider_summaries.go:76-101 | the deployable networks of one profile, ascending |
| Catalogue.SummaryWithinCompatible | internal/domain/policy/allowed_provider_summaries.go:30-101 | every summary network is a compatible network of the policy |
| Catalogue.PinWithinCompatible | internal/domain/policy/accepted_provider_snapshot.go:143-165 | every chain an assist pins is a compatible network of the policy when the frozen profile is of an allowed provider |
| Catalogue.PinsCompatibleExact | internal/domain/policy/accepted_provider_snapshot.go:64-165 | whatever assist is asked for under a policy, it pins only compatible networks, if and only if the persistable chains of every profile reachable from an allowed entry are offered by allowed providers |
| Witnesses.ForeignProfileFrozen | internal/domain/policy/accepted_provider_snapshot.go:67-90 | asked for an allowed, unregistered provider whose id holds a NUL, assist freezes a profile of a provider that is not allowed and whose chains are not compatible networks |
| Catalogue.HasPostureCompatibleProvider | internal/domain/policy/catalogue_signals.go:20-46 | finds on any index whether some allowed profile has the required posture |
| Catalogue.PostureCompatibleExact | internal/domain/policy/catalogue_signals.go:20-46 | a policy is no orphan exactly when one of its candidates has the posture it requires |
| Catalogue.OrphanRanksNothing | internal/domain/policy/catalogue_signals.go:20-46 | an orphan policy ranks nothing on any scan |
| Catalogue.ErroneousFlagIsExploreVerdict | internal/domain/policy/explore_couche_a.go:120-136 | for every catalogue whose manifests share no profile key the load-time flag holds exactly for the profiles explore reports as erroneous |

## Left out

- HTTP decoding, status codes, headers, metrics, logging and human-readable messages: only the order of gates and the error kinds are kept.
- Hex decoding of signatures, the recovery-byte adjustment and EIP-191 hashing (internal/walletauth/verify.go:127-163): inside the recovery parameter.
- Failure of JSON marshalling or of the canonicalization library: the hash parameter is total.
- Lower: maps ASCII letters only; Go lower-cases all letters, which matters for provider ids and capabilities outside ASCII but not for addresses, scan ids and digests.
- DecodePayload: matches object keys exactly, while encoding/json also accepts other letter cases for nested keys.
- LoadRegistryFromFiles: takes decoded manifests; reading and decoding files and skipping blank paths are not part of the model.
- IntItems: drops numbers outside the int64 range, where Go's conversion is implementation-defined.
- The zero time: a verifier or store that is given no time reads the clock; here the time is always given.
- Aliasing in the registry: listed profiles are values, not pointers that later show a changed Erroneous flag.
- Payloads, manifests and decoded structs that the source normalizes in place are values; nil pointers are not represented.
- List and Get of the registry return manifests by provider id; HasUnpinnedReferences searches for an unpinned reference; CheckPostureOrphanage counts and logs the policies HasPostureCompatibleProvider denies; CryptoPolicy.Normalize trims fields; DeriveCompositionView copies profile fields.
- UserConstraintsIncompatibleFindingCode and NormalizeWalletSubjectID: text extraction and a prefix around the modelled address normalization.
- internal/persistence/cphttp, NATS, discovery clients, session tokens and configuration: thin clients and wiring; the latest-scan query is an oracle that may be unavailable and may change at any step.
- Locking: each store method holds its lock throughout, so operations are atomic steps.
