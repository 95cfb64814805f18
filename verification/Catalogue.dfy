/**
 internal/domain/policy: compatible_networks.go, allowed_provider_summaries.go and
 catalogue_signals.go, the facts a policy catalogue derives from the registry.
 */
module Catalogue {
  import opened Wrappers
  import opened Text
  import opened Sorting
  import opened Provider
  import opened Compatibility
  import opened Registry
  import opened Explore
  import opened Assist

  datatype Network = Network(chainID: Int64, network: string, status: string, capabilities: seq<string>)

  predicate DeployableEntry(c: ChainSupport) {
    c.status != PLANNED && c.chainID > 0
  }

  function NetworkOf(c: ChainSupport): (r: Network) {
    Network(c.chainID, c.network, c.status, c.capabilities)
  }

  predicate HasID(networks: seq<Network>, chainID: int) {
    exists i :: 0 <= i < |networks| && networks[i].chainID == chainID
  }

  /** Appends the deployable entries whose chain id is not listed yet. */
  function Extend(out: seq<Network>, chains: seq<ChainSupport>): (r: seq<Network>) {
    if chains == [] then out
    else
      var n := |chains| - 1;
      var r := Extend(out, chains[..n]);
      if DeployableEntry(chains[n]) && !HasID(r, chains[n].chainID) then r + [NetworkOf(chains[n])] else r
  }

  method ExtendLoop(start: seq<Network>, chains: seq<ChainSupport>) returns (out: seq<Network>)
    ensures out == Extend(start, chains)
  {
    out := start;
    var seen: set<int> := set i | 0 <= i < |start| :: start[i].chainID;
    var k := 0;
    while k < |chains|
      invariant 0 <= k <= |chains|
      invariant out == Extend(start, chains[..k])
      invariant forall id: int :: id in seen <==> HasID(out, id)
    {
      assert chains[..k + 1][..k] == chains[..k];
      var cs := chains[k];
      if !(cs.status == PLANNED || cs.chainID <= 0) && cs.chainID !in seen {
        HasIDAppend(out, NetworkOf(cs));
        seen := seen + {cs.chainID};
        out := out + [NetworkOf(cs)];
      }
      k := k + 1;
    }
    assert chains[..k] == chains;
  }

  lemma HasIDAppend(out: seq<Network>, n: Network)
    ensures forall id: int :: HasID(out + [n], id) <==> HasID(out, id) || id == n.chainID
  {
    forall id: int ensures HasID(out + [n], id) <==> HasID(out, id) || id == n.chainID {
      if HasID(out, id) {
        var i :| 0 <= i < |out| && out[i].chainID == id;
        assert (out + [n])[i].chainID == id;
      }
      assert (out + [n])[|out|] == n;
    }
  }

  predicate DistinctIDs(networks: seq<Network>) {
    forall i, j :: 0 <= i < j < |networks| ==> networks[i].chainID != networks[j].chainID
  }

  predicate Lists(chains: seq<ChainSupport>, chainID: int) {
    exists i :: 0 <= i < |chains| && DeployableEntry(chains[i]) && chains[i].chainID == chainID
  }

  lemma {:induction false} ExtendIDs(out: seq<Network>, chains: seq<ChainSupport>)
    requires DistinctIDs(out)
    ensures DistinctIDs(Extend(out, chains))
    ensures forall id: int :: HasID(Extend(out, chains), id) <==> HasID(out, id) || Lists(chains, id)
  {
    if chains == [] {
    } else {
      hide DeployableEntry;
      var n := |chains| - 1;
      ExtendIDs(out, chains[..n]);
      var r := Extend(out, chains[..n]);
      HasIDAppend(r, NetworkOf(chains[n]));
      forall id: int
        ensures Lists(chains, id) <==>
                Lists(chains[..n], id) || (DeployableEntry(chains[n]) && chains[n].chainID == id)
      {
        ListsStep(chains, id);
      }
    }
  }

  lemma ListsStep(chains: seq<ChainSupport>, id: int)
    requires chains != []
    ensures var n := |chains| - 1;
            Lists(chains, id) <==> Lists(chains[..n], id) || (DeployableEntry(chains[n]) && chains[n].chainID == id)
  {
    hide DeployableEntry;
    var n := |chains| - 1;
    assert forall i :: 0 <= i < n ==> chains[..n][i] == chains[i];
    if Lists(chains[..n], id) {
      var i :| 0 <= i < n && DeployableEntry(chains[..n][i]) && chains[..n][i].chainID == id;
      assert DeployableEntry(chains[i]);
    }
  }

  lemma {:induction false} ExtendAppend(out: seq<Network>, a: seq<ChainSupport>, b: seq<ChainSupport>)
    ensures Extend(out, a + b) == Extend(Extend(out, a), b)
  {
    if b == [] {
      assert a + b == a;
    } else {
      var n := |b| - 1;
      assert (a + b)[..|a + b| - 1] == a + b[..n];
      ExtendAppend(out, a, b[..n]);
    }
  }

  // ------------------------------------------------------- compatible networks

  /** All chain entries of the given profiles, in order. */
  function ProfileChains(rps: seq<ResolvedProfile>): (r: seq<ChainSupport>) {
    if rps == [] then [] else ProfileChains(rps[..|rps| - 1]) + rps[|rps| - 1].profile.chainSupport
  }

  /** All chain entries of listed profiles, entry by entry. */
  function ListedChains(listed: seq<seq<ResolvedProfile>>): (r: seq<ChainSupport>) {
    if listed == [] then [] else ListedChains(listed[..|listed| - 1]) + ProfileChains(listed[|listed| - 1])
  }

  /** The profiles of each entry; on a valid index the only listing there is. */
  function Listed(x: Index, entries: seq<string>): (r: seq<seq<ResolvedProfile>>)
    ensures |r| == |entries| && forall i :: 0 <= i < |entries| ==> r[i] == ProfilesIn(x, entries[i])
  {
    seq(|entries|, i requires 0 <= i < |entries| => ProfilesIn(x, entries[i]))
  }

  lemma ListingsOf(x: Index, entries: seq<string>)
    ensures Listings(x, entries, Listed(x, entries))
  {
    hide ProfilesIn, ListsProfiles;
    forall i | 0 <= i < |entries| ensures ListsProfiles(x, entries[i], Listed(x, entries)[i]) {
      ProfilesInLists(x, entries[i]);
    }
  }

  lemma ListingsUnique(x: Index, entries: seq<string>, listed: seq<seq<ResolvedProfile>>)
    requires Valid(x) && Listings(x, entries, listed)
    ensures listed == Listed(x, entries)
  {
    hide Valid, ProfilesIn, ListsProfiles;
    forall i | 0 <= i < |entries| ensures listed[i] == Listed(x, entries)[i] {
      ListedElements(x, entries[i], listed[i]);
    }
  }

  function PolicyChains(x: Index, entries: seq<string>): (r: seq<ChainSupport>) {
    ListedChains(Listed(x, entries))
  }

  predicate ByNetworkID(a: Network, b: Network) {
    a.chainID < b.chainID
  }

  function NetworksFrom(listed: seq<seq<ResolvedProfile>>): (r: seq<Network>) {
    StableSort(ByNetworkID, Extend([], ListedChains(listed)))
  }

  function CompatibleNetworks(x: Index, cp: CryptoPolicy): (r: seq<Network>) {
    StableSort(ByNetworkID, Extend([], PolicyChains(x, cp.allowedProviders)))
  }

  lemma SortNetworks(s: seq<Network>, r: seq<Network>)
    requires DistinctIDs(s) && SortedVersion(ByNetworkID, s, r)
    ensures r == StableSort(ByNetworkID, s)
    ensures StrictlyAscending(ByNetworkID, r)
    ensures forall id: int :: HasID(r, id) <==> HasID(s, id)
  {
    hide StableSort;
    assert StrictWeakOrder(ByNetworkID);
    StableSortAscending(ByNetworkID, s);
    forall a, b | a in s && b in s && a != b ensures ByNetworkID(a, b) || ByNetworkID(b, a) {
      var i :| 0 <= i < |s| && s[i] == a;
      var j :| 0 <= j < |s| && s[j] == b;
      assert i < j || j < i;
    }
    NoTiesStrict(ByNetworkID, s, r);
    SameElements(s, r);
    AscendingUnique(ByNetworkID, r, StableSort(ByNetworkID, s));
    forall id: int ensures HasID(r, id) <==> HasID(s, id) {
      if HasID(r, id) {
        var i :| 0 <= i < |r| && r[i].chainID == id;
        assert r[i] in s;
      }
      if HasID(s, id) {
        var i :| 0 <= i < |s| && s[i].chainID == id;
        assert s[i] in r;
      }
    }
  }

  /** The answers for any index: which of several entries of a chain is shown may depend on tied profiles, no more. */
  ghost predicate DerivesNetworks(x: Index, cp: CryptoPolicy, out: seq<Network>) {
    && (forall i, j :: 0 <= i < j < |out| ==> out[i].chainID < out[j].chainID)
    && (forall id: int :: HasID(out, id) <==> Offered(x, cp, id))
    && exists listed :: Listings(x, cp.allowedProviders, listed) && out == NetworksFrom(listed)
  }

  method DeriveCompatibleNetworks(cp: CryptoPolicy, reg: Registry?) returns (out: seq<Network>)
    ensures reg == null ==> out == []
    ensures reg != null ==> DerivesNetworks(reg.State(), cp, out)
    ensures reg != null && Valid(reg.State()) ==> out == CompatibleNetworks(reg.State(), cp)
  {
    hide Valid, ProfilesIn, Extend, StableSort, ListsProfiles, Offered, HasID;
    out := [];
    if reg == null {
      return;
    }
    ExtendNothing();
    ghost var listed: seq<seq<ResolvedProfile>> := [];
    var i := 0;
    while i < |cp.allowedProviders|
      invariant 0 <= i <= |cp.allowedProviders|
      invariant Listings(reg.State(), cp.allowedProviders[..i], listed)
      invariant out == Extend([], ListedChains(listed))
    {
      var rps := reg.ProfilesForProvider(cp.allowedProviders[i]);
      out := ExtendProfiles(out, rps);
      ExtendAppend([], ListedChains(listed), ProfileChains(rps));
      assert (listed + [rps])[..i] == listed;
      listed := listed + [rps];
      i := i + 1;
    }
    assert cp.allowedProviders[..i] == cp.allowedProviders;
    assert StrictWeakOrder(ByNetworkID);
    ghost var s := out;
    out := SortSlice(ByNetworkID, out);
    ExtendIDs([], ListedChains(listed));
    SortNetworks(s, out);
    NetworksFromExact(reg.State(), cp, listed);
    if Valid(reg.State()) {
      ListingsUnique(reg.State(), cp.allowedProviders, listed);
    }
  }

  lemma ExtendNothing()
    ensures Extend([], []) == []
  {
  }

  method ExtendProfiles(start: seq<Network>, rps: seq<ResolvedProfile>) returns (out: seq<Network>)
    ensures out == Extend(start, ProfileChains(rps))
  {
    out := start;
    var j := 0;
    while j < |rps|
      invariant 0 <= j <= |rps|
      invariant out == Extend(start, ProfileChains(rps[..j]))
    {
      hide Extend;
      assert rps[..j + 1][..j] == rps[..j];
      ExtendAppend(start, ProfileChains(rps[..j]), rps[j].profile.chainSupport);
      out := ExtendLoop(out, rps[j].profile.chainSupport);
      j := j + 1;
    }
    assert rps[..j] == rps;
  }

  /** Some profile of an allowed provider lists the chain as deployable. */
  predicate Offered(x: Index, cp: CryptoPolicy, chainID: int) {
    exists i :: 0 <= i < |cp.allowedProviders| && OfferedBy(ProfilesIn(x, cp.allowedProviders[i]), chainID)
  }

  predicate OfferedBy(rps: seq<ResolvedProfile>, chainID: int) {
    exists j :: 0 <= j < |rps| && Lists(rps[j].profile.chainSupport, chainID)
  }

  lemma ListsConcat(a: seq<ChainSupport>, b: seq<ChainSupport>, id: int)
    ensures Lists(a + b, id) <==> Lists(a, id) || Lists(b, id)
  {
    hide DeployableEntry;
    var c := a + b;
    if Lists(a, id) {
      var i :| 0 <= i < |a| && DeployableEntry(a[i]) && a[i].chainID == id;
      assert c[i] == a[i];
    }
    if Lists(b, id) {
      var i :| 0 <= i < |b| && DeployableEntry(b[i]) && b[i].chainID == id;
      assert c[|a| + i] == b[i];
    }
    if Lists(c, id) {
      var i :| 0 <= i < |c| && DeployableEntry(c[i]) && c[i].chainID == id;
      assert i < |a| ==> a[i] == c[i];
      assert i >= |a| ==> b[i - |a|] == c[i];
    }
  }

  lemma {:induction false} ProfileChainsList(rps: seq<ResolvedProfile>, id: int)
    ensures Lists(ProfileChains(rps), id) <==> OfferedBy(rps, id)
  {
    hide Lists;
    if rps == [] {
      NothingListed(id);
    } else {
      var n := |rps| - 1;
      ProfileChainsList(rps[..n], id);
      ListsConcat(ProfileChains(rps[..n]), rps[n].profile.chainSupport, id);
      assert forall j :: 0 <= j < n ==> rps[..n][j] == rps[j];
      if OfferedBy(rps[..n], id) {
        var j :| 0 <= j < n && Lists(rps[..n][j].profile.chainSupport, id);
        assert Lists(rps[j].profile.chainSupport, id);
      }
    }
  }

  lemma NothingListed(id: int)
    ensures !Lists([], id)
  {
  }

  lemma {:induction false} ListedChainsList(listed: seq<seq<ResolvedProfile>>, id: int)
    ensures Lists(ListedChains(listed), id) <==> exists i :: 0 <= i < |listed| && OfferedBy(listed[i], id)
  {
    hide Lists, OfferedBy;
    if listed == [] {
      NothingListed(id);
    } else {
      var n := |listed| - 1;
      ListedChainsList(listed[..n], id);
      ListsConcat(ListedChains(listed[..n]), ProfileChains(listed[n]), id);
      ProfileChainsList(listed[n], id);
      assert forall i :: 0 <= i < n ==> listed[..n][i] == listed[i];
    }
  }

  lemma SameOffer(a: seq<ResolvedProfile>, b: seq<ResolvedProfile>, id: int)
    requires forall rp :: rp in a <==> rp in b
    ensures OfferedBy(a, id) ==> OfferedBy(b, id)
  {
    hide Lists;
    if OfferedBy(a, id) {
      var j :| 0 <= j < |a| && Lists(a[j].profile.chainSupport, id);
      assert a[j] in b;
      var l :| 0 <= l < |b| && b[l] == a[j];
    }
  }

  /** Whatever the listing, a chain is listed exactly when it is offered. */
  lemma ListingsOffer(x: Index, cp: CryptoPolicy, listed: seq<seq<ResolvedProfile>>, id: int)
    requires Listings(x, cp.allowedProviders, listed)
    ensures Lists(ListedChains(listed), id) <==> Offered(x, cp, id)
  {
    hide Lists, OfferedBy, ProfilesIn, ListsProfiles, ListedChains;
    ListedChainsList(listed, id);
    forall i | 0 <= i < |listed|
      ensures OfferedBy(listed[i], id) <==> OfferedBy(ProfilesIn(x, cp.allowedProviders[i]), id)
    {
      ListedElements(x, cp.allowedProviders[i], listed[i]);
      SameOffer(listed[i], ProfilesIn(x, cp.allowedProviders[i]), id);
      SameOffer(ProfilesIn(x, cp.allowedProviders[i]), listed[i], id);
    }
  }

  lemma NetworksFromExact(x: Index, cp: CryptoPolicy, listed: seq<seq<ResolvedProfile>>)
    requires Listings(x, cp.allowedProviders, listed)
    ensures forall i, j :: 0 <= i < j < |NetworksFrom(listed)| ==>
              NetworksFrom(listed)[i].chainID < NetworksFrom(listed)[j].chainID
    ensures forall id: int :: HasID(NetworksFrom(listed), id) <==> Offered(x, cp, id)
  {
    hide Lists, Offered, ListsProfiles, StableSort, Extend, ListedChains;
    var s := Extend([], ListedChains(listed));
    ExtendIDs([], ListedChains(listed));
    assert StrictWeakOrder(ByNetworkID);
    StableSortAscending(ByNetworkID, s);
    SortNetworks(s, NetworksFrom(listed));
    forall id: int ensures HasID(NetworksFrom(listed), id) <==> Offered(x, cp, id) {
      ListingsOffer(x, cp, listed, id);
      assert !HasID([], id);
    }
  }

  /** compatible_networks is strictly ascending and lists exactly the deployable chains of the allowed providers. */
  lemma CompatibleNetworksExact(x: Index, cp: CryptoPolicy)
    ensures forall i, j :: 0 <= i < j < |CompatibleNetworks(x, cp)| ==>
              CompatibleNetworks(x, cp)[i].chainID < CompatibleNetworks(x, cp)[j].chainID
    ensures forall id: int :: HasID(CompatibleNetworks(x, cp), id) <==> Offered(x, cp, id)
  {
    hide Offered, ListsProfiles, StableSort, Extend, ListedChains, HasID;
    ListingsOf(x, cp.allowedProviders);
    NetworksFromExact(x, cp, Listed(x, cp.allowedProviders));
    assert CompatibleNetworks(x, cp) == NetworksFrom(Listed(x, cp.allowedProviders));
  }

  /** The entry at k is deployable and no earlier deployable entry has its chain id. */
  predicate FirstEntry(chains: seq<ChainSupport>, k: nat, n: Network) {
    && k < |chains| && chains[k].status != "planned" && chains[k].chainID > 0
    && n.chainID == chains[k].chainID && n.network == chains[k].network && n.status == chains[k].status
    && n.capabilities == chains[k].capabilities
    && forall j :: 0 <= j < k ==> !(chains[j].status != "planned" && chains[j].chainID == n.chainID)
  }

  lemma {:induction false} ExtendFirst(chains: seq<ChainSupport>, n: Network)
    requires n in Extend([], chains)
    ensures exists k :: FirstEntry(chains, k, n)
  {
    if chains == [] {
    } else {
      hide DeployableEntry, HasID;
      var l := |chains| - 1;
      var front := chains[..l];
      assert forall j :: 0 <= j < l ==> front[j] == chains[j];
      if n in Extend([], front) {
        ExtendFirst(front, n);
        var k :| FirstEntry(front, k, n);
        assert FirstEntry(chains, k, n);
      } else {
        ExtendIDs([], front);
        NotListedBefore(front, n.chainID);
        assert FirstEntry(chains, l, n);
      }
    }
  }

  lemma NotListedBefore(front: seq<ChainSupport>, chainID: int)
    requires !HasID(Extend([], front), chainID)
    ensures forall j :: 0 <= j < |front| ==> !(DeployableEntry(front[j]) && front[j].chainID == chainID)
  {
    hide DeployableEntry, Extend;
    ExtendIDs([], front);
    assert !Lists(front, chainID);
  }

  /** Where several entries name a chain, the catalogue shows the first deployable one. */
  lemma CompatibleNetworkIsFirst(x: Index, cp: CryptoPolicy, n: Network)
    requires n in CompatibleNetworks(x, cp)
    ensures exists k :: FirstEntry(PolicyChains(x, cp.allowedProviders), k, n)
  {
    hide StableSort, Extend, PolicyChains;
    var chains := PolicyChains(x, cp.allowedProviders);
    StableSortPermutes(ByNetworkID, Extend([], chains));
    ExtendFirst(chains, n);
  }

  // ---------------------------------------------------------------- summaries

  datatype Summary = Summary(providerID: string, scheme: string, family: string, networks: seq<Network>)

  /** The first profile of the required posture, else the first profile. */
  function Pick(rps: seq<ResolvedProfile>, required: string): (r: Option<ResolvedProfile>) {
    var k := FirstMatch(rps, required);
    if rps == [] then None else if k < |rps| then Some(rps[k]) else Some(rps[0])
  }

  predicate PostureIs(rp: ResolvedProfile, required: string) {
    required != "" && Trim(rp.profile.resultingPosture) == required
  }

  function FirstMatch(rps: seq<ResolvedProfile>, required: string): (k: nat)
    ensures k <= |rps|
  {
    if rps == [] || PostureIs(rps[0], required) then 0 else 1 + FirstMatch(rps[1..], required)
  }

  /** The preferred profile matches the posture whenever one does, and is the first that does. */
  lemma {:induction false} FirstMatchIsFirst(rps: seq<ResolvedProfile>, required: string)
    ensures var k := FirstMatch(rps, required);
            && (k < |rps| ==> PostureIs(rps[k], required))
            && forall i :: 0 <= i < k ==> !PostureIs(rps[i], required)
  {
    hide PostureIs;
    if rps == [] || PostureIs(rps[0], required) {
    } else {
      FirstMatchIsFirst(rps[1..], required);
      var k := FirstMatch(rps[1..], required);
      assert forall i :: 0 <= i < k ==> rps[1..][i] == rps[i + 1];
      forall i | 0 <= i < 1 + k ensures !PostureIs(rps[i], required) {
        assert i > 0 ==> rps[1..][i - 1] == rps[i];
      }
    }
  }

  method PickCatalogProfile(rps: seq<ResolvedProfile>, required: string) returns (r: Option<ResolvedProfile>)
    ensures r == Pick(rps, required)
  {
    hide PostureIs, FirstMatch;
    FirstMatchIsFirst(rps, required);
    var first: Option<ResolvedProfile> := None;
    var i := 0;
    while i < |rps|
      invariant 0 <= i <= |rps|
      invariant first == if i == 0 then None else Some(rps[0])
      invariant forall k :: 0 <= k < i ==> !PostureIs(rps[k], required)
    {
      if first.None? {
        first := Some(rps[i]);
      }
      if PostureIs(rps[i], required) {
        return Some(rps[i]);
      }
      i := i + 1;
    }
    return first;
  }

  function ProfileNetworks(p: SolutionProfile): (r: seq<Network>) {
    StableSort(ByNetworkID, Extend([], p.chainSupport))
  }

  method DeployableNetworksFromProfile(p: SolutionProfile) returns (out: seq<Network>)
    ensures out == ProfileNetworks(p)
  {
    hide StableSort;
    var s := ExtendLoop([], p.chainSupport);
    assert StrictWeakOrder(ByNetworkID);
    out := SortSlice(ByNetworkID, s);
    ExtendIDs([], p.chainSupport);
    SortNetworks(s, out);
  }

  /** The summary of one entry, given its resolved profiles. */
  function SummaryOf(cp: CryptoPolicy, entry: string, rps: seq<ResolvedProfile>): (r: seq<Summary>) {
    var providerID := Trim(entry);
    if providerID == "" then []
    else
      match Pick(rps, Trim(cp.requiredPosture))
      case None => []
      case Some(rp) =>
        [Summary(providerID, rp.profile.signature.scheme, rp.profile.signature.family, ProfileNetworks(rp.profile))]
  }

  function SummariesFrom(cp: CryptoPolicy, entries: seq<string>, listed: seq<seq<ResolvedProfile>>): (r: seq<Summary>)
    requires |listed| == |entries|
  {
    if entries == [] then []
    else
      var n := |entries| - 1;
      SummariesFrom(cp, entries[..n], listed[..n]) + SummaryOf(cp, entries[n], listed[n])
  }

  function Summaries(x: Index, cp: CryptoPolicy): (r: seq<Summary>) {
    SummariesFrom(cp, cp.allowedProviders, Listed(x, cp.allowedProviders))
  }

  ghost predicate DerivesSummaries(x: Index, cp: CryptoPolicy, out: seq<Summary>) {
    exists listed :: Listings(x, cp.allowedProviders, listed) && out == SummariesFrom(cp, cp.allowedProviders, listed)
  }

  method DeriveAllowedProviderSummaries(cp: CryptoPolicy, reg: Registry?) returns (out: seq<Summary>)
    ensures reg == null ==> out == []
    ensures reg != null ==> DerivesSummaries(reg.State(), cp, out)
    ensures reg != null && Valid(reg.State()) ==> out == Summaries(reg.State(), cp)
  {
    hide Valid, ProfilesIn, Trim, Pick, ProfileNetworks, ListsProfiles, ProviderKey, SummariesFrom;
    NoSummaries(cp);
    out := [];
    if reg == null {
      return;
    }
    var required := Trim(cp.requiredPosture);
    ghost var listed: seq<seq<ResolvedProfile>> := [];
    var i := 0;
    while i < |cp.allowedProviders|
      invariant 0 <= i <= |cp.allowedProviders|
      invariant Listings(reg.State(), cp.allowedProviders[..i], listed)
      invariant out == SummariesFrom(cp, cp.allowedProviders[..i], listed)
    {
      var providerID := Trim(cp.allowedProviders[i]);
      SameProvider(reg.State(), cp.allowedProviders[i]);
      ghost var seen := ProfilesIn(reg.State(), cp.allowedProviders[i]);
      ProfilesInLists(reg.State(), cp.allowedProviders[i]);
      if providerID != "" {
        var rps := reg.ProfilesForProvider(providerID);
        seen := rps;
        var chosen := PickCatalogProfile(rps, required);
        if chosen.Some? {
          var p := chosen.value.profile;
          var networks := DeployableNetworksFromProfile(p);
          out := out + [Summary(providerID, p.signature.scheme, p.signature.family, networks)];
        }
      }
      SummariesNext(cp, cp.allowedProviders, i, listed, seen);
      listed := listed + [seen];
      i := i + 1;
    }
    assert cp.allowedProviders[..i] == cp.allowedProviders;
    if Valid(reg.State()) {
      ListingsUnique(reg.State(), cp.allowedProviders, listed);
    }
  }

  lemma NoSummaries(cp: CryptoPolicy)
    ensures SummariesFrom(cp, [], []) == []
  {
  }

  lemma SummariesNext(cp: CryptoPolicy, entries: seq<string>, i: nat, listed: seq<seq<ResolvedProfile>>,
                      rps: seq<ResolvedProfile>)
    requires i < |entries| && |listed| == i
    ensures SummariesFrom(cp, entries[..i + 1], listed + [rps]) ==
            SummariesFrom(cp, entries[..i], listed) + SummaryOf(cp, entries[i], rps)
  {
    hide SummaryOf;
    assert entries[..i + 1][..i] == entries[..i];
    assert (listed + [rps])[..i] == listed;
  }

  lemma {:induction false} SummaryFrom(cp: CryptoPolicy, entries: seq<string>, listed: seq<seq<ResolvedProfile>>,
                                       s: Summary)
    requires |listed| == |entries| && s in SummariesFrom(cp, entries, listed)
    ensures exists i :: 0 <= i < |entries| && s in SummaryOf(cp, entries[i], listed[i])
  {
    hide SummaryOf;
    if entries == [] {
    } else {
      var n := |entries| - 1;
      if s !in SummaryOf(cp, entries[n], listed[n]) {
        SummaryFrom(cp, entries[..n], listed[..n], s);
        var i :| 0 <= i < n && s in SummaryOf(cp, entries[..n][i], listed[..n][i]);
        assert entries[..n][i] == entries[i] && listed[..n][i] == listed[i];
      }
    }
  }

  /** The summary of an entry shows this profile of it. */
  ghost predicate Shows(x: Index, cp: CryptoPolicy, s: Summary, i: nat, rp: ResolvedProfile) {
    && i < |cp.allowedProviders| && s.providerID == Trim(cp.allowedProviders[i]) && s.providerID != ""
    && rp in ProfilesIn(x, cp.allowedProviders[i])
    && s.scheme == rp.profile.signature.scheme && s.family == rp.profile.signature.family
    && (forall j, k :: 0 <= j < k < |s.networks| ==> s.networks[j].chainID < s.networks[k].chainID)
    && (forall n :: n in s.networks ==> exists k :: FirstEntry(rp.profile.chainSupport, k, n))
    && (forall id: int :: HasID(s.networks, id) <==>
          exists k :: 0 <= k < |rp.profile.chainSupport| && rp.profile.chainSupport[k].status != "planned"
                   && rp.profile.chainSupport[k].chainID > 0 && rp.profile.chainSupport[k].chainID == id)
  }

  /** It is of the required posture whenever the provider has such a profile, and no such profile has an earlier id. */
  ghost predicate Preferred(x: Index, cp: CryptoPolicy, i: nat, rp: ResolvedProfile)
    requires i < |cp.allowedProviders|
  {
    var required := Trim(cp.requiredPosture);
    forall other :: other in ProfilesIn(x, cp.allowedProviders[i]) ==>
      (required != "" && Trim(other.profile.resultingPosture) == required ==>
         Trim(rp.profile.resultingPosture) == required && !Precedes(other.profile.id, rp.profile.id))
  }

  /** What every summary shows. */
  lemma SummaryShows(x: Index, cp: CryptoPolicy, s: Summary) returns (i: nat, rp: ResolvedProfile)
    requires s in Summaries(x, cp)
    ensures Shows(x, cp, s, i, rp) && Preferred(x, cp, i, rp)
  {
    hide Trim, ProfilesIn, FirstEntry, StableSort, Extend, SummariesFrom, Pick, ProfileNetworks, Precedes, HasID;
    var listed := Listed(x, cp.allowedProviders);
    SummaryFrom(cp, cp.allowedProviders, listed, s);
    i :| 0 <= i < |cp.allowedProviders| && s in SummaryOf(cp, cp.allowedProviders[i], listed[i]);
    var rps := ProfilesIn(x, cp.allowedProviders[i]);
    rp := Pick(rps, Trim(cp.requiredPosture)).value;
    PickPrefers(x, cp.allowedProviders[i], Trim(cp.requiredPosture), rp);
    ProfileNetworksRead(rp.profile);
  }

  lemma PickPrefers(x: Index, entry: string, required: string, rp: ResolvedProfile)
    requires Pick(ProfilesIn(x, entry), required) == Some(rp)
    ensures rp in ProfilesIn(x, entry)
    ensures forall other :: other in ProfilesIn(x, entry) ==>
              (required != "" && Trim(other.profile.resultingPosture) == required ==>
                 Trim(rp.profile.resultingPosture) == required && !Precedes(other.profile.id, rp.profile.id))
  {
    hide Trim, ProfilesIn, Precedes, FirstMatch;
    var rps := ProfilesIn(x, entry);
    FirstMatchIsFirst(rps, required);
    ProfilesInLists(x, entry);
    var k := FirstMatch(rps, required);
    forall other | other in rps && required != "" && Trim(other.profile.resultingPosture) == required
      ensures Trim(rp.profile.resultingPosture) == required && !Precedes(other.profile.id, rp.profile.id)
    {
      var j :| 0 <= j < |rps| && rps[j] == other;
      assert PostureIs(rps[j], required);
      if k < j {
        ListedInOrder(x, entry, rps, k, j);
      } else {
        NotBeforeItself(rps[k].profile.id);
      }
    }
  }

  lemma NotBeforeItself(s: string)
    ensures !Precedes(s, s)
  {
    LessExact(s, s);
    LessTrichotomy(s, s);
  }

  lemma ProfileNetworksRead(p: SolutionProfile)
    ensures forall j,
            k :: 0 <= j < k < |ProfileNetworks(p)| ==> ProfileNetworks(p)[j].chainID < ProfileNetworks(p)[k].chainID
    ensures forall n :: n in ProfileNetworks(p) ==> exists k :: FirstEntry(p.chainSupport, k, n)
    ensures forall id: int :: HasID(ProfileNetworks(p), id) <==>
              exists k :: 0 <= k < |p.chainSupport| && p.chainSupport[k].status != "planned"
                       && p.chainSupport[k].chainID > 0 && p.chainSupport[k].chainID == id
  {
    hide StableSort, Extend, FirstEntry, HasID;
    var s := Extend([], p.chainSupport);
    ExtendIDs([], p.chainSupport);
    assert StrictWeakOrder(ByNetworkID);
    StableSortAscending(ByNetworkID, s);
    SortNetworks(s, ProfileNetworks(p));
    SameElements(s, ProfileNetworks(p));
    forall n | n in ProfileNetworks(p) ensures exists k :: FirstEntry(p.chainSupport, k, n) {
      ExtendFirst(p.chainSupport, n);
    }
    forall id: int ensures HasID(ProfileNetworks(p), id) <==>
              exists k :: 0 <= k < |p.chainSupport| && p.chainSupport[k].status != "planned"
                       && p.chainSupport[k].chainID > 0 && p.chainSupport[k].chainID == id
    {
      ProfileNetworksExact(p, id);
    }
  }

  /** Every network of a provider summary is a compatible network of the policy. */
  lemma SummaryWithinCompatible(x: Index, cp: CryptoPolicy, s: Summary, id: int)
    requires s in Summaries(x, cp) && HasID(s.networks, id)
    ensures HasID(CompatibleNetworks(x, cp), id)
  {
    hide Trim, ProfilesIn, Lists, CompatibleNetworks, StableSort, Extend, SummariesFrom;
    var listed := Listed(x, cp.allowedProviders);
    SummaryFrom(cp, cp.allowedProviders, listed, s);
    var i :| 0 <= i < |cp.allowedProviders| && s in SummaryOf(cp, cp.allowedProviders[i], listed[i]);
    var rps := ProfilesIn(x, cp.allowedProviders[i]);
    var rp := Pick(rps, Trim(cp.requiredPosture)).value;
    assert rp in rps;
    var j :| 0 <= j < |rps| && rps[j] == rp;
    ProfileNetworksExact(rp.profile, id);
    assert OfferedBy(rps, id);
    assert Offered(x, cp, id);
    CompatibleNetworksExact(x, cp);
  }

  lemma ProfileNetworksExact(p: SolutionProfile, id: int)
    ensures HasID(ProfileNetworks(p), id) <==> Lists(p.chainSupport, id)
  {
    hide Lists, StableSort, Extend;
    ExtendIDs([], p.chainSupport);
    assert StrictWeakOrder(ByNetworkID);
    StableSortAscending(ByNetworkID, Extend([], p.chainSupport));
    SortNetworks(Extend([], p.chainSupport), ProfileNetworks(p));
    assert !HasID([], id);
  }

  /** Every chain an assist pins is a compatible network, if the frozen profile is of an allowed provider. */
  lemma PinWithinCompatible(x: Index, cp: CryptoPolicy, raw: SolutionProfileRef, client: seq<string>, a: AssistResult,
                            c: SnapshotChain)
    requires Valid(x) && AssistAnswers(x, cp, raw, client, Ok(a)) && ProviderAllowed(cp, a.ref.providerID)
    requires c in a.snapshot.chainSupportUsed
    ensures HasID(CompatibleNetworks(x, cp), c.chainID)
  {
    hide Trim, ProfilesIn, LookupIn, CompatibleNetworks, Valid, Persistables, AllKnown, MergedFindings;
    var s := a.snapshot;
    var rp := LookupIn(x, LookupRef(TrimRef(raw))).value;
    FoundIsListed(x, LookupRef(TrimRef(raw)));
    var i :| 0 <= i < |cp.allowedProviders| && Lower(Trim(cp.allowedProviders[i])) == Lower(Trim(rp.providerID));
    SameKeySameProfiles(x, cp.allowedProviders[i], rp.providerID);
    var k :| 0 <= k < |s.chainSupportUsed| && s.chainSupportUsed[k] == c;
    PinnedIsOffered(x, cp, i, rp, s.chainSupportUsed, k);
  }

  /** Whatever assist is asked for under this policy, it pins only compatible networks. */
  ghost predicate PinsCompatible(x: Index, cp: CryptoPolicy) {
    forall raw: SolutionProfileRef, client: seq<string>, a: AssistResult, c: SnapshotChain ::
      AssistAnswers(x, cp, raw, client, Ok(a)) && c in a.snapshot.chainSupportUsed ==>
        HasID(CompatibleNetworks(x, cp), c.chainID)
  }

  /** The persistable chains of every profile a reference to p can reach are offered by allowed providers. */
  predicate FreezableOffered(x: Index, cp: CryptoPolicy, p: string) {
    forall k, i :: k in x.manifests && 0 <= i < |x.manifests[k].profiles| && Freezable(x, p, k, i) ==>
      PersistablesOffered(x, cp, x.manifests[k].profiles[i].chainSupport)
  }

  predicate PersistablesOffered(x: Index, cp: CryptoPolicy, chains: seq<ChainSupport>) {
    forall c :: c in Persistables(chains) ==> Offered(x, cp, c.chainID)
  }

  lemma PinnedAre(p: SolutionProfile, client: seq<string>, s: Snapshot)
    requires SnapshotOf(p, client, s)
    ensures forall c :: c in s.chainSupportUsed <==> c in Persistables(p.chainSupport)
  {
    hide Persistables, MergedFindings;
    SameElements(Persistables(p.chainSupport), s.chainSupportUsed);
  }

  /** Assist pins only compatible networks exactly when every profile an allowed entry reaches lists only such. */
  lemma PinsCompatibleExact(x: Index, cp: CryptoPolicy)
    requires Valid(x)
    ensures PinsCompatible(x, cp) <==>
            forall j :: 0 <= j < |cp.allowedProviders| && Trim(cp.allowedProviders[j]) != "" ==>
              FreezableOffered(x, cp, cp.allowedProviders[j])
    ensures FreezesOnlyAllowed(x, cp) ==> PinsCompatible(x, cp)
  {
    hide Valid, AssistAnswers, Freezable, ProviderAllowed, SnapshotOf, Trim, CompatibleNetworks, Offered, HasID,
         Persistables;
    CompatibleNetworksExact(x, cp);
    if PinsCompatible(x, cp) {
      forall j, k, i | 0 <= j < |cp.allowedProviders| && Trim(cp.allowedProviders[j]) != "" && k in x.manifests
                       && 0 <= i < |x.manifests[k].profiles| && Freezable(x, cp.allowedProviders[j], k, i)
        ensures PersistablesOffered(x, cp, x.manifests[k].profiles[i].chainSupport)
      {
        EntryAllowed(cp, j);
        var raw, a := FreezableIsFrozen(x, cp, cp.allowedProviders[j], k, i);
        PinnedAre(x.manifests[k].profiles[i], [], a.snapshot);
      }
    } else {
      var raw: SolutionProfileRef, client: seq<string>, a: AssistResult, c: SnapshotChain :|
        && AssistAnswers(x, cp, raw, client, Ok(a)) && c in a.snapshot.chainSupportUsed
        && !HasID(CompatibleNetworks(x, cp), c.chainID);
      var k, i := FrozenIsFreezable(x, cp, raw, client, a);
      PinnedAre(x.manifests[k].profiles[i], client, a.snapshot);
      var j := AllowedEntry(cp, raw.providerID);
      SameFreezable(x, raw.providerID, cp.allowedProviders[j], k, i);
      assert !FreezableOffered(x, cp, cp.allowedProviders[j]);
    }
    if FreezesOnlyAllowed(x, cp) {
      forall raw: SolutionProfileRef, client: seq<string>, a: AssistResult, c: SnapshotChain
        | AssistAnswers(x, cp, raw, client, Ok(a)) && c in a.snapshot.chainSupportUsed
        ensures HasID(CompatibleNetworks(x, cp), c.chainID)
      {
        PinWithinCompatible(x, cp, raw, client, a, c);
      }
    }
  }

  lemma PinnedIsOffered(x: Index, cp: CryptoPolicy, i: nat, rp: ResolvedProfile, chains: seq<SnapshotChain>, k: nat)
    requires i < |cp.allowedProviders| && rp in ProfilesIn(x, cp.allowedProviders[i])
    requires PinnedChains(rp.profile.chainSupport, chains) && k < |chains|
    ensures HasID(CompatibleNetworks(x, cp), chains[k].chainID)
  {
    hide Trim, ProfilesIn, CompatibleNetworks, Persistables;
    var rps := ProfilesIn(x, cp.allowedProviders[i]);
    var j :| 0 <= j < |rps| && rps[j] == rp;
    SameElements(Persistables(rp.profile.chainSupport), chains);
    assert chains[k] in Persistables(rp.profile.chainSupport);
    PersistablesElements(rp.profile.chainSupport, chains[k]);
    assert Lists(rp.profile.chainSupport, chains[k].chainID);
    assert OfferedBy(rps, chains[k].chainID);
    assert Offered(x, cp, chains[k].chainID);
    CompatibleNetworksExact(x, cp);
  }

  // ------------------------------------------------------------------ signals

  /** Some allowed provider has a profile of the required posture. */
  predicate PostureCompatible(x: Index, cp: CryptoPolicy) {
    && Trim(cp.requiredPosture) != ""
    && exists i :: 0 <= i < |cp.allowedProviders| && EntryCompatible(x, cp, cp.allowedProviders[i])
  }

  predicate EntryCompatible(x: Index, cp: CryptoPolicy, entry: string) {
    Trim(entry) != "" && AnyPosture(ProfilesIn(x, Trim(entry)), Trim(cp.requiredPosture))
  }

  predicate AnyPosture(rps: seq<ResolvedProfile>, required: string) {
    exists j :: 0 <= j < |rps| && Trim(rps[j].profile.resultingPosture) == required
  }

  method HasPostureCompatibleProvider(cp: CryptoPolicy, reg: Registry?) returns (found: bool)
    ensures found <==> reg != null && PostureCompatible(reg.State(), cp)
  {
    hide Valid, ProfilesIn, ListsProfiles, Trim;
    var required := Trim(cp.requiredPosture);
    if |cp.allowedProviders| == 0 || required == "" || reg == null {
      return false;
    }
    var i := 0;
    while i < |cp.allowedProviders|
      invariant 0 <= i <= |cp.allowedProviders|
      invariant forall k :: 0 <= k < i ==> !EntryCompatible(reg.State(), cp, cp.allowedProviders[k])
    {
      var providerID := Trim(cp.allowedProviders[i]);
      if providerID != "" {
        var rps := reg.ProfilesForProvider(providerID);
        SamePosture(reg.State(), providerID, rps, required);
        var j := 0;
        while j < |rps|
          invariant 0 <= j <= |rps|
          invariant forall k :: 0 <= k < j ==> Trim(rps[k].profile.resultingPosture) != required
        {
          if Trim(rps[j].profile.resultingPosture) == required {
            assert EntryCompatible(reg.State(), cp, cp.allowedProviders[i]);
            return true;
          }
          j := j + 1;
        }
        assert !EntryCompatible(reg.State(), cp, cp.allowedProviders[i]);
      }
      i := i + 1;
    }
    return false;
  }

  lemma SamePosture(x: Index, providerID: string, rps: seq<ResolvedProfile>, required: string)
    requires ListsProfiles(x, providerID, rps)
    ensures AnyPosture(rps, required) <==> AnyPosture(ProfilesIn(x, providerID), required)
  {
    hide Trim, ProfilesIn, ListsProfiles;
    ListedElements(x, providerID, rps);
    var all := ProfilesIn(x, providerID);
    if AnyPosture(rps, required) {
      var j :| 0 <= j < |rps| && Trim(rps[j].profile.resultingPosture) == required;
      assert rps[j] in all;
    }
    if AnyPosture(all, required) {
      var j :| 0 <= j < |all| && Trim(all[j].profile.resultingPosture) == required;
      assert all[j] in rps;
    }
  }

  /** A policy is no orphan exactly when one of its candidates has the posture it requires. */
  lemma PostureCompatibleExact(x: Index, cp: CryptoPolicy)
    ensures PostureCompatible(x, cp) <==>
            Trim(cp.requiredPosture) != ""
            && exists rp :: Candidate(x, cp, rp) && Trim(rp.profile.resultingPosture) == Trim(cp.requiredPosture)
  {
    hide Trim, ProfilesIn;
    if PostureCompatible(x, cp) {
      var i :| 0 <= i < |cp.allowedProviders| && EntryCompatible(x, cp, cp.allowedProviders[i]);
      var rps := ProfilesIn(x, Trim(cp.allowedProviders[i]));
      var j :| 0 <= j < |rps| && Trim(rps[j].profile.resultingPosture) == Trim(cp.requiredPosture);
      assert CandidateAt(x, cp.allowedProviders[i], rps[j]);
    }
    if rp :| Candidate(x, cp, rp) && Trim(rp.profile.resultingPosture) == Trim(cp.requiredPosture) {
      var i :| 0 <= i < |cp.allowedProviders| && CandidateAt(x, cp.allowedProviders[i], rp);
      if Trim(cp.requiredPosture) != "" {
        assert EntryCompatible(x, cp, cp.allowedProviders[i]);
      }
    }
  }

  /** An orphan policy ranks nothing, whatever the scan; equivalently, a ranked row clears the policy of orphanage. */
  lemma OrphanRanksNothing(x: Index, cp: CryptoPolicy, observation: Observation)
    requires Valid(x) && Trim(cp.requiredPosture) != ""
    ensures ExploreSpec(x, cp, observation).ranked != [] ==> PostureCompatible(x, cp)
  {
    hide Trim, ExploreSpec, ProfilesIn, Valid, WalletTypeAccepted, ScanChainFindings, RankedOf;
    var ranked := ExploreSpec(x, cp, observation).ranked;
    if ranked != [] {
      var r := ranked[0];
      RankedExactly(x, cp, observation, r);
      var rp :| Candidate(x, cp, rp) && r == RankedOf(cp, rp) && SuggestionConsistent(rp.profile)
                && ScanFindings(observation, cp.requiredPosture, rp.profile) == [];
      assert PostureFindings(cp.requiredPosture, rp.profile) == [];
      var i :| 0 <= i < |cp.allowedProviders| && CandidateAt(x, cp.allowedProviders[i], rp);
      var rps := ProfilesIn(x, Trim(cp.allowedProviders[i]));
      var j :| 0 <= j < |rps| && rps[j] == rp;
      assert EntryCompatible(x, cp, cp.allowedProviders[i]);
    }
  }

  predicate Unflagged(x: Index) {
    forall k :: k in x.byKey ==> !x.byKey[k].erroneous
  }

  lemma {:induction false} EntriesUnflagged(m: ProviderManifest, n: nat)
    requires n <= |m.profiles|
    ensures forall k :: k in Entries(m, n) ==> !Entries(m, n)[k].erroneous
  {
    hide KeyOf;
    if n == 0 {
    } else {
      EntriesUnflagged(m, n - 1);
    }
  }

  lemma {:induction false} LoadUnflagged(ms: seq<ProviderManifest>)
    ensures Unflagged(Load(ms))
  {
    hide Vacant, ProviderKey, Entries;
    if ms == [] {
    } else {
      var n := |ms| - 1;
      LoadUnflagged(ms[..n]);
      EntriesUnflagged(ms[n], Written(Load(ms[..n]).byKey, ms[n], 0));
    }
  }

  /** The catalogue as the service starts with it: loaded, then signalled. */
  function Started(ms: seq<ProviderManifest>): (r: Index) {
    Index(Signalled(Load(ms).byKey), Load(ms).manifests)
  }

  /** The flag set at load time is the verdict explore reports at run time. */
  lemma ErroneousFlagIsExploreVerdict(ms: seq<ProviderManifest>, cp: CryptoPolicy, obs: Observation, entry: string,
                                      rp: ResolvedProfile)
    requires AllLoaded(ms) && KeysApart(ms)
    requires CandidateAt(Started(ms), entry, rp)
    ensures Valid(Started(ms))
    ensures var row := ProfileRow(Started(ms), cp, obs, rp);
            rp.erroneous <==> row.Rejected? && row.rejected.reason == ErroneousSuggestion
  {
    hide Valid, Load, ProfileRow, SuggestionConsistent, AllLoaded, KeysApart, CandidateAt;
    LoadValid(ms);
    LoadUnflagged(ms);
    var x := Started(ms);
    SignalledValid(Load(ms));
    CandidateRow(x, cp, obs, entry, rp);
    FlagsOfListed(Load(ms), x, entry, rp);
  }

  lemma FlagsOfListed(before: Index, x: Index, entry: string, rp: ResolvedProfile)
    requires Unflagged(before) && x == Index(Signalled(before.byKey), before.manifests)
    requires Valid(x) && CandidateAt(x, entry, rp)
    ensures rp.erroneous <==> !SuggestionConsistent(rp.profile)
  {
    hide Valid, SuggestionConsistent, ProviderKey, KeyOf, ProfilesIn, Trim;
    ProfilesInElements(x, Trim(entry), rp);
    var m := x.manifests[ProviderKey(Trim(entry))];
    var i :| 0 <= i < |m.profiles| && KeyOf(m, i) in x.byKey && x.byKey[KeyOf(m, i)] == rp;
    assert rp == Flagged(before.byKey[KeyOf(m, i)]);
  }
}
