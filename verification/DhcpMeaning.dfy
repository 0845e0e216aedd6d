/** What the DHCP views say of an observation, in terms of the assets themselves: when an asset counts,
    which observations are fresh, which of them fill the board, and how each is reconciled. */
module DhcpMeaning {
  import opened Prelude
  import opened Values
  import opened DhcpIndex
  import opened DhcpReconcile
  import opened DhcpViews

  // ----- the lifetime of an asset -----

  /** An asset that can be current is so from its start to just before its end, if it has one; one whose start
      cannot be read or carries no offset, or whose end cannot be read, never is. */
  lemma AssetLifetime(env: Env, asset: Fields)
    ensures var start, until := env.parseTime(Get(asset, ValidFrom, Null)), Get(asset, ValidUntil, Null);
      var ends := env.parseTime(until);
      if start.Some? && start.value.aware && (!Truthy(until) || ends.Some?) then
        forall now :: Current(env, now, asset) <==>
          now >= start.value.instant && !(Truthy(until) && now >= ends.value.instant)
      else
        forall now :: !Current(env, now, asset)
  {
  }

  // ----- fresh observations -----

  /** Its lease names a time that is not over. */
  predicate LeaseRuns(env: Env, now: int, o: Observation) {
    var lease := Get(o.raw, LeaseExpiresAt, Null);
    Truthy(lease) && env.parseTime(lease).Some? && env.parseTime(lease).value.instant >= now
  }

  /** Seen in the last twenty-four hours, counted in microseconds, or on a running lease. */
  predicate Fresh(env: Env, now: int, o: Observation) {
    now - o.lastSeen <= 24 * 3600 * 1000000 || LeaseRuns(env, now, o)
  }

  /** The observations left out as stale are exactly those that are not fresh. An observation is fresh when
      it is made, and one gone stale stays stale. */
  lemma StaleIsNotFresh(env: Env, now: int, later: int, o: Observation)
    ensures Stale(env, now, o) <==> !Fresh(env, now, o)
    ensures Fresh(env, o.lastSeen, o)
    ensures now <= later && Stale(env, now, o) ==> Stale(env, later, o)
  {
  }

  // ----- who claims an observation -----

  /** The current assets that carry its hostname or MAC, by looking at every asset. */
  function StableClaims(env: Env, pass: Pass, now: int, assets: seq<Value>, o: Observation): set<string> {
    (if o.hostname != "" then Claimants(env, pass, now, assets, HostnameKind, o.hostname) else {})
    + (if o.mac != "" then Claimants(env, pass, now, assets, MacKind, o.mac) else {})
  }

  function AddressClaims(env: Env, pass: Pass, now: int, assets: seq<Value>, o: Observation): set<string> {
    Claimants(env, pass, now, assets, IpKind, o.address)
  }

  lemma MatchesAreClaims(env: Env, pass: Pass, now: int, assets: seq<Value>, index: Index, o: Observation)
    requires IndexOf(env, pass, now, assets, index)
    ensures Covered(index)
    ensures StableMatches(index.identities, o) == StableClaims(env, pass, now, assets, o)
    ensures IpMatches(index.identities, o) == AddressClaims(env, pass, now, assets, o)
  {
    hide Claimants, DescribesLast;
    IndexCovers(env, pass, now, assets, index);
  }

  /** A discovery id is the observation's own text, cut at 64 characters. */
  lemma DiscoveryIdIsText(env: Env, o: Observation)
    ensures var text, id := RawText(env, o, DiscoveryId), DiscoveryIdOf(env, o);
      id <= text && |id| == Min(|text|, 64)
  {
    hide RawText;
  }

  // ----- the board -----

  /** The one asset with the observation's hostname or MAC, if no other asset has its address. */
  predicate Overlays(env: Env, now: int, assets: seq<Value>, o: Observation, id: string) {
    && Fresh(env, now, o)
    && StableClaims(env, OverlayPass, now, assets, o) == {id}
    && AddressClaims(env, OverlayPass, now, assets, o) <= {id}
  }

  /** No asset has anything of it, and it has an identifier. */
  predicate Discovers(env: Env, now: int, assets: seq<Value>, o: Observation, discoveryId: string) {
    && Fresh(env, now, o)
    && StableClaims(env, OverlayPass, now, assets, o) == {}
    && AddressClaims(env, OverlayPass, now, assets, o) == {}
    && DiscoveryIdOf(env, o) == discoveryId != ""
  }

  lemma SlotMeans(env: Env, now: int, assets: seq<Value>, index: Index, o: Observation)
    requires IndexOf(env, OverlayPass, now, assets, index)
    ensures Covered(index)
    ensures forall id :: SlotOf(env, index, now, o) == Some(AssetSlot(id)) <==> Overlays(env, now, assets, o, id)
    ensures forall id :: SlotOf(env, index, now, o) == Some(DiscoveredSlot(id)) <==> Discovers(env, now, assets, o, id)
  {
    hide IndexOf, Covered, StableMatches, IpMatches, StableClaims, AddressClaims, Stale, Fresh, DiscoveryIdOf;
    MatchesAreClaims(env, OverlayPass, now, assets, index, o);
    StaleIsNotFresh(env, now, now, o);
    var stable := StableMatches(index.identities, o);
    if |stable| == 1 { OneElement(stable); }
  }

  /** The board, said of the assets: a fresh observation that identifies one asset fills the asset's place, a
      fresh one that matches nothing fills its own, no other place is filled, and each place holds such an
      observation, the one with the greatest key. */
  lemma BoardMeans(env: Env, now: int, assets: seq<Value>, index: Index, all: seq<Observation>, entries: Entries)
    requires IndexOf(env, OverlayPass, now, assets, index) && Covered(index)
    requires HoldsGreatest(env, index, now, all, entries)
    ensures forall id :: AssetSlot(id) in entries <==> exists o :: o in all && Overlays(env, now, assets, o, id)
    ensures forall id :: DiscoveredSlot(id) in entries <==> exists o :: o in all && Discovers(env, now, assets, o, id)
    ensures forall id :: AssetSlot(id) in entries ==>
      && Overlays(env, now, assets, entries[AssetSlot(id)], id)
      && forall o :: o in all && Overlays(env, now, assets, o, id) ==> SeenLe(env, o, entries[AssetSlot(id)])
    ensures forall id :: DiscoveredSlot(id) in entries ==>
      && Discovers(env, now, assets, entries[DiscoveredSlot(id)], id)
      && forall o :: o in all && Discovers(env, now, assets, o, id) ==> SeenLe(env, o, entries[DiscoveredSlot(id)])
  {
    hide IndexOf, Covered, SlotOf, Overlays, Discovers, SeenLe;
    forall o { SlotMeans(env, now, assets, index, o); }
    forall id | AssetSlot(id) in entries
      ensures Survives(env, index, now, all, AssetSlot(id), entries[AssetSlot(id)])
    {
    }
    forall id | DiscoveredSlot(id) in entries
      ensures Survives(env, index, now, all, DiscoveredSlot(id), entries[DiscoveredSlot(id)])
    {
    }
  }

  // ----- discovery's reconciliation -----

  /** The asset lists a hostname that is not blank. */
  predicate ListsAHostname(asset: Fields) {
    var listed := IdentifierMember(asset, HostnameKind);
    listed.Arr? && exists i :: 0 <= i < |listed.items| && listed.items[i].Str? && Strip(listed.items[i].s) != ""
  }

  /** Its hostnames are a list of texts. */
  predicate HostnamesAreTexts(asset: Fields) {
    var listed := IdentifierMember(asset, HostnameKind);
    listed.Arr? && forall i :: 0 <= i < |listed.items| ==> listed.items[i].Str?
  }

  /** An asset that does not carry the observed hostname has no such authoritative hostname either. */
  lemma ListedHostnames(env: Env, asset: Fields, hostname: string)
    requires HostnamesAreTexts(asset)
    ensures AuthoritativeHostnames(env, asset) != {} <==> ListsAHostname(asset)
    ensures hostname != "" && hostname in AuthoritativeHostnames(env, asset)
            ==> hostname in IdentifierTexts(env, DiscoveryPass, asset, HostnameKind)
  {
    hide Strip, RStripDots, Lower, IdentifierMember;
    var listed := IdentifierMember(asset, HostnameKind);
    if i :| 0 <= i < |listed.items| && Strip(listed.items[i].s) != "" {
      var v := listed.items[i];
      assert v in Elements(env, OverlayPass, listed) && PlainText(env, v) == v.s;
      assert Lower(env.lowerOther, RStripDots(Strip(PlainText(env, v)))) in AuthoritativeHostnames(env, asset);
    }
    if h :| h in AuthoritativeHostnames(env, asset) {
      var v :| v in Elements(env, OverlayPass, listed) && Strip(PlainText(env, v)) != "";
      assert ListsAHostname(asset);
    }
    if hostname != "" && hostname in AuthoritativeHostnames(env, asset) {
      var v :| v in Elements(env, OverlayPass, listed)
        && hostname == Lower(env.lowerOther, RStripDots(Strip(PlainText(env, v))));
      assert TextOf(env, v) == v.s;
      assert v in Elements(env, DiscoveryPass, listed) && Identifier(env, v) == hostname;
    }
  }

  /** How discovery reconciles an observation while it has the inventory: a candidate where no asset has
      anything of it, a conflict where several have, a match where one has its hostname or MAC; and where one
      has its address only, a conflict exactly if both name a hostname. */
  lemma ReconciliationMeans(env: Env, now: int, assets: seq<Value>, index: Index, o: Observation)
    requires IndexOf(env, DiscoveryPass, now, assets, index)
    ensures Covered(index)
    ensures var stable, byAddress := StableClaims(env, DiscoveryPass, now, assets, o),
                                     AddressClaims(env, DiscoveryPass, now, assets, o);
      var r := Reconcile(env, o, Resolve(index, false, o));
      && (r == Candidate <==> stable + byAddress == {})
      && ((exists x, y :: x in stable + byAddress && y in stable + byAddress && x != y) ==> r == Conflict)
      && (forall id :: stable == {id} && byAddress <= {id} ==> r == VerifiedMatch)
      && (forall id :: stable == {} && byAddress == {id}
                       && id in index.assets && HostnamesAreTexts(index.assets[id]) ==>
            r == if o.hostname != "" && ListsAHostname(index.assets[id]) then Conflict else VerifiedMatch)
  {
    MatchesAreClaims(env, DiscoveryPass, now, assets, index, o);
    hide IndexOf, Covered, StableMatches, IpMatches, StableClaims, AddressClaims, HostnamesAreTexts, ListsAHostname,
      Reconcile, Resolve;
    ReconciledByNumber(env, index, o);
    forall id | StableMatches(index.identities, o) == {} && IpMatches(index.identities, o) == {id}
                && id in index.assets && HostnamesAreTexts(index.assets[id])
      ensures Reconcile(env, o, Resolve(index, false, o))
              == if o.hostname != "" && ListsAHostname(index.assets[id]) then Conflict else VerifiedMatch
    {
      UnclaimedHostname(env, now, assets, index, o, id);
      ReconciledByAddress(env, index, o, id);
    }
  }

  lemma ReconciledByNumber(env: Env, index: Index, o: Observation)
    requires Covered(index)
    ensures var stable, byAddress := StableMatches(index.identities, o), IpMatches(index.identities, o);
      var r := Reconcile(env, o, Resolve(index, false, o));
      && (r == Candidate <==> stable + byAddress == {})
      && ((exists x, y :: x in stable + byAddress && y in stable + byAddress && x != y) ==> r == Conflict)
      && (forall id :: stable == {id} && byAddress <= {id} ==> r == VerifiedMatch)
  {
    hide Covered, StableMatches, IpMatches, AuthoritativeHostnames;
    var matches := IpMatches(index.identities, o) + StableMatches(index.identities, o);
    assert matches == StableMatches(index.identities, o) + IpMatches(index.identities, o);
    if |matches| == 1 { OneElement(matches); }
  }

  lemma ReconciledByAddress(env: Env, index: Index, o: Observation, id: string)
    requires Covered(index) && id in index.assets && HostnamesAreTexts(index.assets[id])
    requires StableMatches(index.identities, o) == {} && IpMatches(index.identities, o) == {id}
    requires o.hostname != "" ==> o.hostname !in IdentifierTexts(env, DiscoveryPass, index.assets[id], HostnameKind)
    ensures Reconcile(env, o, Resolve(index, false, o))
            == if o.hostname != "" && ListsAHostname(index.assets[id]) then Conflict else VerifiedMatch
  {
    ListedHostnames(env, index.assets[id], o.hostname);
    hide Covered, StableMatches, IpMatches, AuthoritativeHostnames, IdentifierTexts, ListsAHostname;
    assert IpMatches(index.identities, o) + StableMatches(index.identities, o) == {id};
  }

  /** An asset that carries the observed hostname is not found by address alone. */
  lemma UnclaimedHostname(env: Env, now: int, assets: seq<Value>, index: Index, o: Observation, id: string)
    requires IndexOf(env, DiscoveryPass, now, assets, index) && id in index.assets
    ensures o.hostname != "" && o.hostname in IdentifierTexts(env, DiscoveryPass, index.assets[id], HostnameKind)
            ==> id in StableMatches(index.identities, o)
  {
    hide IdentifierTexts, Indexed, AssetIdOf;
    if o.hostname != "" && o.hostname in IdentifierTexts(env, DiscoveryPass, index.assets[id], HostnameKind) {
      assert LastWithId(env, now, assets, id, index.assets[id]);
      var i :| 0 <= i < |assets| && Indexed(env, now, assets[i]) && AssetIdOf(env, assets[i].fields) == id
        && assets[i].fields == index.assets[id];
      assert Claims(env, DiscoveryPass, now, assets[i], HostnameKind, o.hostname);
      assert id in Claimants(env, DiscoveryPass, now, assets, HostnameKind, o.hostname);
    }
  }

  /** What a published record adds: whether the address is new to the asset, and whether it is stale. */
  lemma PublishedMeans(env: Env, now: int, assets: seq<Value>, index: Index, o: Observation)
    requires IndexOf(env, DiscoveryPass, now, assets, index)
    ensures Covered(index)
    ensures var r := Published(env, index, false, now, o);
      && r.observation == o
      && (r.stale <==> !Fresh(env, now, o))
      && (forall id :: StableClaims(env, DiscoveryPass, now, assets, o) == {id}
                       && AddressClaims(env, DiscoveryPass, now, assets, o) == {} && id in index.assets
                       && IdentifierMember(index.assets[id], IpKind).Arr? ==>
            (r.newAddress <==> Str(o.address) !in IdentifierMember(index.assets[id], IpKind).items))
      && (StableClaims(env, DiscoveryPass, now, assets, o) + AddressClaims(env, DiscoveryPass, now, assets, o) == {}
          ==> !r.newAddress)
  {
    MatchesAreClaims(env, DiscoveryPass, now, assets, index, o);
    hide IndexOf, Covered, StableMatches, IpMatches, StableClaims, AddressClaims, Published, Fresh, IdentifierMember;
    PublishedParts(env, index, now, o);
    forall id | StableMatches(index.identities, o) == {id} && IpMatches(index.identities, o) == {}
                && id in index.assets && IdentifierMember(index.assets[id], IpKind).Arr?
      ensures Published(env, index, false, now, o).newAddress
              <==> Str(o.address) !in IdentifierMember(index.assets[id], IpKind).items
    {
      NewAddress(env, index, now, o, id);
    }
  }

  lemma PublishedParts(env: Env, index: Index, now: int, o: Observation)
    requires Covered(index)
    ensures var r := Published(env, index, false, now, o);
      && r.observation == o && (r.stale <==> !Fresh(env, now, o))
      && (StableMatches(index.identities, o) + IpMatches(index.identities, o) == {} ==> !r.newAddress)
  {
    hide Covered, StableMatches, IpMatches, Reconcile, Stale, Fresh, RawText, IdentifierMember, Elements;
    StaleIsNotFresh(env, now, now, o);
  }

  lemma NewAddress(env: Env, index: Index, now: int, o: Observation, id: string)
    requires Covered(index) && StableMatches(index.identities, o) == {id} && IpMatches(index.identities, o) == {}
    requires id in index.assets && IdentifierMember(index.assets[id], IpKind).Arr?
    ensures Published(env, index, false, now, o).newAddress
            <==> Str(o.address) !in IdentifierMember(index.assets[id], IpKind).items
  {
    hide Covered, StableMatches, IpMatches, Reconcile, Stale, RawText, IdentifierMember;
    assert IpMatches(index.identities, o) + StableMatches(index.identities, o) == {id};
  }
}
