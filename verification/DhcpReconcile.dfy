/** DHCP observations against the asset inventory: the overlay's verdict and discovery's. */
module DhcpReconcile {
  import opened Prelude
  import opened Values
  import opened DhcpIndex

  // ----- observations -----

  datatype Observation = Observation(raw: Fields, address: string, hostname: string, mac: string, lastSeen: int)

  function RawText(env: Env, o: Observation, key: Key): string {
    TextOf(env, Get(o.raw, key, Null))
  }

  function DiscoveryIdOf(env: Env, o: Observation): string {
    Truncate(RawText(env, o, DiscoveryId), 64)
  }

  /** Unusable without an address and a last_seen that carries an offset. */
  function ParseObservation(env: Env, raw: Value): Option<Observation> {
    if !raw.Obj? then None
    else
      var address := env.ipOf(Strip(TextOf(env, Get(raw.fields, CurrentIp, Null))));
      var seen := env.parseTime(Get(raw.fields, LastSeen, Null));
      if address.None? || seen.None? || !seen.value.aware then None
      else Some(Observation(
        raw.fields, address.value,
        Identifier(env, Get(raw.fields, Hostname, Null)),
        Lower(env.lowerOther, Strip(TextOf(env, Get(raw.fields, MacAddress, Null)))),
        seen.value.instant))
  }

  function LeaseExpires(env: Env, o: Observation): Option<int> {
    var raw := Get(o.raw, LeaseExpiresAt, Null);
    if !Truthy(raw) then None
    else match env.parseTime(raw) case None => None case Some(t) => Some(t.instant)
  }

  /** Older than a day, and no lease still running. */
  predicate Stale(env: Env, now: int, o: Observation) {
    o.lastSeen < now - DAY && match LeaseExpires(env, o) case None => true case Some(t) => t < now
  }

  // ----- matches -----

  /** The assets sharing the observation's hostname or MAC. */
  function StableMatches(identities: Identities, o: Observation): set<string> {
    (if o.hostname != "" then Lookup(identities, HostnameKind, o.hostname) else {})
    + (if o.mac != "" then Lookup(identities, MacKind, o.mac) else {})
  }

  function IpMatches(identities: Identities, o: Observation): set<string> {
    Lookup(identities, IpKind, o.address)
  }

  /** Every id a lookup returns is described. */
  ghost predicate Covered(index: Index) {
    forall kind, value :: Lookup(index.identities, kind, value) <= index.assets.Keys
  }

  lemma IndexCovers(env: Env, pass: Pass, now: int, assets: seq<Value>, index: Index)
    requires IndexOf(env, pass, now, assets, index)
    ensures Covered(index)
  {
    forall kind, value, id | id in Lookup(index.identities, kind, value)
      ensures id in index.assets
    {
      assert id in Claimants(env, pass, now, assets, kind, value);
      var raw :| raw in assets && Claims(env, pass, now, raw, kind, value) && AssetIdOf(env, raw.fields) == id;
      IndexedIdIsDescribed(env, now, assets, raw, index.assets);
    }
  }

  lemma {:induction false} SomeIsLast(env: Env, now: int, assets: seq<Value>, raw: Value)
    requires raw in assets && Indexed(env, now, raw)
    ensures exists fields :: LastWithId(env, now, assets, AssetIdOf(env, raw.fields), fields)
  {
    hide Indexed, AssetIdOf, LastWithId;
    var rest, last := assets[..|assets| - 1], assets[|assets| - 1];
    var id := AssetIdOf(env, raw.fields);
    assert assets == rest + [last];
    if Indexed(env, now, last) && AssetIdOf(env, last.fields) == id {
      LastWithIdSnoc(env, now, rest, last, id, last.fields);
    } else {
      SomeIsLast(env, now, rest, raw);
      var fields :| LastWithId(env, now, rest, id, fields);
      LastWithIdSnoc(env, now, rest, last, id, fields);
    }
  }

  lemma IndexedIdIsDescribed(env: Env, now: int, assets: seq<Value>, raw: Value, described: map<string, Fields>)
    requires raw in assets && Indexed(env, now, raw)
    requires DescribesLast(env, now, assets, described)
    ensures AssetIdOf(env, raw.fields) in described
  {
    hide Indexed, AssetIdOf, LastWithId;
    SomeIsLast(env, now, assets, raw);
    var fields :| LastWithId(env, now, assets, AssetIdOf(env, raw.fields), fields);
  }

  /** `next(iter(values))` of a one-element set. */
  function TheOnly(s: set<string>): (x: string)
    requires |s| == 1
    ensures s == {x}
  {
    OneElement(s);
    var x :| s == {x};
    x
  }

  lemma OneElement(s: set<string>)
    requires |s| == 1
    ensures exists x :: s == {x}
    ensures forall x, y :: s == {x} && s == {y} ==> x == y
  {
    var x :| x in s;
    assert |s - {x}| == 0;
    assert s == {x};
    forall y, z | s == {y} && s == {z}
      ensures y == z
    {
      assert y in s;
    }
  }

  // ----- the overlay's verdict -----

  datatype Verdict = Known(id: string, asset: Fields) | Provisional(discoveryId: string) | NoOverlay

  function OverlayVerdict(env: Env, index: Index, o: Observation): Verdict
    requires Covered(index)
  {
    var stable := StableMatches(index.identities, o);
    var ip := IpMatches(index.identities, o);
    if |stable| == 1 && ip - stable == {} then
      var id := TheOnly(stable);
      assert id in stable;
      Known(id, index.assets[id])
    else if stable != {} || ip != {} || DiscoveryIdOf(env, o) == "" then NoOverlay
    else Provisional(DiscoveryIdOf(env, o))
  }

  // ----- discovery's verdict -----

  datatype Resolution =
    | InventoryUnavailable
    | Ambiguous(ids: set<string>)
    | Unmapped
    | Resolved(id: string, asset: Fields, stable: bool)

  datatype Reconciliation = Conflict | Candidate | VerifiedMatch

  function Resolve(index: Index, inventoryError: bool, o: Observation): Resolution
    requires Covered(index)
  {
    var stable := StableMatches(index.identities, o);
    var matches := IpMatches(index.identities, o) + stable;
    if inventoryError then InventoryUnavailable
    else if |matches| > 1 then Ambiguous(matches)
    else if matches == {} then Unmapped
    else
      assert |matches| == 1;
      var id := TheOnly(matches);
      assert id in matches;
      Resolved(id, index.assets[id], id in stable)
  }

  /** The asset's own hostnames, normalised; `str(value)` here, so null reads as a name. */
  function AuthoritativeHostnames(env: Env, asset: Fields): set<string> {
    set v | v in Elements(env, OverlayPass, IdentifierMember(asset, HostnameKind)) && Strip(PlainText(env, v)) != ""
      :: Lower(env.lowerOther, RStripDots(Strip(PlainText(env, v))))
  }

  function PlainText(env: Env, v: Value): string {
    if v.Str? then v.s else env.render(v)
  }

  function Reconcile(env: Env, o: Observation, resolution: Resolution): Reconciliation {
    match resolution
    case Resolved(_, asset, stable) =>
      var hostnames := AuthoritativeHostnames(env, asset);
      if o.hostname != "" && hostnames != {} && o.hostname !in hostnames && !stable then Conflict else VerifiedMatch
    case Ambiguous(_) => Conflict
    case _ => Candidate
  }

  // ----- the two agree -----

  /** The assets whose identifier is not in a list, and which only the overlay therefore reads. */
  function BareClaimants(env: Env, now: int, assets: seq<Value>, kind: Kind, value: string): set<string> {
    set raw | raw in assets && Claims(env, OverlayPass, now, raw, kind, value)
      && !IdentifierMember(raw.fields, kind).Arr?
      :: AssetIdOf(env, raw.fields)
  }

  /** Every asset read only by the overlay shares its id with one that discovery reads. */
  predicate ReadAlike(env: Env, now: int, assets: seq<Value>, kind: Kind, value: string) {
    BareClaimants(env, now, assets, kind, value) <= Claimants(env, DiscoveryPass, now, assets, kind, value)
  }

  /** Both indexes answer a lookup alike exactly when no bare identifier carries it alone. */
  lemma IndexesAgree(env: Env, now: int, assets: seq<Value>, overlay: Index, discovery: Index, kind: Kind,
      value: string)
    requires IndexOf(env, OverlayPass, now, assets, overlay)
    requires IndexOf(env, DiscoveryPass, now, assets, discovery)
    ensures Lookup(overlay.identities, kind, value)
         == Lookup(discovery.identities, kind, value) + BareClaimants(env, now, assets, kind, value)
    ensures Lookup(overlay.identities, kind, value) == Lookup(discovery.identities, kind, value)
       <==> ReadAlike(env, now, assets, kind, value)
  {
    hide Lookup, DescribesLast;
    forall raw | raw in assets
      ensures Claims(env, OverlayPass, now, raw, kind, value) <==>
        || Claims(env, DiscoveryPass, now, raw, kind, value)
        || (Claims(env, OverlayPass, now, raw, kind, value) && !IdentifierMember(raw.fields, kind).Arr?)
    {
      ClaimsByShape(env, now, raw, kind, value);
    }
  }

  lemma ClaimsByShape(env: Env, now: int, raw: Value, kind: Kind, value: string)
    ensures Claims(env, DiscoveryPass, now, raw, kind, value) <==>
      Claims(env, OverlayPass, now, raw, kind, value) && IdentifierMember(raw.fields, kind).Arr?
  {
    hide Identifier, IdentifierMember, Indexed;
    if Indexed(env, now, raw) {
      match IdentifierMember(raw.fields, kind)
      case Arr(items) =>
        assert Elements(env, DiscoveryPass, Arr(items)) == Elements(env, OverlayPass, Arr(items));
        assert IdentifierTexts(env, DiscoveryPass, raw.fields, kind)
          == IdentifierTexts(env, OverlayPass, raw.fields, kind);
      case _ =>
        assert IdentifierTexts(env, DiscoveryPass, raw.fields, kind) == {};
    }
  }

  /** The observation's three lookups are read alike. */
  predicate ObservationReadAlike(env: Env, now: int, assets: seq<Value>, o: Observation) {
    && ReadAlike(env, now, assets, IpKind, o.address)
    && (o.hostname != "" ==> ReadAlike(env, now, assets, HostnameKind, o.hostname))
    && (o.mac != "" ==> ReadAlike(env, now, assets, MacKind, o.mac))
  }

  /** Identifier members are lists wherever they hold anything, as the inventory format has them. */
  predicate ListsOnly(env: Env, now: int, assets: seq<Value>) {
    forall raw <- assets, kind <- KINDS :: Indexed(env, now, raw) ==>
      IdentifierMember(raw.fields, kind).Arr? || IdentifierTexts(env, OverlayPass, raw.fields, kind) == {}
  }

  lemma ListsAreReadAlike(env: Env, now: int, assets: seq<Value>, o: Observation)
    requires ListsOnly(env, now, assets)
    ensures ObservationReadAlike(env, now, assets, o)
  {
    hide Identifier, IdentifierMember, IdentifierTexts, Indexed, AssetIdOf;
    forall kind, value
      ensures ReadAlike(env, now, assets, kind, value)
    {
      assert kind in KINDS by {
        match kind
        case IpKind => assert KINDS[0] == kind;
        case HostnameKind => assert KINDS[1] == kind;
        case MacKind => assert KINDS[2] == kind;
      }
      assert BareClaimants(env, now, assets, kind, value) == {};
    }
  }

  lemma DescriptionsAgree(env: Env, now: int, assets: seq<Value>, a: map<string, Fields>, b: map<string, Fields>)
    requires DescribesLast(env, now, assets, a) && DescribesLast(env, now, assets, b)
    ensures a == b
  {
    hide LastWithId;
    forall id | id in a
      ensures id in b && b[id] == a[id]
    {
      assert LastWithId(env, now, assets, id, a[id]);
    }
    forall id | id in b
      ensures id in a
    {
      assert LastWithId(env, now, assets, id, b[id]);
    }
  }

  predicate Single(s: set<string>) { |s| == 1 }

  lemma MatchesAreDescribed(index: Index, o: Observation)
    requires Covered(index)
    ensures StableMatches(index.identities, o) + IpMatches(index.identities, o) <= index.assets.Keys
  {
  }

  /** The overlay's verdict in terms of its matches. */
  lemma OverlayVerdictMeans(env: Env, index: Index, o: Observation)
    requires Covered(index)
    ensures var verdict, stable, ip :=
        OverlayVerdict(env, index, o), StableMatches(index.identities, o), IpMatches(index.identities, o);
      && (verdict.Known? <==> Single(stable) && ip <= stable)
      && (verdict.Known?
         ==> stable == {verdict.id} && verdict.id in index.assets && verdict.asset == index.assets[verdict.id])
      && (verdict.Provisional? <==> stable + ip == {} && DiscoveryIdOf(env, o) != "")
  {
    hide DiscoveryIdOf, StableMatches, IpMatches;
    var stable, ip := StableMatches(index.identities, o), IpMatches(index.identities, o);
    MatchesAreDescribed(index, o);
    assert ip - stable == {} <==> ip <= stable;
  }

  /** Discovery's verdict in terms of its matches. */
  lemma DiscoveryVerdictMeans(env: Env, index: Index, o: Observation)
    requires Covered(index)
    ensures var resolution, stable, matches := Resolve(index, false, o), StableMatches(index.identities, o),
        IpMatches(index.identities, o) + StableMatches(index.identities, o);
      && (Reconcile(env, o, resolution) == VerifiedMatch && resolution.stable <==> Single(matches) && stable != {})
      && (Reconcile(env, o, resolution) == VerifiedMatch ==>
            && matches == {resolution.id} && resolution.id in index.assets
            && resolution.asset == index.assets[resolution.id])
      && (Reconcile(env, o, resolution) == Candidate <==> matches == {})
  {
    hide AuthoritativeHostnames, StableMatches, IpMatches;
    var stable := StableMatches(index.identities, o);
    var matches := IpMatches(index.identities, o) + stable;
    MatchesAreDescribed(index, o);
    if |matches| == 1 {
      var id := TheOnly(matches);
      assert id in matches;
      assert stable != {} <==> id in stable;
    } else if |matches| == 0 {
      assert matches == {};
    }
  }

  /** The overlay takes the observation to an asset exactly when discovery verifies it by a stable identity
      on that asset, and to a new client exactly when discovery has it as a candidate with an id. */
  ghost predicate VerdictsAgree(env: Env, overlay: Index, discovery: Index, o: Observation)
    requires Covered(overlay) && Covered(discovery)
  {
    var verdict, resolution := OverlayVerdict(env, overlay, o), Resolve(discovery, false, o);
    var reconciliation := Reconcile(env, o, resolution);
    && (verdict.Known? <==> reconciliation == VerifiedMatch && resolution.stable)
    && (verdict.Known? ==> resolution.id == verdict.id && resolution.asset == verdict.asset)
    && (verdict.Provisional? <==> reconciliation == Candidate && DiscoveryIdOf(env, o) != "")
  }

  /** The assets only the overlay finds through the observation's hostname or MAC. */
  function BareStable(env: Env, now: int, assets: seq<Value>, o: Observation): set<string> {
    (if o.hostname != "" then BareClaimants(env, now, assets, HostnameKind, o.hostname) else {})
    + (if o.mac != "" then BareClaimants(env, now, assets, MacKind, o.mac) else {})
  }

  /** What the overlay's extra matches may be without changing the verdict: anything where discovery finds
      several assets; where it finds none, nothing if the observation has an id, and otherwise no one asset;
      where it finds one by a stable identity, that asset; where it finds one by address only, not just
      that asset by a stable identity. */
  predicate Harmless(stable: set<string>, ip: set<string>, bareStable: set<string>, bareIp: set<string>, hasId: bool) {
    var matches := ip + stable;
    if |matches| > 1 then true
    else if matches == {} then
      if hasId then bareStable + bareIp == {} else !(Single(bareStable) && bareIp <= bareStable)
    else if stable != {} then bareStable + bareIp <= matches
    else !(bareStable == ip && bareIp <= ip)
  }

  /** The two verdicts on the matches alone. */
  ghost predicate MatchesAgree(stable: set<string>, ip: set<string>, overlayStable: set<string>,
                               overlayIp: set<string>, hasId: bool) {
    var known, verified := Single(overlayStable) && overlayIp <= overlayStable, Single(ip + stable) && stable != {};
    && (known <==> verified)
    && (known ==> overlayStable == ip + stable)
    && (overlayStable + overlayIp == {} && hasId <==> ip + stable == {} && hasId)
  }

  lemma SubsetOfSingle(s: set<string>, t: set<string>)
    requires Single(t) && s <= t
    ensures s == {} || s == t
  {
    OneElement(t);
  }

  lemma SeveralIsNotSingle(s: set<string>, t: set<string>)
    requires |s| > 1 && s <= t
    ensures !Single(t) && t != {}
  {
    if Single(t) { SubsetOfSingle(s, t); }
  }

  lemma HarmlessExactly(stable: set<string>, ip: set<string>, bareStable: set<string>, bareIp: set<string>, hasId: bool)
    ensures MatchesAgree(stable, ip, stable + bareStable, ip + bareIp, hasId)
            <==> Harmless(stable, ip, bareStable, bareIp, hasId)
  {
    var matches, s, i := ip + stable, stable + bareStable, ip + bareIp;
    if |matches| > 1 {
      SeveralFound(stable, ip, s, i, hasId);
    } else if matches == {} {
      assert s == bareStable && i == bareIp;
      assert !Single(matches);
    } else {
      assert |matches| == 1;
      OneFound(stable, ip, bareStable, bareIp, hasId);
    }
  }

  lemma SeveralFound(stable: set<string>, ip: set<string>, s: set<string>, i: set<string>, hasId: bool)
    requires |ip + stable| > 1 && stable <= s && ip <= i
    ensures MatchesAgree(stable, ip, s, i, hasId)
  {
    SeveralIsNotSingle(ip + stable, s + i);
    assert i <= s ==> s + i == s;
  }

  lemma OneFound(stable: set<string>, ip: set<string>, bareStable: set<string>, bareIp: set<string>, hasId: bool)
    requires Single(ip + stable)
    ensures MatchesAgree(stable, ip, stable + bareStable, ip + bareIp, hasId)
            <==> Harmless(stable, ip, bareStable, bareIp, hasId)
  {
    var matches, s, i := ip + stable, stable + bareStable, ip + bareIp;
    assert s + i != {} && matches != {};
    if stable != {} {
      SubsetOfSingle(stable, matches);
      if Single(s) { SubsetOfSingle(stable, s); }
      if bareStable + bareIp <= matches { assert s == matches; }
    } else {
      assert matches == ip && s == bareStable;
      if Single(s) && i <= s { SubsetOfSingle(ip, s); }
      if bareStable == ip && bareIp <= ip { assert i == ip; }
    }
  }

  /** When the reconcilers agree on an observation, exactly. */
  lemma ReconcilersAgreeExactly(env: Env, now: int, assets: seq<Value>, overlay: Index, discovery: Index,
                                o: Observation)
    requires IndexOf(env, OverlayPass, now, assets, overlay)
    requires IndexOf(env, DiscoveryPass, now, assets, discovery)
    ensures Covered(overlay) && Covered(discovery)
    ensures VerdictsAgree(env, overlay, discovery, o) <==>
      Harmless(StableMatches(discovery.identities, o), IpMatches(discovery.identities, o),
        BareStable(env, now, assets, o), BareClaimants(env, now, assets, IpKind, o.address),
        DiscoveryIdOf(env, o) != "")
  {
    hide Lookup, Covered, AnswersAsScan, DescribesLast, DiscoveryIdOf, Harmless, MatchesAgree, BareClaimants;
    IndexCovers(env, OverlayPass, now, assets, overlay);
    IndexCovers(env, DiscoveryPass, now, assets, discovery);
    OverlayFindsMore(env, now, assets, overlay, discovery, o);
    DescriptionsAgree(env, now, assets, overlay.assets, discovery.assets);
    HarmlessExactly(StableMatches(discovery.identities, o), IpMatches(discovery.identities, o),
      BareStable(env, now, assets, o), BareClaimants(env, now, assets, IpKind, o.address), DiscoveryIdOf(env, o) != "");
    VerdictsFromMatches(env, overlay, discovery, o);
  }

  lemma OverlayFindsMore(env: Env, now: int, assets: seq<Value>, overlay: Index, discovery: Index, o: Observation)
    requires IndexOf(env, OverlayPass, now, assets, overlay)
    requires IndexOf(env, DiscoveryPass, now, assets, discovery)
    ensures StableMatches(overlay.identities, o)
            == StableMatches(discovery.identities, o) + BareStable(env, now, assets, o)
    ensures IpMatches(overlay.identities, o)
         == IpMatches(discovery.identities, o) + BareClaimants(env, now, assets, IpKind, o.address)
  {
    hide Lookup, AnswersAsScan, DescribesLast, BareClaimants, ReadAlike;
    IndexesAgree(env, now, assets, overlay, discovery, IpKind, o.address);
    IndexesAgree(env, now, assets, overlay, discovery, HostnameKind, o.hostname);
    IndexesAgree(env, now, assets, overlay, discovery, MacKind, o.mac);
  }

  lemma VerdictsFromMatches(env: Env, overlay: Index, discovery: Index, o: Observation)
    requires Covered(overlay) && Covered(discovery) && overlay.assets == discovery.assets
    ensures VerdictsAgree(env, overlay, discovery, o) <==>
      MatchesAgree(StableMatches(discovery.identities, o), IpMatches(discovery.identities, o),
        StableMatches(overlay.identities, o), IpMatches(overlay.identities, o), DiscoveryIdOf(env, o) != "")
  {
    hide Covered, DiscoveryIdOf, StableMatches, IpMatches, OverlayVerdict, Resolve, Reconcile, Single;
    OverlayVerdictMeans(env, overlay, o);
    DiscoveryVerdictMeans(env, discovery, o);
  }

  /** Lookups that are read alike are one such case. */
  lemma ReadAlikeIsHarmless(env: Env, now: int, assets: seq<Value>, overlay: Index, discovery: Index, o: Observation)
    requires IndexOf(env, OverlayPass, now, assets, overlay)
    requires IndexOf(env, DiscoveryPass, now, assets, discovery)
    requires ObservationReadAlike(env, now, assets, o)
    ensures BareStable(env, now, assets, o) <= StableMatches(discovery.identities, o)
    ensures BareClaimants(env, now, assets, IpKind, o.address) <= IpMatches(discovery.identities, o)
  {
    hide Lookup, DescribesLast, BareClaimants, Claimants;
  }

  /** Where no bare member carries an identifier of the observation alone, the reconcilers agree on it. */
  lemma ReconcilersAgree(env: Env, now: int, assets: seq<Value>, overlay: Index, discovery: Index, o: Observation)
    requires IndexOf(env, OverlayPass, now, assets, overlay)
    requires IndexOf(env, DiscoveryPass, now, assets, discovery)
    requires ObservationReadAlike(env, now, assets, o)
    ensures Covered(overlay) && Covered(discovery)
    ensures VerdictsAgree(env, overlay, discovery, o)
  {
    hide IndexOf, ObservationReadAlike, Covered, VerdictsAgree, DiscoveryIdOf, StableMatches, IpMatches, BareStable,
      BareClaimants;
    ReadAlikeIsHarmless(env, now, assets, overlay, discovery, o);
    SubsetsAreHarmless(StableMatches(discovery.identities, o), IpMatches(discovery.identities, o),
      BareStable(env, now, assets, o), BareClaimants(env, now, assets, IpKind, o.address), DiscoveryIdOf(env, o) != "");
    ReconcilersAgreeExactly(env, now, assets, overlay, discovery, o);
  }

  lemma SubsetsAreHarmless(stable: set<string>, ip: set<string>, bareStable: set<string>, bareIp: set<string>,
                           hasId: bool)
    requires bareStable <= stable && bareIp <= ip
    ensures Harmless(stable, ip, bareStable, bareIp, hasId)
  {
    assert bareStable == {} ==> !Single(bareStable);
  }

  // ----- an asset's own identifiers match it -----

  lemma ListedIdentifierIsFound(env: Env, pass: Pass, now: int, assets: seq<Value>, index: Index, asset: Value,
                                kind: Kind, v: Value)
    requires IndexOf(env, pass, now, assets, index) && asset in assets && Indexed(env, now, asset)
    requires IdentifierMember(asset.fields, kind).Arr? && v in IdentifierMember(asset.fields, kind).items
    requires Identifier(env, v) != ""
    ensures AssetIdOf(env, asset.fields) in Lookup(index.identities, kind, Identifier(env, v))
  {
    hide Identifier, IdentifierMember, Indexed, AssetIdOf, Lookup, DescribesLast;
    var text := Identifier(env, v);
    assert v in Elements(env, pass, IdentifierMember(asset.fields, kind));
    assert text in IdentifierTexts(env, pass, asset.fields, kind);
    assert Claims(env, pass, now, asset, kind, text);
    assert AssetIdOf(env, asset.fields) in Claimants(env, pass, now, assets, kind, text);
  }

  /** An observation carrying a hostname listed by a current asset matches that asset, in either pass:
      both sides are normalised alike. */
  lemma SameHostnameMatches(env: Env, pass: Pass, now: int, assets: seq<Value>, index: Index, asset: Value, v: Value,
                            raw: Value)
    requires IndexOf(env, pass, now, assets, index) && asset in assets && Indexed(env, now, asset)
    requires IdentifierMember(asset.fields, HostnameKind).Arr?
    requires v in IdentifierMember(asset.fields, HostnameKind).items
    requires Identifier(env, v) != ""
    requires ParseObservation(env, raw).Some? && Get(raw.fields, Hostname, Null) == v
    ensures AssetIdOf(env, asset.fields) in StableMatches(index.identities, ParseObservation(env, raw).value)
  {
    hide Identifier, IdentifierMember, Indexed, AssetIdOf, Lookup, IndexOf;
    ListedIdentifierIsFound(env, pass, now, assets, index, asset, HostnameKind, v);
  }

  /** So does one carrying a listed MAC, unless its text ends in a dot: only identifiers lose those. */
  lemma SameMacMatches(env: Env, pass: Pass, now: int, assets: seq<Value>, index: Index, asset: Value, v: Value,
                       raw: Value)
    requires IndexOf(env, pass, now, assets, index) && asset in assets && Indexed(env, now, asset)
    requires IdentifierMember(asset.fields, MacKind).Arr? && v in IdentifierMember(asset.fields, MacKind).items
    requires Identifier(env, v) != ""
    requires ParseObservation(env, raw).Some? && Get(raw.fields, MacAddress, Null) == v
    requires var text := Strip(TextOf(env, v)); text == "" || text[|text| - 1] != '.'
    ensures AssetIdOf(env, asset.fields) in StableMatches(index.identities, ParseObservation(env, raw).value)
  {
    hide IdentifierMember, Indexed, AssetIdOf, Lookup, IndexOf, Strip, Lower;
    ListedIdentifierIsFound(env, pass, now, assets, index, asset, MacKind, v);
    assert RStripDots(Strip(TextOf(env, v))) == Strip(TextOf(env, v));
  }

  // ----- a bare hostname splits them -----

  /** Every time but an absent one is the instant 0. */
  const PLAIN := Env(v => "", c => [c], s => Some(s), v => if v == Null then None else Some(Stamp(0, true)), k => "")

  /** A current asset whose hostname member is the text "a" instead of a list holding it. */
  const BARE_ASSET: Value :=
    Obj(map[AssetId := Str("asset-1"), ValidFrom := Str("t"), Identifiers := Obj(map[Hostname := Str("a")])])

  const SEEN := Observation(map[DiscoveryId := Str("d")], "10.0.0.9", "a", "", 0)

  lemma BareHostnameSplitsTheReconcilers(overlay: Index, discovery: Index)
    requires IndexOf(PLAIN, OverlayPass, 0, [BARE_ASSET], overlay)
    requires IndexOf(PLAIN, DiscoveryPass, 0, [BARE_ASSET], discovery)
    ensures Covered(overlay) && Covered(discovery)
    ensures OverlayVerdict(PLAIN, overlay, SEEN).Known?
    ensures Reconcile(PLAIN, SEEN, Resolve(discovery, false, SEEN)) == Candidate
  {
    hide Claimants, DescribesLast, Covered, DiscoveryIdOf, AuthoritativeHostnames;
    IndexCovers(PLAIN, OverlayPass, 0, [BARE_ASSET], overlay);
    IndexCovers(PLAIN, DiscoveryPass, 0, [BARE_ASSET], discovery);
    BareClaims();
    assert StableMatches(overlay.identities, SEEN) == {"asset-1"};
    assert IpMatches(overlay.identities, SEEN) == {};
    assert StableMatches(discovery.identities, SEEN) == {};
    assert IpMatches(discovery.identities, SEEN) == {};
  }

  lemma BareIdentifier()
    ensures Identifier(PLAIN, Str(['a'])) == "a"
  {
    hide PLAIN, Lower, Strip, RStripDots;
    var a := ['a'];
    assert Strip(a) == a;
    NothingToStrip(a);
    LowerFixesLowerText(PLAIN.lowerOther, a);
  }

  lemma NothingToStrip(s: string)
    requires s != "" && s[|s| - 1] != '.'
    ensures RStripDots(s) == s
  {
  }

  lemma BareTexts()
    ensures "a" in IdentifierTexts(PLAIN, OverlayPass, BARE_ASSET.fields, HostnameKind)
    ensures IdentifierTexts(PLAIN, DiscoveryPass, BARE_ASSET.fields, HostnameKind) == {}
    ensures forall pass :: IdentifierTexts(PLAIN, pass, BARE_ASSET.fields, IpKind) == {}
  {
    hide Identifier;
    BareIdentifier();
    assert IdentifierMember(BARE_ASSET.fields, HostnameKind) == Str("a");
    assert "a"[0] in "a";
    assert Str(['a']) in Elements(PLAIN, OverlayPass, Str("a"));
  }

  lemma BareClaims()
    ensures Claimants(PLAIN, OverlayPass, 0, [BARE_ASSET], HostnameKind, "a") == {"asset-1"}
    ensures Claimants(PLAIN, DiscoveryPass, 0, [BARE_ASSET], HostnameKind, "a") == {}
    ensures forall pass :: Claimants(PLAIN, pass, 0, [BARE_ASSET], IpKind, SEEN.address) == {}
  {
    hide IdentifierTexts;
    BareTexts();
    assert Indexed(PLAIN, 0, BARE_ASSET);
    assert AssetIdOf(PLAIN, BARE_ASSET.fields) == "asset-1";
    assert BARE_ASSET in [BARE_ASSET];
  }
}
