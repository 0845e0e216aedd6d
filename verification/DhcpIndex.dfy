/** The identifier indexes of the asset inventory, built twice: once for the DHCP overlay and once for
    the DHCP discovery API, each equal to a plain scan of the assets. */
module DhcpIndex {
  import opened Prelude
  import opened Values

  /** The members both passes read; every other member is Other. */
  datatype Key =
    | AssetId | Identifiers | Ip | Hostname | Mac | ValidFrom | ValidUntil
    | CurrentIp | LastSeen | MacAddress | LeaseExpiresAt | DiscoveryId
    | Other(name: string)

  type Value = Json<Key>
  type Fields = map<Key, Value>

  /** A parsed timestamp: the instant, and whether the text carried an offset. */
  datatype Stamp = Stamp(instant: int, aware: bool)

  /** What the passes take from Python's text, address and date handling. */
  datatype Env = Env(
    render: Value -> string,
    lowerOther: char -> string,
    ipOf: string -> Option<string>,
    parseTime: Value -> Option<Stamp>,
    keyName: Key -> string)

  const DAY := 86_400_000_000

  // ----- identifiers -----

  function RStripDots(s: string): (t: string)
    ensures t == "" || t[|t| - 1] != '.'
  {
    if s != "" && s[|s| - 1] == '.' then RStripDots(s[..|s| - 1]) else s
  }

  function TextOf(env: Env, v: Value): string {
    TextOr(env.render, v)
  }

  /** `str(value or "").strip().rstrip(".").lower()` */
  function Identifier(env: Env, v: Value): string {
    Lower(env.lowerOther, RStripDots(Strip(TextOf(env, v))))
  }

  datatype Pass = OverlayPass | DiscoveryPass

  /** What iterating one identifier member yields. The overlay iterates whatever is there, so a bare
      string gives its characters and an object its member names; discovery accepts lists only. */
  function Elements(env: Env, pass: Pass, v: Value): set<Value> {
    match v
    case Arr(items) => set x | x in items
    case Str(s) => if pass.OverlayPass? then set c | c in s :: Str([c]) else {}
    case Obj(fields) => if pass.OverlayPass? then set k | k in fields :: Str(env.keyName(k)) else {}
    case _ => {}
  }

  datatype Kind = IpKind | HostnameKind | MacKind

  const KINDS: seq<Kind> := [IpKind, HostnameKind, MacKind]

  function KindKey(kind: Kind): Key {
    match kind
    case IpKind => Ip
    case HostnameKind => Hostname
    case MacKind => Mac
  }

  /** `identifiers.get(kind)`, null when the asset has no identifier object. */
  function IdentifierMember(asset: Fields, kind: Kind): Value {
    var identifiers := Get(asset, Identifiers, Null);
    if identifiers.Obj? then Get(identifiers.fields, KindKey(kind), Null) else Null
  }

  /** The non-empty identifiers a pass reads from an asset. */
  function IdentifierTexts(env: Env, pass: Pass, asset: Fields, kind: Kind): set<string> {
    set v | v in Elements(env, pass, IdentifierMember(asset, kind)) && Identifier(env, v) != "" :: Identifier(env, v)
  }

  // ----- which assets count -----

  /** asset_record_state(...) == "current" */
  predicate Current(env: Env, now: int, asset: Fields) {
    match env.parseTime(Get(asset, ValidFrom, Null))
    case None => false
    case Some(start) =>
      var until := Get(asset, ValidUntil, Null);
      && start.aware
      && start.instant <= now
      && (Truthy(until) ==> env.parseTime(until).Some? && now < env.parseTime(until).value.instant)
  }

  function AssetIdOf(env: Env, asset: Fields): string {
    TextOf(env, Get(asset, AssetId, Null))
  }

  predicate Indexed(env: Env, now: int, raw: Value): (b: bool)
    ensures b ==> raw.Obj?
  {
    raw.Obj? && Current(env, now, raw.fields) && AssetIdOf(env, raw.fields) != ""
  }

  // ----- the plain scan -----

  predicate Claims(env: Env, pass: Pass, now: int, raw: Value, kind: Kind, value: string) {
    Indexed(env, now, raw) && value in IdentifierTexts(env, pass, raw.fields, kind)
  }

  /** The ids of the current assets carrying an identifier, by looking at every asset. */
  function Claimants(env: Env, pass: Pass, now: int, assets: seq<Value>, kind: Kind, value: string): set<string> {
    set raw | raw in assets && Claims(env, pass, now, raw, kind, value) :: AssetIdOf(env, raw.fields)
  }

  lemma ClaimantsSnoc(env: Env, pass: Pass, now: int, assets: seq<Value>, raw: Value, kind: Kind, value: string)
    ensures Claimants(env, pass, now, assets + [raw], kind, value)
         == Claimants(env, pass, now, assets, kind, value)
          + (if Claims(env, pass, now, raw, kind, value) then {AssetIdOf(env, raw.fields)} else {})
  {
    hide Claims, AssetIdOf;
    assert forall x :: x in assets + [raw] <==> x in assets || x == raw;
  }

  // ----- the index -----

  type Identities = map<(Kind, string), set<string>>

  datatype Index = Index(assets: map<string, Fields>, identities: Identities)

  /** `identities[kind].get(value, set())` */
  function Lookup(identities: Identities, kind: Kind, value: string): set<string> {
    if (kind, value) in identities then identities[(kind, value)] else {}
  }

  /** The id belongs to an indexed asset, and this is the last one carrying it. */
  ghost predicate LastWithId(env: Env, now: int, assets: seq<Value>, id: string, fields: Fields) {
    exists i ::
      && 0 <= i < |assets| && Indexed(env, now, assets[i])
      && AssetIdOf(env, assets[i].fields) == id && assets[i].fields == fields
      && forall j :: i < j < |assets| && Indexed(env, now, assets[j]) ==> AssetIdOf(env, assets[j].fields) != id
  }

  lemma {:induction false} LastWithIdSnoc(env: Env, now: int, assets: seq<Value>, raw: Value, id: string,
      fields: Fields)
    ensures LastWithId(env, now, assets + [raw], id, fields) <==>
      if Indexed(env, now, raw) && AssetIdOf(env, raw.fields) == id then fields == raw.fields
      else LastWithId(env, now, assets, id, fields)
  {
    hide Indexed, AssetIdOf;
    var longer := assets + [raw];
    assert longer[|assets|] == raw;
    assert forall i :: 0 <= i < |assets| ==> longer[i] == assets[i];
    if LastWithId(env, now, longer, id, fields) {
      var i :| 0 <= i < |longer| && Indexed(env, now, longer[i]) && AssetIdOf(env, longer[i].fields) == id
        && longer[i].fields == fields
        && forall j :: i < j < |longer| && Indexed(env, now, longer[j]) ==> AssetIdOf(env, longer[j].fields) != id;
      if i < |assets| {
        assert assets[i] == longer[i];
        assert forall j :: i < j < |assets| ==> longer[j] == assets[j];
      }
    } else if LastWithId(env, now, assets, id, fields) {
      var i :| 0 <= i < |assets| && Indexed(env, now, assets[i]) && AssetIdOf(env, assets[i].fields) == id
        && assets[i].fields == fields
        && forall j :: i < j < |assets| && Indexed(env, now, assets[j]) ==> AssetIdOf(env, assets[j].fields) != id;
      assert longer[i] == assets[i];
    }
  }

  /** Every lookup answers as the scan does. */
  ghost predicate AnswersAsScan(env: Env, pass: Pass, now: int, assets: seq<Value>, identities: Identities) {
    forall kind, value :: Lookup(identities, kind, value) == Claimants(env, pass, now, assets, kind, value)
  }

  /** Each id is described by the last asset carrying it. */
  ghost predicate DescribesLast(env: Env, now: int, assets: seq<Value>, described: map<string, Fields>) {
    forall id, fields :: id in described && described[id] == fields <==> LastWithId(env, now, assets, id, fields)
  }

  ghost predicate IndexOf(env: Env, pass: Pass, now: int, assets: seq<Value>, index: Index) {
    && AnswersAsScan(env, pass, now, assets, index.identities)
    && DescribesLast(env, now, assets, index.assets)
  }

  lemma DescribesLastSnoc(env: Env, now: int, assets: seq<Value>, raw: Value, described: map<string, Fields>)
    requires DescribesLast(env, now, assets, described)
    ensures DescribesLast(env, now, assets + [raw],
      if Indexed(env, now, raw) then described[AssetIdOf(env, raw.fields) := raw.fields] else described)
  {
    hide Indexed, AssetIdOf, LastWithId;
    forall id, fields {
      LastWithIdSnoc(env, now, assets, raw, id, fields);
    }
  }

  /** The identifiers found in one asset are added to what is known; nothing else changes. */
  ghost predicate Adds(env: Env, pass: Pass, asset: Fields, id: string, before: Identities, after: Identities,
      kinds: set<Kind>) {
    forall kind, value ::
      Lookup(after, kind, value)
      == Lookup(before, kind, value)
       + (if kind in kinds && value in IdentifierTexts(env, pass, asset, kind) then {id} else {})
  }

  const ALL_KINDS := {IpKind, HostnameKind, MacKind}

  lemma AnswersAsScanSnoc(env: Env, pass: Pass, now: int, assets: seq<Value>, raw: Value, before: Identities,
      after: Identities)
    requires AnswersAsScan(env, pass, now, assets, before)
    requires if Indexed(env, now, raw)
             then Adds(env, pass, raw.fields, AssetIdOf(env, raw.fields), before, after, ALL_KINDS)
             else after == before
    ensures AnswersAsScan(env, pass, now, assets + [raw], after)
  {
    hide Indexed, AssetIdOf, Lookup, Claimants, IdentifierTexts;
    forall kind, value
      ensures Lookup(after, kind, value) == Claimants(env, pass, now, assets + [raw], kind, value)
    {
      ClaimantsSnoc(env, pass, now, assets, raw, kind, value);
      match kind case IpKind => case HostnameKind => case MacKind =>
    }
  }

  /** What one asset does to an index. */
  lemma IndexStep(env: Env, pass: Pass, now: int, assets: seq<Value>, n: nat, before: Index, after: Index)
    requires n < |assets| && IndexOf(env, pass, now, assets[..n], before)
    requires if Indexed(env, now, assets[n]) then
               var id := AssetIdOf(env, assets[n].fields);
               && after.assets == before.assets[id := assets[n].fields]
               && Adds(env, pass, assets[n].fields, id, before.identities, after.identities, ALL_KINDS)
             else after == before
    ensures IndexOf(env, pass, now, assets[..n + 1], after)
  {
    hide Indexed, AssetIdOf, Adds, AnswersAsScan, DescribesLast;
    assert assets[..n + 1] == assets[..n] + [assets[n]];
    AnswersAsScanSnoc(env, pass, now, assets[..n], assets[n], before.identities, after.identities);
    DescribesLastSnoc(env, now, assets[..n], assets[n], before.assets);
  }

  lemma EmptyIndex(env: Env, pass: Pass, now: int)
    ensures IndexOf(env, pass, now, [], Index(map[], map[]))
  {
  }

  ghost predicate AddsValues(env: Env, before: Identities, after: Identities, kind: Kind, values: set<Value>,
      id: string) {
    forall k, value ::
      Lookup(after, k, value)
      == Lookup(before, k, value)
       + (if k == kind && value != "" && exists v :: v in values && Identifier(env, v) == value then {id} else {})
  }

  lemma AddsOneValue(env: Env, before: Identities, middle: Identities, after: Identities, kind: Kind,
                     done: set<Value>, v: Value, id: string)
    requires AddsValues(env, before, middle, kind, done, id)
    requires after == if Identifier(env, v) == "" then middle
                      else middle[(kind, Identifier(env, v)) := Lookup(middle, kind, Identifier(env, v)) + {id}]
    ensures AddsValues(env, before, after, kind, done + {v}, id)
  {
    hide Identifier;
    forall k, value
      ensures Lookup(after, k, value)
           == Lookup(before, k, value)
            + (if k == kind && value != "" && exists u :: u in done + {v} && Identifier(env, u) == value
               then {id} else {})
    {
      assert (exists u :: u in done + {v} && Identifier(env, u) == value)
        <==> Identifier(env, v) == value || exists u :: u in done && Identifier(env, u) == value;
    }
  }

  /** The loop over the values of one identifier member. */
  method AddValues(env: Env, before: Identities, kind: Kind, values: set<Value>, id: string) returns (after: Identities)
    ensures AddsValues(env, before, after, kind, values, id)
  {
    after := before;
    var todo := values;
    assert AddsValues(env, before, after, kind, values - todo, id);
    hide AddsValues, Identifier;
    while todo != {}
      invariant todo <= values
      invariant AddsValues(env, before, after, kind, values - todo, id)
      decreases todo
    {
      var v :| v in todo;
      ghost var middle := after;
      var value := Identifier(env, v);
      if value != "" {
        after := after[(kind, value) := Lookup(after, kind, value) + {id}];
      }
      AddsOneValue(env, before, middle, after, kind, values - todo, v, id);
      assert values - (todo - {v}) == values - todo + {v};
      todo := todo - {v};
    }
    assert values - todo == values;
  }

  lemma AddsOneKind(env: Env, pass: Pass, before: Identities, middle: Identities, after: Identities, asset: Fields,
                    id: string, done: set<Kind>, kind: Kind)
    requires Adds(env, pass, asset, id, before, middle, done)
    requires AddsValues(env, middle, after, kind, Elements(env, pass, IdentifierMember(asset, kind)), id)
    ensures Adds(env, pass, asset, id, before, after, done + {kind})
  {
    hide Identifier, Elements, IdentifierMember, Lookup;
    forall k, value
      ensures Lookup(after, k, value)
           == Lookup(before, k, value)
            + (if k in done + {kind} && value in IdentifierTexts(env, pass, asset, k) then {id} else {})
    {
      if k == kind {
        assert value in IdentifierTexts(env, pass, asset, k) <==>
          && value != ""
          && exists v :: v in Elements(env, pass, IdentifierMember(asset, kind)) && Identifier(env, v) == value;
      }
    }
  }

  /** _index_asset_identifiers: every kind, every value. */
  method AddIdentifiers(env: Env, pass: Pass, before: Identities, asset: Fields, id: string) returns (after: Identities)
    ensures Adds(env, pass, asset, id, before, after, ALL_KINDS)
  {
    after := before;
    ghost var done: set<Kind> := {};
    assert Adds(env, pass, asset, id, before, after, done);
    hide Adds, AddsValues, Elements, IdentifierMember;
    for n := 0 to |KINDS|
      invariant done == set i | 0 <= i < n :: KINDS[i]
      invariant Adds(env, pass, asset, id, before, after, done)
    {
      ghost var middle := after;
      after := AddValues(env, after, KINDS[n], Elements(env, pass, IdentifierMember(asset, KINDS[n])), id);
      AddsOneKind(env, pass, before, middle, after, asset, id, done, KINDS[n]);
      done := done + {KINDS[n]};
    }
    assert done == {KINDS[0], KINDS[1], KINDS[2]};
  }

  /** The overlay's index. */
  method IdentifierIndexes(env: Env, now: int, assets: seq<Value>) returns (index: Index)
    ensures IndexOf(env, OverlayPass, now, assets, index)
  {
    hide IndexOf, Adds, Current, AssetIdOf;
    index := Index(map[], map[]);
    EmptyIndex(env, OverlayPass, now);
    assert assets[..0] == [];
    for n := 0 to |assets|
      invariant IndexOf(env, OverlayPass, now, assets[..n], index)
    {
      var raw := assets[n];
      ghost var before := index;
      if raw.Obj? && Current(env, now, raw.fields) {
        var id := AssetIdOf(env, raw.fields);
        if id != "" {
          var identities := AddIdentifiers(env, OverlayPass, index.identities, raw.fields, id);
          index := Index(index.assets[id := raw.fields], identities);
        }
      }
      IndexStep(env, OverlayPass, now, assets, n, before, index);
    }
    assert assets[..|assets|] == assets;
  }

  /** _current_public_asset */
  function CurrentPublicAsset(env: Env, now: int, raw: Value): (r: Option<(string, Fields)>)
    ensures r.Some? <==> Indexed(env, now, raw)
    ensures r.Some? ==> r.value == (AssetIdOf(env, raw.fields), raw.fields)
  {
    if !raw.Obj? || !Current(env, now, raw.fields) || AssetIdOf(env, raw.fields) == "" then None
    else Some((AssetIdOf(env, raw.fields), raw.fields))
  }

  /** Discovery's index. */
  method InventoryIndex(env: Env, now: int, assets: seq<Value>) returns (index: Index)
    ensures IndexOf(env, DiscoveryPass, now, assets, index)
  {
    hide IndexOf, Adds, Current, AssetIdOf, Indexed, CurrentPublicAsset;
    index := Index(map[], map[]);
    EmptyIndex(env, DiscoveryPass, now);
    assert assets[..0] == [];
    for n := 0 to |assets|
      invariant IndexOf(env, DiscoveryPass, now, assets[..n], index)
    {
      ghost var before := index;
      var indexed := CurrentPublicAsset(env, now, assets[n]);
      if indexed.Some? {
        var (id, fields) := indexed.value;
        var identities := AddIdentifiers(env, DiscoveryPass, index.identities, fields, id);
        index := Index(index.assets[id := fields], identities);
      }
      IndexStep(env, DiscoveryPass, now, assets, n, before, index);
    }
    assert assets[..|assets|] == assets;
  }
}
