/** What the two DHCP passes publish: the overlay board, the discovery records, and the MAC shown
    beside an address. */
module DhcpViews {
  import opened Prelude
  import opened Values
  import opened Ordering
  import opened DhcpIndex
  import opened DhcpReconcile

  /** The usable observations, in the order they are stored. */
  function Parsed(env: Env, observations: seq<Value>): seq<Observation> {
    if observations == [] then []
    else
      var o := ParseObservation(env, observations[0]);
      (if o.Some? then [o.value] else []) + Parsed(env, observations[1..])
  }

  // ----- the overlay board -----

  /** Where an observation lands: on a known asset, or among the discovered clients. */
  datatype Slot = AssetSlot(id: string) | DiscoveredSlot(discoveryId: string)

  type Entries = map<Slot, Observation>

  function SlotOf(env: Env, index: Index, now: int, o: Observation): Option<Slot>
    requires Covered(index)
  {
    if Stale(env, now, o) then None
    else match OverlayVerdict(env, index, o)
      case Known(id, _) => Some(AssetSlot(id))
      case Provisional(id) => Some(DiscoveredSlot(id))
      case NoOverlay => None
  }

  function Placed(slot: Option<Slot>, o: Observation, entries: Entries): Entries {
    if slot.Some? then entries[slot.value := o] else entries
  }

  class OverlayBoard {
    var entries: Entries

    constructor ()
      ensures entries == map[]
    {
      entries := map[];
    }

    /** _apply_observation: the observation replaces whatever its slot held. */
    method Apply(env: Env, index: Index, now: int, o: Observation)
      requires Covered(index)
      modifies this
      ensures entries == Placed(SlotOf(env, index, now, o), o, old(entries))
    {
      if !Stale(env, now, o) {
        var stable := StableMatches(index.identities, o);
        var ip := IpMatches(index.identities, o);
        if |stable| == 1 && ip - stable == {} {
          entries := entries[AssetSlot(TheOnly(stable)) := o];
        } else if stable == {} && ip == {} && DiscoveryIdOf(env, o) != "" {
          entries := entries[DiscoveredSlot(DiscoveryIdOf(env, o)) := o];
        }
      }
    }
  }

  // ----- sorted by (last_seen text, discovery_id) -----

  function SortKey(env: Env, o: Observation): (string, string) {
    (RawText(env, o, LastSeen), DiscoveryIdOf(env, o))
  }

  predicate PairLe(a: (string, string), b: (string, string)) {
    if a.0 == b.0 then StringLe(a.1, b.1) else StringLe(a.0, b.0)
  }

  lemma PairLeTotal(a: (string, string), b: (string, string))
    ensures PairLe(a, b) || PairLe(b, a)
    ensures PairLe(a, b) && PairLe(b, a) ==> a == b
  {
    StringLeTotal(a.0, b.0);
    StringLeTotal(a.1, b.1);
  }

  lemma PairLeTransitive(a: (string, string), b: (string, string), c: (string, string))
    requires PairLe(a, b) && PairLe(b, c)
    ensures PairLe(a, c)
  {
    hide StringLe;
    if a.0 == b.0 && b.0 == c.0 {
      StringLeTransitive(a.1, b.1, c.1);
    } else {
      StringLeTotal(a.0, b.0);
      StringLeTotal(b.0, c.0);
      StringLeTransitive(a.0, b.0, c.0);
    }
  }

  predicate SeenLe(env: Env, a: Observation, b: Observation) {
    PairLe(SortKey(env, a), SortKey(env, b))
  }

  function SeenOrder(env: Env): (Observation, Observation) -> bool {
    (a, b) => SeenLe(env, a, b)
  }

  lemma SeenOrderIsTotal(env: Env)
    ensures TotalOrder(SeenOrder(env))
  {
    hide PairLe, SortKey;
    forall x, y ensures SeenOrder(env)(x, y) || SeenOrder(env)(y, x) {
      PairLeTotal(SortKey(env, x), SortKey(env, y));
    }
    forall x, y, z | SeenOrder(env)(x, y) && SeenOrder(env)(y, z) ensures SeenOrder(env)(x, z) {
      PairLeTransitive(SortKey(env, x), SortKey(env, y), SortKey(env, z));
    }
  }

  /** The observation lands in the slot, and none landing there has a greater key. */
  ghost predicate Survives(env: Env, index: Index, now: int, all: seq<Observation>, slot: Slot, o: Observation)
    requires Covered(index)
  {
    && o in all && SlotOf(env, index, now, o) == Some(slot)
    && forall p :: p in all && SlotOf(env, index, now, p) == Some(slot) ==> SeenLe(env, p, o)
  }

  /** Every slot some observation lands in holds one with the greatest key; no other slot is filled. */
  ghost predicate HoldsGreatest(env: Env, index: Index, now: int, all: seq<Observation>, entries: Entries)
    requires Covered(index)
  {
    && (forall slot :: slot in entries <==> exists o :: o in all && SlotOf(env, index, now, o) == Some(slot))
    && (forall slot :: slot in entries ==> Survives(env, index, now, all, slot, entries[slot]))
  }

  lemma GreatestAfterOneMore(env: Env, index: Index, now: int, prefix: seq<Observation>, o: Observation,
      entries: Entries)
    requires Covered(index) && HoldsGreatest(env, index, now, prefix, entries)
    requires forall p :: p in prefix ==> SeenLe(env, p, o)
    ensures HoldsGreatest(env, index, now, prefix + [o], Placed(SlotOf(env, index, now, o), o, entries))
  {
    hide SlotOf, SeenLe, Covered;
    var after := Placed(SlotOf(env, index, now, o), o, entries);
    assert forall p :: p in prefix + [o] <==> p in prefix || p == o;
    SeenLeReflexive(env, o);
    forall slot | slot in after
      ensures Survives(env, index, now, prefix + [o], slot, after[slot])
    {
      if SlotOf(env, index, now, o) != Some(slot) {
        assert Survives(env, index, now, prefix, slot, entries[slot]);
      }
    }
  }

  lemma SeenLeReflexive(env: Env, o: Observation)
    ensures SeenLe(env, o, o)
  {
    PairLeTotal(SortKey(env, o), SortKey(env, o));
  }

  lemma SameElements<T>(a: seq<T>, b: seq<T>, x: T)
    requires multiset(a) == multiset(b)
    ensures x in a <==> x in b
  {
    assert x in a <==> x in multiset(a);
    assert x in b <==> x in multiset(b);
  }

  lemma HoldsGreatestOfReordered(env: Env, index: Index, now: int, a: seq<Observation>, b: seq<Observation>,
      entries: Entries)
    requires Covered(index) && HoldsGreatest(env, index, now, a, entries)
    requires multiset(a) == multiset(b)
    ensures HoldsGreatest(env, index, now, b, entries)
  {
    hide SlotOf, SeenLe, Covered;
    forall o ensures o in a <==> o in b { SameElements(a, b, o); }
    forall slot | slot in entries
      ensures Survives(env, index, now, b, slot, entries[slot])
    {
      assert Survives(env, index, now, a, slot, entries[slot]);
    }
  }

  /** `observations.sort(key=...)` */
  function OldestFirst(env: Env, all: seq<Observation>): (r: seq<Observation>)
    ensures multiset(r) == multiset(all)
  {
    Sort(SeenOrder(env), all)
  }

  lemma EarlierSeenFirst(env: Env, all: seq<Observation>, n: nat)
    requires n < |OldestFirst(env, all)|
    ensures forall p :: p in OldestFirst(env, all)[..n] ==> SeenLe(env, p, OldestFirst(env, all)[n])
  {
    hide SeenLe, Sort;
    var sorted := OldestFirst(env, all);
    SeenOrderIsTotal(env);
    SortSorts(SeenOrder(env), all);
    forall p | p in sorted[..n] ensures SeenLe(env, p, sorted[n]) {
      var k :| 0 <= k < n && sorted[k] == p;
      assert SeenOrder(env)(sorted[k], sorted[n]);
    }
  }

  lemma EmptyBoardHoldsGreatest(env: Env, index: Index, now: int)
    requires Covered(index)
    ensures HoldsGreatest(env, index, now, [], map[])
  {
    hide SlotOf, Covered;
  }

  /** dhcp_asset_inventory_overlay; nothing is overlaid while the state is in error. */
  method DhcpAssetInventoryOverlay(env: Env, index: Index, now: int, observations: seq<Value>, stateError: bool)
    returns (entries: Entries)
    requires Covered(index)
    ensures stateError ==> entries == map[]
    ensures !stateError ==> HoldsGreatest(env, index, now, Parsed(env, observations), entries)
  {
    hide SlotOf, SeenLe, Placed, Parsed, OldestFirst, HoldsGreatest, Covered;
    if stateError { return map[]; }
    var parsed := Parsed(env, observations);
    var sorted := OldestFirst(env, parsed);
    var board := new OverlayBoard();
    EmptyBoardHoldsGreatest(env, index, now);
    assert sorted[..0] == [];
    for n := 0 to |sorted|
      invariant HoldsGreatest(env, index, now, sorted[..n], board.entries)
    {
      ghost var before := board.entries;
      EarlierSeenFirst(env, parsed, n);
      board.Apply(env, index, now, sorted[n]);
      GreatestAfterOneMore(env, index, now, sorted[..n], sorted[n], before);
      assert sorted[..n + 1] == sorted[..n] + [sorted[n]];
    }
    assert sorted[..|sorted|] == sorted;
    HoldsGreatestOfReordered(env, index, now, sorted, parsed, board.entries);
    entries := board.entries;
  }

  /** Observations landing in one slot have distinct keys. */
  ghost predicate DistinctKeys(env: Env, index: Index, now: int, all: seq<Observation>)
    requires Covered(index)
  {
    forall o, p |
      && o in all && p in all && SlotOf(env, index, now, o).Some?
      && SlotOf(env, index, now, o) == SlotOf(env, index, now, p)
      && SortKey(env, o) == SortKey(env, p)
      :: o == p
  }

  /** With distinct keys, what survives does not depend on the order observations arrive in. */
  lemma SurvivorsIgnoreInputOrder(env: Env, index: Index, now: int, a: seq<Observation>, b: seq<Observation>,
                                  fromA: Entries, fromB: Entries)
    requires Covered(index) && DistinctKeys(env, index, now, a)
    requires multiset(a) == multiset(b)
    requires HoldsGreatest(env, index, now, a, fromA) && HoldsGreatest(env, index, now, b, fromB)
    ensures fromA == fromB
  {
    hide SlotOf, PairLe, SortKey, Covered;
    HoldsGreatestOfReordered(env, index, now, b, a, fromB);
    assert fromA.Keys == fromB.Keys;
    forall slot | slot in fromA
      ensures fromA[slot] == fromB[slot]
    {
      assert Survives(env, index, now, a, slot, fromA[slot]);
      assert Survives(env, index, now, a, slot, fromB[slot]);
      PairLeTotal(SortKey(env, fromA[slot]), SortKey(env, fromB[slot]));
    }
  }

  // ----- discovery records -----

  datatype Record = Record(observation: Observation, resolution: Resolution, reconciliation: Reconciliation,
                           newAddress: bool, stale: bool, lastSeen: string)

  datatype Counts = Counts(total: nat, verified: nat, candidate: nat, conflict: nat, stale: nat)

  function Published(env: Env, index: Index, inventoryError: bool, now: int, o: Observation): Record
    requires Covered(index)
  {
    var resolution := Resolve(index, inventoryError, o);
    Record(o, resolution, Reconcile(env, o, resolution),
      resolution.Resolved? && Str(o.address) !in Elements(env, OverlayPass, IdentifierMember(resolution.asset, IpKind)),
      Stale(env, now, o), Truncate(RawText(env, o, LastSeen), 64))
  }

  function Rank(r: Reconciliation): nat {
    match r case Conflict => 0 case Candidate => 1 case VerifiedMatch => 2
  }

  /** Conflicts first, then candidates, then matches; the fresh before the stale; then by last_seen. */
  predicate RecordLe(a: Record, b: Record) {
    if a.reconciliation != b.reconciliation then Rank(a.reconciliation) < Rank(b.reconciliation)
    else if a.stale != b.stale then b.stale
    else StringLe(a.lastSeen, b.lastSeen)
  }

  lemma RecordOrderIsTotal()
    ensures TotalOrder(RecordLe)
  {
    hide StringLe;
    forall x, y ensures RecordLe(x, y) || RecordLe(y, x) {
      StringLeTotal(x.lastSeen, y.lastSeen);
    }
    forall x, y, z | RecordLe(x, y) && RecordLe(y, z) ensures RecordLe(x, z) {
      if StringLe(x.lastSeen, y.lastSeen) && StringLe(y.lastSeen, z.lastSeen) {
        StringLeTransitive(x.lastSeen, y.lastSeen, z.lastSeen);
      }
    }
  }

  /** One record of the usable observations each, in the order they are stored. */
  function Unsorted(env: Env, index: Index, inventoryError: bool, now: int, observations: seq<Value>): seq<Record>
    requires Covered(index)
  {
    if observations == [] then []
    else
      var o := ParseObservation(env, observations[0]);
      (if o.Some? then [Published(env, index, inventoryError, now, o.value)] else [])
      + Unsorted(env, index, inventoryError, now, observations[1..])
  }

  function CountOf(p: Record -> bool, s: seq<Record>): nat {
    if s == [] then 0 else (if p(s[0]) then 1 else 0) + CountOf(p, s[1..])
  }

  lemma {:induction false} CountAppend(p: Record -> bool, a: seq<Record>, b: seq<Record>)
    ensures CountOf(p, a + b) == CountOf(p, a) + CountOf(p, b)
  {
    if a == [] {
      assert a + b == b;
    } else {
      assert (a + b)[0] == a[0] && (a + b)[1..] == a[1..] + b;
      CountAppend(p, a[1..], b);
    }
  }

  lemma {:induction false} CountOfInserted(p: Record -> bool, le: (Record, Record) -> bool, x: Record, s: seq<Record>)
    ensures CountOf(p, Insert(le, x, s)) == CountOf(p, s) + if p(x) then 1 else 0
  {
    if s == [] {
    } else if le(x, s[0]) {
      CountAppend(p, [x], s);
    } else {
      CountOfInserted(p, le, x, s[1..]);
      CountAppend(p, [s[0]], Insert(le, x, s[1..]));
    }
  }

  lemma {:induction false} CountOfSorted(p: Record -> bool, le: (Record, Record) -> bool, s: seq<Record>)
    ensures CountOf(p, Sort(le, s)) == CountOf(p, s)
  {
    if s != [] {
      CountOfSorted(p, le, s[1..]);
      CountOfInserted(p, le, s[0], Sort(le, s[1..]));
    }
  }

  function Is(r: Reconciliation): Record -> bool {
    (x: Record) => x.reconciliation == r
  }

  const IS_STALE := (x: Record) => x.stale

  /** Every record is counted once under its reconciliation, and the stale ones also as stale. */
  predicate CountsOf(counts: Counts, records: seq<Record>) {
    && counts.total == |records|
    && counts.verified == CountOf(Is(VerifiedMatch), records)
    && counts.candidate == CountOf(Is(Candidate), records)
    && counts.conflict == CountOf(Is(Conflict), records)
    && counts.stale == CountOf(IS_STALE, records)
  }

  lemma {:induction false} EveryRecordCountedOnce(records: seq<Record>)
    ensures |records|
            == CountOf(Is(VerifiedMatch), records) + CountOf(Is(Candidate), records) + CountOf(Is(Conflict), records)
  {
    if records != [] { EveryRecordCountedOnce(records[1..]); }
  }

  lemma CountsOfOneMore(counts: Counts, records: seq<Record>, x: Record)
    requires CountsOf(counts, records)
    ensures CountsOf(Tallied(counts, x), records + [x])
  {
    CountAppend(Is(VerifiedMatch), records, [x]);
    CountAppend(Is(Candidate), records, [x]);
    CountAppend(Is(Conflict), records, [x]);
    CountAppend(IS_STALE, records, [x]);
  }

  function Tallied(counts: Counts, x: Record): Counts {
    var named := match x.reconciliation
      case VerifiedMatch => counts.(verified := counts.verified + 1)
      case Candidate => counts.(candidate := counts.candidate + 1)
      case Conflict => counts.(conflict := counts.conflict + 1);
    named.(total := counts.total + 1, stale := counts.stale + if x.stale then 1 else 0)
  }

  lemma CountsOfSorted(counts: Counts, records: seq<Record>)
    requires CountsOf(counts, records)
    ensures CountsOf(counts, Sort(RecordLe, records))
  {
    hide RecordLe;
    CountOfSorted(Is(VerifiedMatch), RecordLe, records);
    CountOfSorted(Is(Candidate), RecordLe, records);
    CountOfSorted(Is(Conflict), RecordLe, records);
    CountOfSorted(IS_STALE, RecordLe, records);
    assert |multiset(Sort(RecordLe, records))| == |multiset(records)|;
  }

  lemma {:induction false} UnsortedSnoc(env: Env, index: Index, inventoryError: bool, now: int,
      observations: seq<Value>, raw: Value)
    requires Covered(index)
    ensures Unsorted(env, index, inventoryError, now, observations + [raw])
         == Unsorted(env, index, inventoryError, now, observations)
          + match ParseObservation(env, raw)
            case None => []
            case Some(o) => [Published(env, index, inventoryError, now, o)]
  {
    hide ParseObservation, Published, Covered;
    if observations == [] {
      assert observations + [raw] == [raw];
    } else {
      assert (observations + [raw])[0] == observations[0] && (observations + [raw])[1..] == observations[1..] + [raw];
      UnsortedSnoc(env, index, inventoryError, now, observations[1..], raw);
    }
  }

  /** _records: the usable observations reconciled, counted and ordered. */
  method Records(env: Env, index: Index, inventoryError: bool, now: int, observations: seq<Value>)
    returns (records: seq<Record>, counts: Counts)
    requires Covered(index)
    ensures multiset(records) == multiset(Unsorted(env, index, inventoryError, now, observations))
    ensures SortedBy(RecordLe, records)
    ensures CountsOf(counts, records)
    ensures counts.total == counts.verified + counts.candidate + counts.conflict
  {
    records, counts := [], Counts(0, 0, 0, 0, 0);
    hide ParseObservation, Published, Covered, RecordLe, CountOf, Tallied;
    assert CountsOf(counts, records) by { NothingCounted(); }
    hide CountsOf;
    assert observations[..0] == [];
    for n := 0 to |observations|
      invariant records == Unsorted(env, index, inventoryError, now, observations[..n])
      invariant CountsOf(counts, records)
    {
      assert observations[..n + 1] == observations[..n] + [observations[n]];
      UnsortedSnoc(env, index, inventoryError, now, observations[..n], observations[n]);
      var o := ParseObservation(env, observations[n]);
      if o.Some? {
        var record := Published(env, index, inventoryError, now, o.value);
        CountsOfOneMore(counts, records, record);
        counts := Tallied(counts, record);
        records := records + [record];
      }
    }
    assert observations[..|observations|] == observations;
    RecordOrderIsTotal();
    SortSorts(RecordLe, records);
    CountsOfSorted(counts, records);
    records := Sort(RecordLe, records);
    TotalIsTheSum(counts, records);
  }

  lemma NothingCounted()
    ensures CountsOf(Counts(0, 0, 0, 0, 0), [])
  {
  }

  lemma TotalIsTheSum(counts: Counts, records: seq<Record>)
    requires CountsOf(counts, records)
    ensures counts.total == counts.verified + counts.candidate + counts.conflict
  {
    EveryRecordCountedOnce(records);
  }

  // ----- the two views -----

  lemma {:induction false} RecordsOfParsed(env: Env, index: Index, now: int, observations: seq<Value>)
    requires Covered(index)
    ensures forall o :: o in Parsed(env, observations) ==>
      Published(env, index, false, now, o) in Unsorted(env, index, false, now, observations)
    ensures forall r :: r in Unsorted(env, index, false, now, observations) ==>
      r.observation in Parsed(env, observations) && r == Published(env, index, false, now, r.observation)
  {
    hide ParseObservation, Resolve, Reconcile, Stale, Covered, RawText, Elements;
    if observations != [] {
      RecordsOfParsed(env, index, now, observations[1..]);
    }
  }

  /** A fresh record that discovery verifies by the stable identity of an asset. */
  predicate FreshStableMatch(r: Record, id: string) {
    !r.stale && r.reconciliation == VerifiedMatch && r.resolution.Resolved? && r.resolution.stable
      && r.resolution.id == id
  }

  /** A fresh candidate with this discovery id. */
  predicate FreshCandidate(env: Env, r: Record, discoveryId: string) {
    !r.stale && r.reconciliation == Candidate && discoveryId != "" && DiscoveryIdOf(env, r.observation) == discoveryId
  }

  lemma SlotMeansRecord(env: Env, now: int, assets: seq<Value>, overlay: Index, discovery: Index, o: Observation)
    requires IndexOf(env, OverlayPass, now, assets, overlay) && IndexOf(env, DiscoveryPass, now, assets, discovery)
    requires ListsOnly(env, now, assets)
    ensures Covered(overlay) && Covered(discovery)
    ensures forall id :: SlotOf(env, overlay, now, o) == Some(AssetSlot(id)) <==>
      FreshStableMatch(Published(env, discovery, false, now, o), id)
    ensures forall id :: SlotOf(env, overlay, now, o) == Some(DiscoveredSlot(id)) <==>
      FreshCandidate(env, Published(env, discovery, false, now, o), id)
  {
    hide IndexOf, ListsOnly, ObservationReadAlike, OverlayVerdict, Resolve, AuthoritativeHostnames, Stale, Covered,
        DiscoveryIdOf, RawText, Elements;
    ListsAreReadAlike(env, now, assets, o);
    ReconcilersAgree(env, now, assets, overlay, discovery, o);
    ProvisionalCarriesId(env, overlay, o);
  }

  lemma ProvisionalCarriesId(env: Env, index: Index, o: Observation)
    requires Covered(index)
    ensures OverlayVerdict(env, index, o).Provisional?
            ==> OverlayVerdict(env, index, o).discoveryId == DiscoveryIdOf(env, o) != ""
  {
    hide StableMatches, IpMatches, DiscoveryIdOf, TheOnly;
  }

  /** The board overlays exactly the assets discovery verifies by a stable identity in a fresh record,
      and shows exactly the clients discovery has as fresh candidates with an id. */
  lemma ViewsAgree(env: Env, now: int, assets: seq<Value>, overlay: Index, discovery: Index,
      observations: seq<Value>, entries: Entries)
    requires IndexOf(env, OverlayPass, now, assets, overlay) && IndexOf(env, DiscoveryPass, now, assets, discovery)
    requires ListsOnly(env, now, assets)
    requires Covered(overlay) && Covered(discovery)
    requires HoldsGreatest(env, overlay, now, Parsed(env, observations), entries)
    ensures var records := Unsorted(env, discovery, false, now, observations);
      && (forall id :: AssetSlot(id) in entries <==> exists r :: r in records && FreshStableMatch(r, id))
      && (forall id :: DiscoveredSlot(id) in entries <==> exists r :: r in records && FreshCandidate(env, r, id))
  {
    hide IndexOf, ListsOnly, Covered, SlotOf, Published, FreshStableMatch, FreshCandidate, Unsorted, Parsed, Survives;
    RecordsOfParsed(env, discovery, now, observations);
    var parsed, records := Parsed(env, observations), Unsorted(env, discovery, false, now, observations);
    forall id
      ensures AssetSlot(id) in entries <==> exists r :: r in records && FreshStableMatch(r, id)
      ensures DiscoveredSlot(id) in entries <==> exists r :: r in records && FreshCandidate(env, r, id)
    {
      forall o | o in parsed
        ensures SlotOf(env, overlay, now, o) == Some(AssetSlot(id))
                ==> exists r :: r in records && FreshStableMatch(r, id)
        ensures SlotOf(env, overlay, now, o) == Some(DiscoveredSlot(id))
                ==> exists r :: r in records && FreshCandidate(env, r, id)
      {
        SlotMeansRecord(env, now, assets, overlay, discovery, o);
        assert Published(env, discovery, false, now, o) in records;
      }
      forall r | r in records
        ensures FreshStableMatch(r, id) ==> SlotOf(env, overlay, now, r.observation) == Some(AssetSlot(id))
        ensures FreshCandidate(env, r, id) ==> SlotOf(env, overlay, now, r.observation) == Some(DiscoveredSlot(id))
      {
        SlotMeansRecord(env, now, assets, overlay, discovery, r.observation);
      }
    }
  }

  // ----- the MAC beside an address -----

  datatype Evidence = Evidence(mac: string, lastSeen: int, stale: bool)

  predicate LaterFirst(a: Evidence, b: Evidence) { b.lastSeen <= a.lastSeen }

  function Fresh(candidates: seq<Evidence>): (r: seq<Evidence>)
    ensures forall e :: e in r <==> e in candidates && !e.stale
  {
    if candidates == [] then []
    else (if candidates[0].stale then [] else [candidates[0]]) + Fresh(candidates[1..])
  }

  /** Stale evidence is considered only when there is no fresh evidence. */
  predicate Considered(candidates: seq<Evidence>, e: Evidence) {
    e in candidates && (e.stale ==> forall f :: f in candidates ==> f.stale)
  }

  /** Each MAC seen maps to its newest evidence. */
  ghost predicate NewestByMac(byMac: map<string, Evidence>, seen: seq<Evidence>) {
    && (forall e :: e in seen ==> e.mac in byMac && e.lastSeen <= byMac[e.mac].lastSeen)
    && (forall mac :: mac in byMac ==> byMac[mac] in seen && byMac[mac].mac == mac)
  }

  lemma NewestAfterOneMore(byMac: map<string, Evidence>, seen: seq<Evidence>, e: Evidence)
    requires NewestByMac(byMac, seen)
    requires forall f :: f in seen ==> e.lastSeen <= f.lastSeen
    ensures NewestByMac(if e.mac in byMac then byMac else byMac[e.mac := e], seen + [e])
  {
  }

  /** What is selected, and whether the choice was ambiguous. */
  ghost predicate Selects(candidates: seq<Evidence>, selected: Option<Evidence>, ambiguous: bool) {
    && (ambiguous <==> exists e, f :: Considered(candidates, e) && Considered(candidates, f) && e.mac != f.mac)
    && (selected.None? <==> candidates == [] || ambiguous)
    && (selected.Some? ==> Considered(candidates, selected.value))
    && (selected.Some? ==> forall e :: Considered(candidates, e) ==>
          e.mac == selected.value.mac && e.lastSeen <= selected.value.lastSeen)
  }

  lemma NoneConsidered(candidates: seq<Evidence>)
    requires forall e :: !Considered(candidates, e)
    ensures candidates == []
  {
    if candidates != [] {
      var recent := Fresh(candidates);
      if recent == [] {
        assert forall f :: f in candidates ==> f.stale;
        assert Considered(candidates, candidates[0]);
      } else {
        assert Considered(candidates, recent[0]);
      }
    }
  }

  lemma SeveralMacs(candidates: seq<Evidence>, byMac: map<string, Evidence>, seen: seq<Evidence>)
    requires forall e :: e in seen <==> Considered(candidates, e)
    requires NewestByMac(byMac, seen) && |byMac| != 1
    ensures Selects(candidates, None, byMac != map[])
  {
    hide Considered;
    if byMac == map[] {
      NoneConsidered(candidates);
    } else {
      var a :| a in byMac;
      assert |byMac.Keys - {a}| > 0;
      var b :| b in byMac.Keys - {a};
      assert byMac[a] in seen && byMac[b] in seen;
    }
    assert candidates == [] ==> byMac == map[] by { NoEvidence(candidates, byMac, seen); }
  }

  lemma NoEvidence(candidates: seq<Evidence>, byMac: map<string, Evidence>, seen: seq<Evidence>)
    requires forall e :: e in seen <==> Considered(candidates, e)
    requires NewestByMac(byMac, seen)
    ensures byMac != map[] ==> candidates != []
  {
    if byMac != map[] {
      var mac :| mac in byMac;
      assert byMac[mac] in seen;
    }
  }

  lemma OnlyKey(byMac: map<string, Evidence>, mac: string)
    requires |byMac| == 1 && mac in byMac
    ensures byMac.Keys == {mac}
  {
    assert |byMac.Keys - {mac}| == 0;
  }

  lemma OneMac(candidates: seq<Evidence>, byMac: map<string, Evidence>, seen: seq<Evidence>, mac: string)
    requires forall e :: e in seen <==> Considered(candidates, e)
    requires NewestByMac(byMac, seen) && |byMac| == 1 && mac in byMac
    ensures Selects(candidates, Some(byMac[mac]), false)
  {
    hide Considered;
    OnlyKey(byMac, mac);
    forall e | e in seen ensures e.mac == mac {
      assert e.mac in byMac.Keys;
    }
    NoEvidence(candidates, byMac, seen);
  }

  /** The evidence considered, newest first. */
  function NewestFirst(candidates: seq<Evidence>): seq<Evidence> {
    var recent := Fresh(candidates);
    Sort(LaterFirst, if recent != [] then recent else candidates)
  }

  lemma NewestFirstHoldsConsidered(candidates: seq<Evidence>, e: Evidence)
    ensures e in NewestFirst(candidates) <==> Considered(candidates, e)
  {
    var recent := Fresh(candidates);
    SortKeepsElements(LaterFirst, if recent != [] then recent else candidates, e);
    if recent != [] { assert recent[0] in recent; }
  }

  lemma LaterComeFirst(candidates: seq<Evidence>, n: nat)
    requires n < |NewestFirst(candidates)|
    ensures forall f :: f in NewestFirst(candidates)[..n] ==> NewestFirst(candidates)[n].lastSeen <= f.lastSeen
  {
    hide Sort;
    var recent := Fresh(candidates);
    var sorted := NewestFirst(candidates);
    SortSorts(LaterFirst, if recent != [] then recent else candidates);
    forall f | f in sorted[..n] ensures sorted[n].lastSeen <= f.lastSeen {
      var k :| 0 <= k < n && sorted[k] == f;
      assert LaterFirst(sorted[k], sorted[n]);
    }
  }

  /** _select_mac: one MAC among the evidence considered, or a flag that there are several. */
  method SelectMac(candidates: seq<Evidence>) returns (selected: Option<Evidence>, ambiguous: bool)
    ensures Selects(candidates, selected, ambiguous)
  {
    hide Considered, Selects, NewestFirst;
    var sorted := NewestFirst(candidates);
    forall e { NewestFirstHoldsConsidered(candidates, e); }
    var byMac: map<string, Evidence> := map[];
    assert NewestByMac(byMac, sorted[..0]);
    hide NewestByMac;
    for n := 0 to |sorted|
      invariant NewestByMac(byMac, sorted[..n])
    {
      assert sorted[..n + 1] == sorted[..n] + [sorted[n]];
      LaterComeFirst(candidates, n);
      NewestAfterOneMore(byMac, sorted[..n], sorted[n]);
      if sorted[n].mac !in byMac {
        byMac := byMac[sorted[n].mac := sorted[n]];
      }
    }
    assert sorted[..|sorted|] == sorted;
    if |byMac| != 1 {
      selected, ambiguous := None, byMac != map[];
      SeveralMacs(candidates, byMac, sorted);
    } else {
      var mac :| mac in byMac.Keys;
      selected, ambiguous := Some(byMac[mac]), false;
      OneMac(candidates, byMac, sorted, mac);
    }
  }
}
