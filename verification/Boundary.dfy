/** What the importer produces the normalizer accepts. */
module Boundary {
  import opened Common
  import opened Ordering
  import opened Names
  import opened Normalizer
  import opened Snapshots
  import opened Importer
  import opened Conservation
  import opened Accounting
  import opened Canonical

  // ---- what a well-typed profile delivers ----------------------------------------------------

  /** The value has the type of its target; constants and defaults of a profile are the
      only values the importer does not check itself. */
  predicate Typed(kind: FieldKind, v: Value) {
    v.Null? ||
    match kind
    case IdKind => v.Text? || v.Count? || v.Flag?
    case TimeKind => v.Time?
    case OpaqueKind => v.Text?
    case EnumKind => v.Text?
    case FlagKind => v.Flag?
    case IntKind => v.Count? && 0 <= v.n <= 1000000000000
    case NumberKind => Score(v)
  }

  /** A profile names each target at most once, every required one, and no other. */
  ghost predicate WellTyped(k: RecordKind, line: Line) {
    line.Mapped? ==>
      && (forall i :: 0 <= i < |line.values| ==>
            && line.values[i].0 in Targets(k)
            && Typed(Targets(k)[line.values[i].0].0, line.values[i].1))
      && (forall name :: name in Targets(k) && Targets(k)[name].1 ==>
            exists i :: 0 <= i < |line.values| && line.values[i].0 == name)
  }

  ghost predicate WellTypedFeeds(feeds: seq<Feed>) {
    forall f, l :: f in feeds && l in f.lines ==> WellTyped(f.kind, l)
  }

  /** Hashes are spelled in hexadecimal: 16 digits, or 24 in a derived identifier. */
  ghost predicate Spelled(digests: Digests) {
    && (forall t :: Hex(digests.name(t)))
    && (forall x :: Hex(digests.body(x)))
    && (forall k, r :: |digests.row(k, r)| == 24 && AllKept(digests.row(k, r)))
  }

  // ---- the shape of records --------------------------------------------------------------------

  /** What a field of a record may hold. */
  predicate Good(kind: FieldKind, name: FieldName, required: bool, v: Value) {
    && (required ==> !v.Null?)
    && (v.Null? || match kind
                   case IdKind => Identifier(v)
                   case TimeKind => v.Time?
                   case OpaqueKind => Opaque(v)
                   case EnumKind => Allowed(name, v)
                   case FlagKind => v.Flag?
                   case IntKind => v.Count? && 0 <= v.n <= 1000000000000
                   case NumberKind => Score(v))
  }

  ghost predicate GoodFields(k: RecordKind, record: Item) {
    forall name :: name in record ==>
      name in Targets(k) && Good(Targets(k)[name].0, name, Targets(k)[name].1, record[name])
  }

  ghost predicate GoodRecord(k: RecordKind, record: Item) {
    && record.Keys == Targets(k).Keys && Identifier(record[Id])
    && forall name :: name in Targets(k) && name != Id ==>
         Good(Targets(k)[name].0, name, Targets(k)[name].1, record[name])
  }

  lemma CellGood(kind: FieldKind, name: FieldName, v: Value, digest: string -> string)
    requires Hex(digest(TextOf(v))) && Typed(kind, v) && !v.Null? && Cell(kind, name, v, digest).Some?
    ensures Good(kind, name, true, Cell(kind, name, v, digest).value)
  {
    hide Slug, Legal, Printable, Allowed, Hex, Passes;
    SlugLegal(TextOf(v), digest);
  }

  lemma FieldGood(k: RecordKind, name: FieldName, v: Value, digests: Digests)
    requires Spelled(digests) && name in Targets(k) && Typed(Targets(k)[name].0, v)
    requires Field(k, name, v, digests.name).Some?
    ensures Good(Targets(k)[name].0, name, Targets(k)[name].1, Field(k, name, v, digests.name).value)
  {
    hide Typed, Targets, Cell, Hex, AllKept;
    if !v.Null? { CellGood(Targets(k)[name].0, name, v, digests.name); }
  }

  lemma {:induction false} FieldsGood(k: RecordKind, line: Line, n: nat, digests: Digests)
    requires line.Mapped? && n <= |line.values| && Spelled(digests) && WellTyped(k, line)
    requires Fields(k, line.values, n, digests.name).Some?
    ensures GoodFields(k, Fields(k, line.values, n, digests.name).value)
    ensures forall i :: 0 <= i < n ==> line.values[i].0 in Fields(k, line.values, n, digests.name).value
  {
    hide Slug, Targets, Field, Good, Typed, Spelled;
    if n > 0 {
      FieldsGood(k, line, n - 1, digests);
      FieldGood(k, line.values[n - 1].0, line.values[n - 1].1, digests);
    }
  }

  lemma DerivedLegal(k: RecordKind, hash: string)
    requires |hash| == 24 && AllKept(hash)
    ensures Legal(Prefix(k) + hash)
  {
    assert AllKept(Prefix(k)) && Alphanumeric(Prefix(k)[0]) && |Prefix(k)| == 3;
    var s := Prefix(k) + hash;
    forall i | 0 <= i < |s| ensures Kept(s[i]) {
      if i < 3 { assert s[i] == Prefix(k)[i]; } else { assert s[i] == hash[i - 3]; }
    }
  }

  lemma IdTarget(k: RecordKind)
    ensures Id in Targets(k) && Targets(k)[Id].0 == IdKind
  {
  }

  lemma CompletedGood(k: RecordKind, r: Item, digests: Digests)
    requires GoodFields(k, r) && Legal(Prefix(k) + digests.row(k, r - {Id}))
    requires forall name :: name in Targets(k) && Targets(k)[name].1 ==> name in r
    ensures GoodRecord(k, Completed(k, r, digests))
  {
    hide Targets, Legal, Prefix, Opaque, Allowed;
    IdTarget(k);
  }

  lemma AcceptedGood(k: RecordKind, line: Line, digests: Digests)
    requires Spelled(digests) && WellTyped(k, line) && Accepted(k, line, digests).Some?
    ensures GoodRecord(k, Accepted(k, line, digests).value)
  {
    hide Typed, Legal, Fields, Targets, GoodFields, GoodRecord, Completed;
    FieldsGood(k, line, |line.values|, digests);
    var r := Fields(k, line.values, |line.values|, digests.name).value;
    DerivedLegal(k, digests.row(k, r - {Id}));
    CompletedGood(k, r, digests);
  }

  // ---- events and assets the normalizer takes ----------------------------------------------------

  /** Valid but for its time and the asset it refers to. */
  predicate EventShape(e: Item) { ValidEvent(e, TimeAt(e, At), {RefersTo(e)}) }

  predicate AssetShape(a: Item) { ValidAsset(a, TimeAt(a, ObservedAt)) }

  lemma RecordKeys(k: RecordKind, record: Item)
    requires GoodRecord(k, record)
    ensures record.Keys == Targets(k).Keys && Id in record && Identifier(record[Id])
  {
    hide Identifier;
  }

  lemma FieldIs(k: RecordKind, record: Item, name: FieldName)
    requires GoodRecord(k, record) && name in Targets(k) && name != Id
    ensures name in record && Good(Targets(k)[name].0, name, Targets(k)[name].1, record[name])
  {
    hide Targets, Good;
  }

  lemma LoginFields(record: Item)
    requires GoodRecord(LoginLog, record)
    ensures record.Keys == LOGIN_TARGETS.Keys && Identifier(record[Id])
    ensures Good(TimeKind, At, true, record[At]) && Good(OpaqueKind, Actor, true, record[Actor])
    ensures Good(OpaqueKind, Session, true, record[Session]) && Good(IdKind, GatewayId, true, record[GatewayId])
    ensures Good(FlagKind, Success, true, record[Success]) && Good(FlagKind, Privileged, false, record[Privileged])
    ensures Good(FlagKind, DeviceTrusted, false, record[DeviceTrusted])
    ensures Good(FlagKind, Approved, false, record[Approved])
  {
    hide Good, GoodRecord, Identifier, Legal;
    RecordKeys(LoginLog, record);
    FieldIs(LoginLog, record, At);
    FieldIs(LoginLog, record, Actor);
    FieldIs(LoginLog, record, Session);
    FieldIs(LoginLog, record, GatewayId);
    FieldIs(LoginLog, record, Success);
    FieldIs(LoginLog, record, Privileged);
    FieldIs(LoginLog, record, DeviceTrusted);
    FieldIs(LoginLog, record, Approved);
  }

  lemma FileFields(record: Item)
    requires GoodRecord(FileLog, record)
    ensures record.Keys == FILE_TARGETS.Keys && Identifier(record[Id])
    ensures Good(TimeKind, At, true, record[At]) && Good(OpaqueKind, Actor, true, record[Actor])
    ensures Good(OpaqueKind, Session, true, record[Session]) && Good(IdKind, AssetId, true, record[AssetId])
    ensures Good(OpaqueKind, FileId, true, record[FileId]) && Good(FlagKind, Sensitive, false, record[Sensitive])
    ensures Good(IntKind, BytesRead, false, record[BytesRead])
  {
    hide Good, GoodRecord, Identifier, Legal;
    RecordKeys(FileLog, record);
    FieldIs(FileLog, record, At);
    FieldIs(FileLog, record, Actor);
    FieldIs(FileLog, record, Session);
    FieldIs(FileLog, record, AssetId);
    FieldIs(FileLog, record, FileId);
    FieldIs(FileLog, record, Sensitive);
    FieldIs(FileLog, record, BytesRead);
  }

  lemma LoginShape(record: Item)
    requires GoodRecord(LoginLog, record)
    ensures EventShape(EventOf(LoginLog, record))
  {
    hide Legal, Opaque, GoodRecord;
    LoginFields(record);
    assert EventOf(LoginLog, record).Keys == LOGIN_KEYS;
  }

  lemma FileShape(record: Item)
    requires GoodRecord(FileLog, record)
    ensures EventShape(EventOf(FileLog, record))
  {
    hide Legal, Opaque, GoodRecord;
    FileFields(record);
    assert EventOf(FileLog, record).Keys == FILE_KEYS;
  }

  lemma WeaknessGood(reference: Value, cvss: Value, exploited: Value)
    requires Good(IdKind, WeaknessReference, false, reference) && Good(NumberKind, WeaknessCvss, false, cvss)
    requires Good(FlagKind, WeaknessExploited, false, exploited)
    ensures Weak(if reference.Null? then Null
                 else Object(map[Reference := reference, Cvss := cvss, KnownExploited := exploited]))
  {
    hide Legal;
  }

  lemma InventoryFields(record: Item)
    requires GoodRecord(Inventory, record)
    ensures record.Keys == INVENTORY_TARGETS.Keys && Identifier(record[Id])
    ensures Good(EnumKind, AssetKind, true, record[AssetKind]) && Good(EnumKind, PatchState, true, record[PatchState])
    ensures Good(TimeKind, ObservedAt, true, record[ObservedAt])
  {
    hide Good, GoodRecord, Identifier, Legal;
    RecordKeys(Inventory, record);
    FieldIs(Inventory, record, AssetKind);
    FieldIs(Inventory, record, PatchState);
    FieldIs(Inventory, record, ObservedAt);
  }

  lemma InventoryFlags(record: Item)
    requires GoodRecord(Inventory, record)
    ensures {InternetExposed, PrivilegedPath, SensitivePath} <= record.Keys
    ensures Good(FlagKind, InternetExposed, false, record[InternetExposed])
    ensures Good(FlagKind, PrivilegedPath, false, record[PrivilegedPath])
    ensures Good(FlagKind, SensitivePath, false, record[SensitivePath])
  {
    hide Good, GoodRecord, Identifier, Legal;
    RecordKeys(Inventory, record);
    FieldIs(Inventory, record, InternetExposed);
    FieldIs(Inventory, record, PrivilegedPath);
    FieldIs(Inventory, record, SensitivePath);
  }

  lemma WeaknessFields(record: Item)
    requires GoodRecord(Inventory, record)
    ensures {WeaknessReference, WeaknessCvss, WeaknessExploited} <= record.Keys
    ensures Good(IdKind, WeaknessReference, false, record[WeaknessReference])
    ensures Good(NumberKind, WeaknessCvss, false, record[WeaknessCvss])
    ensures Good(FlagKind, WeaknessExploited, false, record[WeaknessExploited])
  {
    hide Good, GoodRecord, Identifier, Legal;
    RecordKeys(Inventory, record);
    FieldIs(Inventory, record, WeaknessReference);
    FieldIs(Inventory, record, WeaknessCvss);
    FieldIs(Inventory, record, WeaknessExploited);
  }

  lemma InventoryShape(record: Item)
    requires GoodRecord(Inventory, record)
    ensures AssetShape(AssetOf(record))
  {
    hide Weak, GoodRecord, Identifier;
    InventoryFields(record);
    InventoryFlags(record);
    WeaknessFields(record);
    WeaknessGood(record[WeaknessReference], record[WeaknessCvss], record[WeaknessExploited]);
    assert AssetOf(record).Keys == ASSET_KEYS;
  }

  lemma RenamedLegal(id: string, hash: string)
    requires Legal(id) && Hex(hash)
    ensures Legal((if |id| > 40 then id[..40] else id) + ":" + hash)
  {
    var head := if |id| > 40 then id[..40] else id;
    var r := head + ":" + hash;
    assert r[0] == id[0] && |r| <= 57;
    forall i | 0 <= i < |r| ensures Kept(r[i]) || r[i] == ':' {
      if i < |head| { assert r[i] == id[i]; } else if i > |head| { assert r[i] == hash[i - |head| - 1]; }
    }
  }

  lemma RenamedShape(e: Item, digests: Digests)
    requires EventShape(e) && Hex(digests.body(e))
    ensures EventShape(Renamed(e, digests))
  {
    hide Legal, Opaque, Hex;
    RenamedLegal(TextAt(e, Id), digests.body(e));
  }

  lemma EventFits(e: Item, asOf: int, assets: set<string>)
    requires EventShape(e) && TimeAt(e, At) <= asOf + LEEWAY && RefersTo(e) in assets
    ensures ValidEvent(e, asOf, assets)
  {
    hide Legal, Opaque;
  }

  lemma AssetFits(a: Item, asOf: int)
    requires AssetShape(a) && TimeAt(a, ObservedAt) <= asOf + LEEWAY
    ensures ValidAsset(a, asOf)
  {
    hide Legal, Weak;
  }

  // ---- the store holds only such events and assets -------------------------------------------------

  ghost predicate Shaped(st: Store) {
    && Conservation.Indexed(st) && Conservation.DistinctIds(st.assets)
    && (forall e :: e in st.events ==> EventShape(e)) && (forall a :: a in st.assets ==> AssetShape(a))
  }

  lemma AddShaped(k: RecordKind, st: Store, report: Report, record: Item, digests: Digests)
    requires Shaped(st) && GoodRecord(k, record) && Spelled(digests)
    ensures Shaped(AddRecord(k, st, report, record, digests).0)
  {
    hide GoodRecord, EventShape, AssetShape, Conservation.Indexed, Put, AssetOf, EventOf, TextAt, Renamed;
    if k.Inventory? {
      InventoryShape(record);
      PutIds(st.assets, AssetOf(record));
      SameIndex(st, Put(st.assets, AssetOf(record)));
    } else {
      if k.LoginLog? { LoginShape(record); } else { FileShape(record); }
      var event := EventOf(k, record);
      RenamedShape(event, digests);
      if TextAt(event, Id) !in st.seen {
        PushIndexed(st, event);
      } else if TextAt(Renamed(event, digests), Id) !in st.seen {
        PushIndexed(st, Renamed(event, digests));
      }
    }
  }

  lemma SameIndex(st: Store, assets: seq<Item>)
    requires Conservation.Indexed(st)
    ensures Conservation.Indexed(st.(assets := assets))
  {
  }

  lemma {:induction false} AbsorbShaped(k: RecordKind, st: Store, report: Report, records: seq<Item>, n: nat,
                                        digests: Digests)
    requires n <= |records| && Shaped(st) && Spelled(digests) && forall r :: r in records ==> GoodRecord(k, r)
    ensures Shaped(Absorb(k, st, report, records, n, digests).0)
  {
    hide Shaped, GoodRecord, Spelled, AddRecord;
    if n > 0 {
      AbsorbShaped(k, st, report, records, n - 1, digests);
      var (st', report') := Absorb(k, st, report, records, n - 1, digests);
      AddShaped(k, st', report', records[n - 1], digests);
    }
  }

  lemma {:induction false} BuildShaped(feeds: seq<Feed>, n: nat, digests: Digests, maxRows: nat)
    requires n <= |feeds| && Builds(feeds, n, digests, maxRows).Ok? && WellTypedFeeds(feeds) && Spelled(digests)
    ensures Shaped(Builds(feeds, n, digests, maxRows).value.store)
  {
    hide Absorb, Reads, Records, Spelled, WellTyped, GoodRecord;
    if n > 0 {
      hide Shaped;
      BuildShaped(feeds, n - 1, digests, maxRows);
      var f, b := feeds[n - 1], Builds(feeds, n - 1, digests, maxRows).value;
      ReadsGiveRecords(f.kind, f.lines, |f.lines|, b.names, digests, maxRows);
      var r := Reads(f.kind, f.lines, |f.lines|, b.names, digests, maxRows).value;
      forall record | record in r.records ensures GoodRecord(f.kind, record) {
        var l := RecordFrom(f.kind, f.lines, |f.lines|, digests, record);
        AcceptedGood(f.kind, l, digests);
      }
      AbsorbShaped(f.kind, b.store, r.report, r.records, |r.records|, digests);
    }
  }

  // ---- the snapshot ------------------------------------------------------------------------------

  ghost predicate ReadyAssets(assets: seq<Item>, stamp: int) {
    && Conservation.DistinctIds(assets)
    && forall a :: a in assets ==> AssetShape(a) && TimeAt(a, ObservedAt) <= stamp
  }

  ghost predicate ReadyEvents(events: seq<Item>, known: set<string>, stamp: int) {
    && Conservation.DistinctIds(events)
    && forall e :: e in events ==> EventShape(e) && TimeAt(e, At) <= stamp && RefersTo(e) in known
  }

  lemma AssetName(item: Item, asOf: int)
    requires ValidAsset(item, asOf)
    ensures AsAsset(item, asOf).id == TextAt(item, Id)
  {
    hide Legal, Weak;
  }

  lemma AssetsTaken(items: seq<Item>, asOf: int)
    requires ReadyAssets(items, asOf)
    ensures Assets(items, |items|, asOf).Some?
    ensures AssetIds(Assets(items, |items|, asOf).value) == IdsOf(items)
  {
    hide Assets, ValidAsset, AsAsset, AssetShape, TextAt, TimeAt;
    forall i | 0 <= i < |items| ensures ValidAsset(items[i], asOf) {
      assert items[i] in items;
      AssetFits(items[i], asOf);
    }
    var r := Converted(items, asOf);
    forall i | 0 <= i < |items| ensures Yields(items[i], asOf, r[i]) && r[i].id == TextAt(items[i], Id) {
      AssetName(items[i], asOf);
    }
    AssetsComplete(items, |items|, asOf, r);
    SameIds(items, r);
  }

  lemma SameIds(items: seq<Item>, r: seq<Asset>)
    requires |items| == |r| && forall i :: 0 <= i < |items| ==> r[i].id == TextAt(items[i], Id)
    ensures AssetIds(r) == IdsOf(items)
  {
    hide TextAt;
    forall id | id in AssetIds(r) ensures id in IdsOf(items) {
      var i :| 0 <= i < |r| && r[i].id == id;
      assert items[i] in items;
    }
    forall id | id in IdsOf(items) ensures id in AssetIds(r) {
      var i :| 0 <= i < |items| && TextAt(items[i], Id) == id;
      assert r[i] in r;
    }
  }

  lemma EventName(e: Item, asOf: int, assets: set<string>, key: Keyed)
    requires ValidEvent(e, asOf, assets)
    ensures AsEvent(e, asOf, assets, key).id == TextAt(e, Id)
  {
    hide Legal, Opaque;
  }

  lemma EventsTaken(items: seq<Item>, asOf: int, known: set<string>, key: Keyed)
    requires ReadyEvents(items, known, asOf)
    ensures Events(items, |items|, asOf, known, key).Some?
  {
    hide Events, ValidEvent, AsEvent, EventShape, TextAt, TimeAt, RefersTo;
    forall x | x in items ensures ValidEvent(x, asOf, known) && AsEvent(x, asOf, known, key).id == TextAt(x, Id) {
      EventFits(x, asOf, known);
      EventName(x, asOf, known, key);
    }
    forall x, y | x in items && y in items && TextAt(x, Id) == TextAt(y, Id) ensures x == y {
      var i :| 0 <= i < |items| && items[i] == x;
      var j :| 0 <= j < |items| && items[j] == y;
    }
    EventsExactly(items, |items|, asOf, known, key);
    assert items[..|items|] == items;
  }

  lemma SortedAssetsReady(assets: seq<Item>, stamp: int)
    requires ReadyAssets(assets, stamp)
    ensures ReadyAssets(Sort(Importer.BY_NAME, assets), stamp) && IdsOf(Sort(Importer.BY_NAME, assets)) == IdsOf(assets)
  {
    hide AssetShape, TimeAt, TextAt;
    var sorted := Sort(Importer.BY_NAME, assets);
    SortPermutes(Importer.BY_NAME, assets);
    forall i, j | 0 <= i < j < |sorted| ensures TextAt(sorted[i], Id) != TextAt(sorted[j], Id) {
      if TextAt(sorted[i], Id) == TextAt(sorted[j], Id) { SameKeyTwice(Importer.BY_NAME, sorted, assets, i, j); }
    }
  }

  lemma SortedEventsReady(events: seq<Item>, known: set<string>, stamp: int)
    requires ReadyEvents(events, known, stamp)
    ensures ReadyEvents(Sort(BY_EVENT, events), known, stamp)
  {
    hide EventShape, TimeAt, TextAt, RefersTo;
    SortedDistinct(events);
    SameMembers(events);
  }

  lemma {:induction false} NewestIsLatest(items: seq<Item>, name: FieldName, n: nat, start: Option<int>)
    requires n <= |items|
    ensures var t := Newest(items, name, n, start);
            && (t.None? <==> n == 0 && start.None?)
            && (t.Some? ==> (start.Some? ==> start.value <= t.value) &&
                            forall i :: 0 <= i < n ==> TimeAt(items[i], name) <= t.value)
            && (t.Some? ==> t == start || exists i :: 0 <= i < n && TimeAt(items[i], name) == t.value)
  {
    hide TimeAt;
    if n > 0 { NewestIsLatest(items, name, n - 1, start); }
  }

  lemma {:induction false} ShadowsCover(events: seq<Item>, n: nat, known: set<string>)
    requires n <= |events|
    ensures forall i :: 0 <= i < n ==> RefersTo(events[i]) in known || RefersTo(events[i]) in Shadows(events, n, known)
    ensures forall id :: id in Shadows(events, n, known) ==>
              id !in known && exists i :: 0 <= i < n && RefersTo(events[i]) == id
    ensures NoDuplicates(Shadows(events, n, known))
  {
    hide RefersTo;
    if n > 0 { ShadowsCover(events, n - 1, known); }
  }

  lemma ShadowShape(id: string, stamp: int)
    requires Legal(id)
    ensures AssetShape(ShadowAsset(id, stamp)) && TimeAt(ShadowAsset(id, stamp), ObservedAt) == stamp
    ensures TextAt(ShadowAsset(id, stamp), Id) == id
  {
    hide Legal;
    assert ShadowAsset(id, stamp).Keys == ASSET_KEYS;
  }

  lemma RefersLegal(e: Item)
    requires EventShape(e)
    ensures Legal(RefersTo(e))
  {
    hide Legal, Opaque;
  }

  /** Recording unknown assets keeps the inventory ready and covers every event. */
  lemma WithShadows(assets: seq<Item>, events: seq<Item>, stamp: int)
    requires ReadyAssets(assets, stamp) && forall e :: e in events ==> EventShape(e)
    ensures var all := assets + ShadowAssets(Shadows(events, |events|, IdsOf(assets)), stamp);
            ReadyAssets(all, stamp) && forall e :: e in events ==> RefersTo(e) in IdsOf(all)
  {
    hide EventShape, AssetShape, TimeAt, TextAt, RefersTo, ShadowAsset, Legal, Shadows;
    var shadow := Shadows(events, |events|, IdsOf(assets));
    var extra := ShadowAssets(shadow, stamp);
    ShadowsCover(events, |events|, IdsOf(assets));
    forall i | 0 <= i < |shadow|
      ensures AssetShape(extra[i]) && TimeAt(extra[i], ObservedAt) == stamp && TextAt(extra[i], Id) == shadow[i]
    {
      assert shadow[i] in shadow;
      var k :| 0 <= k < |events| && RefersTo(events[k]) == shadow[i];
      assert events[k] in events;
      RefersLegal(events[k]);
      ShadowShape(shadow[i], stamp);
    }
    AppendReady(assets, extra, shadow, stamp);
    forall e | e in events ensures RefersTo(e) in IdsOf(assets + extra) {
      var i :| 0 <= i < |events| && events[i] == e;
      if RefersTo(e) in shadow {
        var k :| 0 <= k < |shadow| && shadow[k] == RefersTo(e);
        assert extra[k] in assets + extra;
      } else {
        assert RefersTo(e) in IdsOf(assets);
      }
    }
  }

  lemma AppendReady(assets: seq<Item>, extra: seq<Item>, ids: seq<string>, stamp: int)
    requires ReadyAssets(assets, stamp) && |extra| == |ids| && NoDuplicates(ids)
    requires forall i :: 0 <= i < |ids| ==>
               && AssetShape(extra[i]) && TimeAt(extra[i], ObservedAt) == stamp && TextAt(extra[i], Id) == ids[i]
               && ids[i] !in IdsOf(assets)
    ensures ReadyAssets(assets + extra, stamp)
  {
    hide AssetShape, TimeAt, TextAt;
    var all := assets + extra;
    forall i, j | 0 <= i < j < |all| ensures TextAt(all[i], Id) != TextAt(all[j], Id) {
      if i < |assets| <= j {
        assert all[i] in assets && TextAt(all[i], Id) in IdsOf(assets);
        assert all[j] == extra[j - |assets|];
      } else if |assets| <= i {
        assert all[i] == extra[i - |assets|] && all[j] == extra[j - |assets|];
      }
    }
  }

  /** Sources a snapshot may name, and files small enough to count. */
  ghost predicate NamedSources(feeds: seq<Feed>) {
    && 1 <= |feeds| <= MAX_PROVENANCE
    && forall f :: f in feeds ==> ValidSource(Source(f.name, f.sha256, 0, 0)) && |f.lines| <= 1000000000
  }

  /** The time a snapshot takes when none is given. */
  function StampOf(events: seq<Item>, assets: seq<Item>, now: int): int {
    var newest := Newest(assets, ObservedAt, |assets|, Newest(events, At, |events|, None));
    if newest.Some? then newest.value else now
  }

  lemma StampCovers(events: seq<Item>, assets: seq<Item>, now: int)
    requires forall e :: e in events ==> TimeAt(e, At) <= now + LEEWAY
    requires forall a :: a in assets ==> TimeAt(a, ObservedAt) <= now + LEEWAY
    ensures StampOf(events, assets, now) <= now + LEEWAY
    ensures forall e :: e in events ==> TimeAt(e, At) <= StampOf(events, assets, now)
    ensures forall a :: a in assets ==> TimeAt(a, ObservedAt) <= StampOf(events, assets, now)
  {
    hide TimeAt, Newest;
    var latest := Newest(events, At, |events|, None);
    NewestIsLatest(events, At, |events|, None);
    NewestIsLatest(assets, ObservedAt, |assets|, latest);
    forall e | e in events ensures TimeAt(e, At) <= StampOf(events, assets, now) {
      var i :| 0 <= i < |events| && events[i] == e;
      assert TimeAt(events[i], At) <= latest.value;
    }
    forall a | a in assets ensures TimeAt(a, ObservedAt) <= StampOf(events, assets, now) {
      var i :| 0 <= i < |assets| && assets[i] == a;
      assert TimeAt(assets[i], ObservedAt) <= StampOf(events, assets, now);
    }
    if latest.Some? {
      var i :| 0 <= i < |events| && TimeAt(events[i], At) == latest.value;
      assert events[i] in events;
    }
    var newest := Newest(assets, ObservedAt, |assets|, latest);
    if newest.Some? && newest != latest {
      var i :| 0 <= i < |assets| && TimeAt(assets[i], ObservedAt) == newest.value;
      assert assets[i] in assets;
    }
  }

  lemma StoredDistinct(st: Store)
    requires Shaped(st)
    ensures Conservation.DistinctIds(st.events) && Conservation.DistinctIds(st.assets)
  {
  }

  lemma InTimeReady(st: Store, now: int, events: seq<Item>, assets: seq<Item>)
    requires Shaped(st) && events == Filter(Within(At, now + LEEWAY), st.events)
    requires assets == Filter(Within(ObservedAt, now + LEEWAY), st.assets)
    ensures StampOf(events, assets, now) <= now + LEEWAY && ReadyAssets(assets, StampOf(events, assets, now))
    ensures Conservation.DistinctIds(events)
    ensures forall e :: e in events ==> EventShape(e) && TimeAt(e, At) <= StampOf(events, assets, now)
  {
    hide EventShape, AssetShape, TimeAt, TextAt, StampOf, Conservation.Indexed, Conservation.DistinctIds;
    StoredDistinct(st);
    FilterKeepsDistinct(Within(At, now + LEEWAY), st.events);
    FilterKeepsDistinct(Within(ObservedAt, now + LEEWAY), st.assets);
    StampCovers(events, assets, now);
  }

  /** The snapshot's assets and events before sorting. */
  lemma FinishedReady(st: Store, policy: Policy, now: int, events: seq<Item>, assets: seq<Item>)
    requires Shaped(st) && events == Filter(Within(At, now + LEEWAY), st.events)
    requires assets == Filter(Within(ObservedAt, now + LEEWAY), st.assets)
    ensures var stamp := StampOf(events, assets, now);
            var shadow := ShadowAssets(Shadows(events, |events|, IdsOf(assets)), stamp);
            var all := if policy.RecordUnknown? then assets + shadow else assets;
            var kept := if policy.SkipUnknown? then Filter(Known(IdsOf(assets)), events) else events;
            && stamp <= now + LEEWAY && ReadyAssets(all, stamp) && ReadyEvents(kept, IdsOf(all), stamp)
  {
    hide EventShape, TimeAt, RefersTo, StampOf, Shadows, ShadowAssets, Shaped, IdsOf, ReadyAssets,
         Conservation.DistinctIds;
    InTimeReady(st, now, events, assets);
    if policy.RecordUnknown? {
      WithShadows(assets, events, StampOf(events, assets, now));
    } else {
      FilterKeepsDistinct(Known(IdsOf(assets)), events);
    }
  }

  lemma ReadyAccepted(d: Document, key: Keyed, now: int, maxAssets: nat, maxEvents: nat)
    requires ReadyAssets(d.assets, d.asOf) && ReadyEvents(d.events, IdsOf(d.assets), d.asOf)
    requires ValidHeader(d, now, maxAssets, maxEvents)
    ensures Normalized(d, key, now, maxAssets, maxEvents).Some?
  {
    hide ReadyAssets, ReadyEvents, Assets, Events, ValidHeader;
    AssetsTaken(d.assets, d.asOf);
    EventsTaken(d.events, d.asOf, IdsOf(d.assets), key);
  }

  /** Whatever the importer returns, the normalizer accepts: identifiers are legal and
      unique, references resolve, times lie within bounds, key sets are exact and row
      counts are in range. The snapshot takes its own time, the normalizer's clock is not
      behind, profiles are well typed, and the caps hold. */
  lemma ImportsAreAccepted(feeds: seq<Feed>, policy: Policy, now: int, digests: Digests, maxRows: nat,
                           key: Keyed, later: int, maxAssets: nat, maxEvents: nat)
    requires Imported(feeds, policy, now, None, digests, maxRows).Ok?
    requires WellTypedFeeds(feeds) && Spelled(digests) && NamedSources(feeds) && now <= later
    requires var d := Imported(feeds, policy, now, None, digests, maxRows).value.document;
             |d.assets| <= maxAssets && |d.events| <= maxEvents
    ensures var d := Imported(feeds, policy, now, None, digests, maxRows).value.document;
            Normalized(d, key, later, maxAssets, maxEvents).Some?
  {
    hide Imported, WellTypedFeeds, Spelled, ReadyAssets, ReadyEvents, Shaped, ValidSource, Builds, Normalized;
    var snapshot := Imported(feeds, policy, now, None, digests, maxRows).value;
    var d := snapshot.document;
    DocumentReady(feeds, policy, now, digests, maxRows);
    RowsAddUp(feeds, policy, now, None, digests, maxRows);
    assert forall i :: 0 <= i < |feeds| ==> ValidSource(d.provenance[i]) by {
      forall i | 0 <= i < |feeds| ensures ValidSource(d.provenance[i]) {
        assert feeds[i] in feeds;
        CountsValid(feeds[i], snapshot.reports[i]);
      }
    }
    ReadyAccepted(d, key, later, maxAssets, maxEvents);
  }

  lemma CountsValid(f: Feed, r: Report)
    requires ValidSource(Source(f.name, f.sha256, 0, 0)) && 0 <= r.imported <= r.read <= 1000000000
    ensures ValidSource(Source(f.name, f.sha256, r.read, r.imported))
  {
  }

  lemma DocumentReady(feeds: seq<Feed>, policy: Policy, now: int, digests: Digests, maxRows: nat)
    requires Imported(feeds, policy, now, None, digests, maxRows).Ok? && WellTypedFeeds(feeds) && Spelled(digests)
    ensures var s := Imported(feeds, policy, now, None, digests, maxRows).value;
            var d := s.document;
            && d.asOf <= now + LEEWAY && d.assets != [] && ReadyAssets(d.assets, d.asOf)
            && ReadyEvents(d.events, IdsOf(d.assets), d.asOf)
            && |s.reports| == |feeds| == |d.provenance|
            && forall i :: 0 <= i < |feeds| ==>
                 d.provenance[i] == Source(feeds[i].name, feeds[i].sha256, s.reports[i].read, s.reports[i].imported)
  {
    hide Builds, WellTypedFeeds, Spelled, ReadyAssets, ReadyEvents, Shaped, Filter, Sort, Newest, Shadows, IdsOf;
    OneReportEach(feeds, |feeds|, digests, maxRows);
    BuildShaped(feeds, |feeds|, digests, maxRows);
    var st := Builds(feeds, |feeds|, digests, maxRows).value.store;
    var events := Filter(Within(At, now + LEEWAY), st.events);
    var assets := Filter(Within(ObservedAt, now + LEEWAY), st.assets);
    FinishedReady(st, policy, now, events, assets);
    var stamp := StampOf(events, assets, now);
    var all := if policy.RecordUnknown? then assets + ShadowAssets(Shadows(events, |events|, IdsOf(assets)), stamp)
               else assets;
    var kept := if policy.SkipUnknown? then Filter(Known(IdsOf(assets)), events) else events;
    SortedAssetsReady(all, stamp);
    SortedEventsReady(kept, IdsOf(all), stamp);
  }
}
