/** Which documents the boundary check accepts, told by what their dictionaries spell: exactly
    the spellings of good assets and events, which it returns with pseudonyms
    (aisecure/schema.py, `normalize`). */
module Acceptance {
  import opened Common
  import opened Ordering
  import opened Names
  import opened Normalizer
  import opened Snapshots
  import opened Canonical

  // ---- one asset, one event ------------------------------------------------------------------

  /** One to 80 letters, digits, underscores, dots, colons and dashes, the first a letter or
      digit. */
  predicate WellSpelled(s: string) {
    && 1 <= |s| <= 80 && s[0] !in {'_', '.', ':', '-'}
    && forall i :: 0 <= i < |s| ==>
         'A' <= s[i] <= 'Z' || 'a' <= s[i] <= 'z' || '0' <= s[i] <= '9' || s[i] in {'_', '.', ':', '-'}
  }

  /** A name of a person, a session or a file. */
  predicate Nameable(s: string) {
    1 <= |s| <= 256 && forall i :: 0 <= i < |s| ==> s[i] as int >= 32
  }

  predicate GoodWeakness(v: Vulnerability) {
    WellSpelled(v.reference) && (v.cvss.Some? ==> 0.0 <= v.cvss.value <= 10.0)
  }

  predicate GoodAsset(a: Asset, asOf: int) {
    && WellSpelled(a.id) && a.kind in {"vpn", "server", "saas", "endpoint", "unknown"}
    && a.patch in {"pending", "applied", "unknown", "not_applicable"} && a.observedAt <= asOf + 300
    && (a.vulnerability.Some? ==> GoodWeakness(a.vulnerability.value))
  }

  /** An event that names people, sessions and files openly. */
  predicate GoodEvent(e: Event, asOf: int, assets: set<string>) {
    && WellSpelled(e.id) && e.at <= asOf + 300 && Nameable(e.actor) && Nameable(e.session)
    && match e
       case Login(_, _, _, _, gateway, _, _, _, _) => WellSpelled(gateway) && gateway in assets
       case FileAccess(_, _, _, _, asset, file, _, bytes) =>
         && WellSpelled(asset) && asset in assets && Nameable(file)
         && (bytes.Some? ==> 0 <= bytes.value <= 1000000000000)
  }

  /** The event under pseudonyms. */
  function Hidden(e: Event, key: Keyed): Event {
    match e
    case Login(id, at, actor, session, gateway, success, privileged, trusted, approved) =>
      Login(id, at, "actor-" + key("actor", actor), "session-" + key("session", session), gateway, success, privileged,
            trusted, approved)
    case FileAccess(id, at, actor, session, asset, file, sensitive, bytes) =>
      FileAccess(id, at, "actor-" + key("actor", actor), "session-" + key("session", session), asset,
                 "file-" + key("file", file), sensitive, bytes)
  }

  /** The dictionary spells this asset; a score may be written as a whole number. */
  predicate SpellsAsset(item: Item, a: Asset) {
    Weakness in item && item[Weakness := Decimal(item[Weakness])] == ItemOfAsset(a)
  }

  lemma LegalIs(s: string)
    ensures Legal(s) <==> WellSpelled(s)
  {
  }

  lemma WeakIs(v: Value)
    ensures Weak(v) ==> (AsWeakness(v).Some? ==> GoodWeakness(AsWeakness(v).value))
    ensures forall w: Option<Vulnerability> ::
              (w.Some? ==> GoodWeakness(w.value)) && Decimal(v) == ItemOfWeakness(w) ==> Weak(v) && AsWeakness(v) == w
  {
    hide Legal, WellSpelled;
    if Weak(v) && v.Object? { LegalIs(v.fields[Reference].s); }
    forall w: Option<Vulnerability> | (w.Some? ==> GoodWeakness(w.value)) && Decimal(v) == ItemOfWeakness(w)
      ensures Weak(v) && AsWeakness(v) == w
    {
      if w.Some? {
        LegalIs(w.value.reference);
        var spelled := ItemOfWeakness(w).fields;
        assert spelled.Keys == {Reference, Cvss, KnownExploited};
        assert v.Object? && v.fields.Keys == spelled.Keys;
        assert v.fields[Reference] == spelled[Reference] && v.fields[KnownExploited] == spelled[KnownExploited];
      }
    }
  }

  lemma AssetTaken(item: Item, asOf: int)
    requires ValidAsset(item, asOf)
    ensures GoodAsset(AsAsset(item, asOf), asOf) && SpellsAsset(item, AsAsset(item, asOf))
  {
    hide Legal, WellSpelled, Weak, AsWeakness, GoodWeakness, ItemOfAsset, Decimal;
    LegalIs(item[Id].s);
    WeakIs(item[Weakness]);
    AssetRoundTrip(item, asOf);
  }

  lemma FieldSpelled(item: Item, a: Asset, name: FieldName)
    requires SpellsAsset(item, a) && name in ItemOfAsset(a)
    ensures name in item && (if name == Weakness then Decimal(item[name]) else item[name]) == ItemOfAsset(a)[name]
  {
    hide ItemOfAsset, Decimal;
  }

  lemma NamesSpelled(item: Item, a: Asset)
    requires SpellsAsset(item, a)
    ensures item.Keys == ItemOfAsset(a).Keys == ASSET_KEYS
  {
    hide Decimal;
    assert item.Keys == item[Weakness := Decimal(item[Weakness])].Keys;
  }

  lemma FieldsOfAsset(a: Asset)
    ensures ItemOfAsset(a).Keys == ASSET_KEYS && ItemOfAsset(a)[Id] == Text(a.id)
    ensures ItemOfAsset(a)[AssetKind] == Text(a.kind) && ItemOfAsset(a)[PatchState] == Text(a.patch)
    ensures ItemOfAsset(a)[ObservedAt] == Time(a.observedAt) && ItemOfAsset(a)[InternetExposed] == Nullified(a.exposed)
    ensures ItemOfAsset(a)[PrivilegedPath] == Nullified(a.privilegedPath)
    ensures ItemOfAsset(a)[SensitivePath] == Nullified(a.sensitivePath)
    ensures ItemOfAsset(a)[Weakness] == ItemOfWeakness(a.vulnerability)
  {
    hide ItemOfWeakness, Nullified;
  }

  lemma FieldsSpelled(item: Item, a: Asset)
    requires SpellsAsset(item, a)
    ensures item.Keys == ASSET_KEYS && item[Id] == Text(a.id) && item[AssetKind] == Text(a.kind)
    ensures item[PatchState] == Text(a.patch) && item[ObservedAt] == Time(a.observedAt)
    ensures item[InternetExposed] == Nullified(a.exposed) && item[PrivilegedPath] == Nullified(a.privilegedPath)
    ensures item[SensitivePath] == Nullified(a.sensitivePath)
    ensures Decimal(item[Weakness]) == ItemOfWeakness(a.vulnerability)
  {
    hide ItemOfWeakness, Decimal, SpellsAsset, ItemOfAsset, Nullified;
    NamesSpelled(item, a);
    FieldsOfAsset(a);
    forall name | name in ASSET_KEYS
      ensures (if name == Weakness then Decimal(item[name]) else item[name]) == ItemOfAsset(a)[name]
    {
      FieldSpelled(item, a, name);
    }
  }

  lemma AssetSpelled(item: Item, a: Asset, asOf: int)
    requires GoodAsset(a, asOf) && SpellsAsset(item, a)
    ensures ValidAsset(item, asOf) && AsAsset(item, asOf) == a
  {
    hide Legal, WellSpelled, Weak, AsWeakness, GoodWeakness, ItemOfWeakness, Decimal, SpellsAsset, ItemOfAsset;
    FieldsSpelled(item, a);
    LegalIs(a.id);
    WeakIs(item[Weakness]);
  }

  /** An asset is accepted exactly if its dictionary spells a good one, and it becomes that
      asset. */
  lemma AssetAcceptedExactly(item: Item, asOf: int)
    ensures ValidAsset(item, asOf) <==> exists a :: GoodAsset(a, asOf) && SpellsAsset(item, a)
    ensures forall a :: GoodAsset(a, asOf) && SpellsAsset(item, a) ==>
              ValidAsset(item, asOf) && AsAsset(item, asOf) == a
  {
    hide ValidAsset, AsAsset, GoodAsset, SpellsAsset;
    if ValidAsset(item, asOf) { AssetTaken(item, asOf); }
    forall a | GoodAsset(a, asOf) && SpellsAsset(item, a) ensures ValidAsset(item, asOf) && AsAsset(item, asOf) == a {
      AssetSpelled(item, a, asOf);
    }
  }

  function Openly(item: Item): Event
    requires Type in item && (if item[Type] == Text("login") then item.Keys == LOGIN_KEYS else item.Keys == FILE_KEYS)
    requires item[Id].Text? && item[At].Time? && item[Actor].Text? && item[Session].Text?
    requires if item[Type] == Text("login") then item[GatewayId].Text? && item[Success].Flag?
             else item[AssetId].Text? && item[FileId].Text?
  {
    if item[Type] == Text("login") then
      Login(item[Id].s, item[At].at, item[Actor].s, item[Session].s, item[GatewayId].s, item[Success].b,
            AsFlag(item[Privileged]), AsFlag(item[DeviceTrusted]), AsFlag(item[Approved]))
    else
      FileAccess(item[Id].s, item[At].at, item[Actor].s, item[Session].s, item[AssetId].s, item[FileId].s,
                 AsFlag(item[Sensitive]), if item[BytesRead].Count? then Some(item[BytesRead].n) else None)
  }

  lemma LoginTaken(item: Item, asOf: int, assets: set<string>)
    requires ValidEvent(item, asOf, assets) && item[Type] == Text("login")
    ensures GoodEvent(Openly(item), asOf, assets) && item == ItemOfEvent(Openly(item))
  {
    hide Legal, WellSpelled, ValidFile;
    LegalIs(item[Id].s);
    LegalIs(item[GatewayId].s);
    assert ItemOfEvent(Openly(item)).Keys == LOGIN_KEYS;
  }

  lemma FileTaken(item: Item, asOf: int, assets: set<string>)
    requires ValidEvent(item, asOf, assets) && item[Type] != Text("login")
    ensures GoodEvent(Openly(item), asOf, assets) && item == ItemOfEvent(Openly(item))
  {
    hide Legal, WellSpelled, ValidLogin;
    LegalIs(item[Id].s);
    LegalIs(item[AssetId].s);
    assert ItemOfEvent(Openly(item)).Keys == FILE_KEYS;
  }

  lemma LoginSpelled(e: Event, asOf: int, assets: set<string>, key: Keyed)
    requires GoodEvent(e, asOf, assets) && e.Login?
    ensures ValidEvent(ItemOfEvent(e), asOf, assets) && AsEvent(ItemOfEvent(e), asOf, assets, key) == Hidden(e, key)
  {
    hide Legal, WellSpelled, ValidFile;
    LegalIs(e.id);
    LegalIs(e.gateway);
    assert ItemOfEvent(e).Keys == LOGIN_KEYS;
  }

  lemma FileSpelled(e: Event, asOf: int, assets: set<string>, key: Keyed)
    requires GoodEvent(e, asOf, assets) && e.FileAccess?
    ensures ValidEvent(ItemOfEvent(e), asOf, assets) && AsEvent(ItemOfEvent(e), asOf, assets, key) == Hidden(e, key)
  {
    hide Legal, WellSpelled, ValidLogin;
    LegalIs(e.id);
    LegalIs(e.asset);
    assert ItemOfEvent(e).Keys == FILE_KEYS;
  }

  /** An event is accepted exactly if its dictionary spells a good one, and it becomes that
      event under pseudonyms. */
  lemma EventAcceptedExactly(item: Item, asOf: int, assets: set<string>, key: Keyed)
    ensures ValidEvent(item, asOf, assets) <==> exists e :: GoodEvent(e, asOf, assets) && item == ItemOfEvent(e)
    ensures forall e :: GoodEvent(e, asOf, assets) && item == ItemOfEvent(e) ==>
              ValidEvent(item, asOf, assets) && AsEvent(item, asOf, assets, key) == Hidden(e, key)
  {
    hide AsEvent, GoodEvent, ItemOfEvent, Legal, Opaque, Hidden;
    if ValidEvent(item, asOf, assets) {
      if item[Type] == Text("login") { LoginTaken(item, asOf, assets); } else { FileTaken(item, asOf, assets); }
    }
    hide ValidEvent;
    forall e | GoodEvent(e, asOf, assets) && item == ItemOfEvent(e)
      ensures ValidEvent(item, asOf, assets) && AsEvent(item, asOf, assets, key) == Hidden(e, key)
    {
      if e.Login? { LoginSpelled(e, asOf, assets, key); } else { FileSpelled(e, asOf, assets, key); }
    }
  }

  // ---- the whole document ---------------------------------------------------------------------

  predicate GoodSource(p: Source) {
    && 1 <= |p.name| <= 120 && (forall c :: c in p.name ==> c as int >= 32 && c != '/' && c != '\\')
    && |p.sha256| == 64 && (forall c :: c in p.sha256 ==> '0' <= c <= '9' || 'a' <= c <= 'f')
    && 0 <= p.rowsRead <= 1000000000 && 0 <= p.rowsImported <= 1000000000
  }

  predicate GoodHeader(d: Document, now: int, maxAssets: nat, maxEvents: nat) {
    && d.asOf <= now + 300 && 1 <= |d.assets| <= maxAssets && |d.events| <= maxEvents
    && |d.provenance| <= 64 && forall p :: p in d.provenance ==> GoodSource(p)
  }

  lemma HeaderIs(d: Document, now: int, maxAssets: nat, maxEvents: nat)
    ensures ValidHeader(d, now, maxAssets, maxEvents) <==> GoodHeader(d, now, maxAssets, maxEvents)
  {
    forall p ensures ValidSource(p) <==> GoodSource(p) { SourceIs(p); }
    hide ValidSource, GoodSource;
    assert forall i :: 0 <= i < |d.provenance| ==> d.provenance[i] in d.provenance;
  }

  lemma SourceIs(p: Source)
    ensures ValidSource(p) <==> GoodSource(p)
  {
    assert forall i :: 0 <= i < |p.name| ==> p.name[i] in p.name;
    assert forall i :: 0 <= i < |p.sha256| ==> p.sha256[i] in p.sha256;
  }

  /** The items spell these assets one by one, all good and no two of one identifier. */
  ghost predicate GoodAssets(items: seq<Item>, asOf: int, assets: seq<Asset>) {
    && |items| == |assets|
    && (forall i :: 0 <= i < |items| ==> GoodAsset(assets[i], asOf) && SpellsAsset(items[i], assets[i]))
    && (forall i, j :: 0 <= i < j < |assets| ==> assets[i].id != assets[j].id)
  }

  /** The items spell good events, and items of one identifier one event. */
  ghost predicate GoodEvents(items: seq<Item>, asOf: int, known: set<string>, key: Keyed) {
    && (forall x :: x in items ==> exists e :: GoodEvent(e, asOf, known) && x == ItemOfEvent(e))
    && (forall d, e | GoodEvent(d, asOf, known) && GoodEvent(e, asOf, known) && ItemOfEvent(d) in items
                      && ItemOfEvent(e) in items :: d.id == e.id ==> Hidden(d, key) == Hidden(e, key))
  }

  lemma AssetsAre(items: seq<Item>, asOf: int)
    ensures Assets(items, |items|, asOf).Some? <==> exists assets :: GoodAssets(items, asOf, assets)
    ensures forall assets :: GoodAssets(items, asOf, assets) ==> Assets(items, |items|, asOf) == Some(assets)
  {
    hide ValidAsset, AsAsset, GoodAsset, SpellsAsset, Assets;
    if Assets(items, |items|, asOf).Some? {
      var r := Assets(items, |items|, asOf).value;
      AssetsSound(items, |items|, asOf);
      forall i | 0 <= i < |items| ensures GoodAsset(r[i], asOf) && SpellsAsset(items[i], r[i]) {
        assert Yields(items[i], asOf, r[i]);
        AssetTaken(items[i], asOf);
      }
      assert GoodAssets(items, asOf, r);
    }
    forall assets | GoodAssets(items, asOf, assets) ensures Assets(items, |items|, asOf) == Some(assets) {
      forall i | 0 <= i < |items| ensures Yields(items[i], asOf, assets[i]) {
        AssetSpelled(items[i], assets[i], asOf);
      }
      AssetsComplete(items, |items|, asOf, assets);
    }
  }

  lemma EventsAre(items: seq<Item>, asOf: int, known: set<string>, key: Keyed)
    ensures Agreeing(items, asOf, known, key) <==> GoodEvents(items, asOf, known, key)
  {
    hide ValidEvent, AsEvent, GoodEvent, ItemOfEvent, Hidden;
    forall x | x in items
      ensures ValidEvent(x, asOf, known) <==> exists e :: GoodEvent(e, asOf, known) && x == ItemOfEvent(e)
      ensures forall e :: GoodEvent(e, asOf, known) && x == ItemOfEvent(e) ==>
                ValidEvent(x, asOf, known) && AsEvent(x, asOf, known, key) == Hidden(e, key)
    {
      EventAcceptedExactly(x, asOf, known, key);
    }
    forall e ensures Hidden(e, key).id == e.id { HiddenKeepsId(e, key); }
    if Agreeing(items, asOf, known, key) {
      forall d, e | GoodEvent(d, asOf, known) && GoodEvent(e, asOf, known) && ItemOfEvent(d) in items
                    && ItemOfEvent(e) in items && d.id == e.id
        ensures Hidden(d, key) == Hidden(e, key)
      {
        assert AsEvent(ItemOfEvent(d), asOf, known, key) == Hidden(d, key);
        assert AsEvent(ItemOfEvent(e), asOf, known, key) == Hidden(e, key);
      }
    }
    if GoodEvents(items, asOf, known, key) {
      forall x, y | x in items && y in items && AsEvent(x, asOf, known, key).id == AsEvent(y, asOf, known, key).id
        ensures AsEvent(x, asOf, known, key) == AsEvent(y, asOf, known, key)
      {
        var d :| GoodEvent(d, asOf, known) && x == ItemOfEvent(d);
        var e :| GoodEvent(e, asOf, known) && y == ItemOfEvent(e);
      }
    }
  }

  lemma HiddenKeepsId(e: Event, key: Keyed)
    ensures Hidden(e, key).id == e.id
  {
  }

  /** An accepted snapshot lists its assets by identifier, and its events by time and, at the
      same time, by identifier; its time and its provenance are the document's. */
  lemma AcceptedOrder(d: Document, key: Keyed, now: int, maxAssets: nat, maxEvents: nat)
    requires Normalized(d, key, now, maxAssets, maxEvents).Some?
    ensures var r := Normalized(d, key, now, maxAssets, maxEvents).value;
            && r.asOf == d.asOf && r.provenance == d.provenance
            && (forall i, j :: 0 <= i < j < |r.assets| ==> TextLess(r.assets[i].id, r.assets[j].id))
            && (forall i, j :: 0 <= i < j < |r.events| ==>
                  || r.events[i].at < r.events[j].at
                  || (r.events[i].at == r.events[j].at && TextLess(r.events[i].id, r.events[j].id)))
  {
    hide ValidHeader, Assets, Events, Sort, Keeps, TextLess;
    NormalizeResult(d, key, now, maxAssets, maxEvents);
  }

  /** A document is accepted exactly with a good header, with items that spell good assets of
      different identifiers, and with items that spell good events on them, one event for one
      identifier. */
  lemma DocumentAcceptedExactly(d: Document, key: Keyed, now: int, maxAssets: nat, maxEvents: nat)
    ensures Normalized(d, key, now, maxAssets, maxEvents).Some? <==>
              && GoodHeader(d, now, maxAssets, maxEvents)
              && exists assets :: && GoodAssets(d.assets, d.asOf, assets)
                                  && GoodEvents(d.events, d.asOf, AssetIds(assets), key)
  {
    hide ValidHeader, GoodHeader, Assets, Events, GoodAssets, GoodEvents, Agreeing, AssetIds, Sort;
    HeaderIs(d, now, maxAssets, maxEvents);
    AssetsAre(d.assets, d.asOf);
    var r := Assets(d.assets, |d.assets|, d.asOf);
    if r.Some? {
      assert d.events[..|d.events|] == d.events;
      EventsExactly(d.events, |d.events|, d.asOf, AssetIds(r.value), key);
      EventsAre(d.events, d.asOf, AssetIds(r.value), key);
    }
  }
}
