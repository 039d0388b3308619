/** The snapshot boundary (aisecure/schema.py, `normalize`): which dictionaries are
    accepted, and what they become. Times are whole seconds; a value that parses as a
    time is a `Time`. */
module Normalizer {
  import opened Common
  import opened Ordering
  import opened Names
  import opened Snapshots

  datatype FieldName =
    | Id | Type | At | Actor | Session | GatewayId | Success | Privileged | DeviceTrusted | Approved
    | AssetId | FileId | Sensitive | BytesRead
    | AssetKind | ObservedAt | PatchState | InternetExposed | PrivilegedPath | SensitivePath | Weakness
    | Reference | Cvss | KnownExploited
    | WeaknessReference | WeaknessCvss | WeaknessExploited

  datatype Value =
    | Null | Flag(b: bool) | Count(n: int) | Ratio(x: real) | Text(s: string) | Time(at: int)
    | Object(fields: map<FieldName, Value>)

  type Item = map<FieldName, Value>

  datatype Document = Document(asOf: int, assets: seq<Item>, events: seq<Item>, provenance: seq<Source>)

  /** The keyed hash behind pseudonyms: namespace, value. */
  type Keyed = (string, string) -> string

  const MAX_PROVENANCE := 64
  const KINDS := {"vpn", "server", "saas", "endpoint", "unknown"}
  const PATCH_STATES := {"pending", "applied", "unknown", "not_applicable"}
  const ASSET_KEYS := {Id, AssetKind, InternetExposed, PrivilegedPath, SensitivePath, PatchState, ObservedAt, Weakness}
  const LOGIN_KEYS := {Id, Type, At, Actor, Session, GatewayId, Success, Privileged, DeviceTrusted, Approved}
  const FILE_KEYS := {Id, Type, At, Actor, Session, AssetId, FileId, Sensitive, BytesRead}

  // ---- fields -------------------------------------------------------------------------

  predicate Identifier(v: Value) { v.Text? && Legal(v.s) }

  predicate Nullable(v: Value) { v.Null? || v.Flag? }

  function AsFlag(v: Value): Option<bool> { if v.Flag? then Some(v.b) else None }

  predicate Printable(s: string) {
    1 <= |s| <= 256 && forall i :: 0 <= i < |s| ==> s[i] as int >= 32
  }

  /** What `pseudonym` accepts. */
  predicate Opaque(v: Value) { v.Text? && Printable(v.s) }

  predicate Score(v: Value) {
    v.Null? || (v.Ratio? && 0.0 <= v.x <= 10.0) || (v.Count? && 0 <= v.n <= 10)
  }

  function AsScore(v: Value): Option<real> {
    if v.Ratio? then Some(v.x) else if v.Count? then Some(v.n as real) else None
  }

  predicate Weak(v: Value) {
    v.Null? || (v.Object? && v.fields.Keys == {Reference, Cvss, KnownExploited}
                && Identifier(v.fields[Reference]) && Score(v.fields[Cvss]) && Nullable(v.fields[KnownExploited]))
  }

  function AsWeakness(v: Value): Option<Vulnerability>
    requires Weak(v)
  {
    if v.Null? then None
    else Some(Vulnerability(v.fields[Reference].s, AsScore(v.fields[Cvss]), AsFlag(v.fields[KnownExploited])))
  }

  // ---- one asset, one event -------------------------------------------------------------

  predicate ValidAsset(item: Item, asOf: int) {
    && item.Keys == ASSET_KEYS && Identifier(item[Id])
    && item[AssetKind].Text? && item[AssetKind].s in KINDS
    && item[PatchState].Text? && item[PatchState].s in PATCH_STATES
    && item[ObservedAt].Time? && item[ObservedAt].at <= asOf + LEEWAY && Weak(item[Weakness])
    && Nullable(item[InternetExposed]) && Nullable(item[PrivilegedPath]) && Nullable(item[SensitivePath])
  }

  function AsAsset(item: Item, asOf: int): Asset
    requires ValidAsset(item, asOf)
  {
    Asset(item[Id].s, item[AssetKind].s, item[PatchState].s, item[ObservedAt].at, AsWeakness(item[Weakness]),
          AsFlag(item[InternetExposed]), AsFlag(item[PrivilegedPath]), AsFlag(item[SensitivePath]))
  }

  predicate ValidCommon(item: Item, asOf: int) {
    && {Id, At, Actor, Session} <= item.Keys
    && item[At].Time? && item[At].at <= asOf + LEEWAY
    && Identifier(item[Id]) && Opaque(item[Actor]) && Opaque(item[Session])
  }

  predicate ValidLogin(item: Item, assets: set<string>) {
    && item.Keys == LOGIN_KEYS && Identifier(item[GatewayId]) && item[GatewayId].s in assets && item[Success].Flag?
    && Nullable(item[Privileged]) && Nullable(item[DeviceTrusted]) && Nullable(item[Approved])
  }

  predicate ValidFile(item: Item, assets: set<string>) {
    && item.Keys == FILE_KEYS && Identifier(item[AssetId]) && item[AssetId].s in assets
    && (item[BytesRead].Null? || (item[BytesRead].Count? && 0 <= item[BytesRead].n <= 1000000000000))
    && Opaque(item[FileId]) && Nullable(item[Sensitive])
  }

  predicate ValidEvent(item: Item, asOf: int, assets: set<string>) {
    && Type in item
    && (if item[Type] == Text("login") then ValidLogin(item, assets)
        else item[Type] == Text("file_access") && ValidFile(item, assets))
    && ValidCommon(item, asOf)
  }

  function AsEvent(item: Item, asOf: int, assets: set<string>, key: Keyed): Event
    requires ValidEvent(item, asOf, assets)
  {
    if item[Type] == Text("login") then
      Login(item[Id].s, item[At].at, "actor-" + key("actor", item[Actor].s),
            "session-" + key("session", item[Session].s),
            item[GatewayId].s, item[Success].b, AsFlag(item[Privileged]), AsFlag(item[DeviceTrusted]),
            AsFlag(item[Approved]))
    else
      FileAccess(item[Id].s, item[At].at, "actor-" + key("actor", item[Actor].s),
                 "session-" + key("session", item[Session].s),
                 item[AssetId].s, "file-" + key("file", item[FileId].s), AsFlag(item[Sensitive]),
                 if item[BytesRead].Count? then Some(item[BytesRead].n) else None)
  }

  // ---- the whole document ---------------------------------------------------------------

  predicate ValidLabel(s: string) {
    1 <= |s| <= 120 && forall i :: 0 <= i < |s| ==> s[i] as int >= 32 && s[i] != '/' && s[i] != '\\'
  }

  predicate ValidSource(p: Source) {
    && ValidLabel(p.name) && |p.sha256| == 64
    && (forall i :: 0 <= i < 64 ==> '0' <= p.sha256[i] <= '9' || 'a' <= p.sha256[i] <= 'f')
    && 0 <= p.rowsRead <= 1000000000 && 0 <= p.rowsImported <= 1000000000
  }

  predicate ValidHeader(doc: Document, now: int, maxAssets: nat, maxEvents: nat) {
    && doc.asOf <= now + LEEWAY && 1 <= |doc.assets| <= maxAssets && |doc.events| <= maxEvents
    && |doc.provenance| <= MAX_PROVENANCE && forall i :: 0 <= i < |doc.provenance| ==> ValidSource(doc.provenance[i])
  }

  /** The first `n` assets, or nothing if one is invalid or repeats an identifier. */
  function Assets(items: seq<Item>, n: nat, asOf: int): Option<seq<Asset>>
    requires n <= |items|
  {
    if n == 0 then Some([])
    else
      match Assets(items, n - 1, asOf)
      case None => None
      case Some(before) =>
        if ValidAsset(items[n - 1], asOf) && items[n - 1][Id].s !in AssetIds(before)
        then Some(before + [AsAsset(items[n - 1], asOf)]) else None
  }

  function Find(events: seq<Event>, id: string): (r: Option<Event>)
    ensures r.Some? ==> r.value in events && r.value.id == id
    ensures r.None? ==> forall e :: e in events ==> e.id != id
  {
    if events == [] then None
    else if events[|events| - 1].id == id then Some(events[|events| - 1])
    else Find(events[..|events| - 1], id)
  }

  /** The first `n` events without repetitions, or nothing if one is invalid or reuses
      an identifier for something else. */
  function Events(items: seq<Item>, n: nat, asOf: int, assets: set<string>, key: Keyed): Option<seq<Event>>
    requires n <= |items|
  {
    if n == 0 then Some([])
    else
      match Events(items, n - 1, asOf, assets, key)
      case None => None
      case Some(before) =>
        if !ValidEvent(items[n - 1], asOf, assets) then None
        else
          var e := AsEvent(items[n - 1], asOf, assets, key);
          match Find(before, e.id)
          case None => Some(before + [e])
          case Some(earlier) => if earlier == e then Some(before) else None
  }

  const BY_ID := (a: Asset) => Stamp(0, a.id)

  const BY_TIME := (e: Event) => Stamp(e.at, e.id)

  function Normalized(doc: Document, key: Keyed, now: int, maxAssets: nat, maxEvents: nat): Option<Normal> {
    if !ValidHeader(doc, now, maxAssets, maxEvents) then None
    else
      match Assets(doc.assets, |doc.assets|, doc.asOf)
      case None => None
      case Some(assets) =>
        match Events(doc.events, |doc.events|, doc.asOf, AssetIds(assets), key)
        case None => None
        case Some(events) => Some(Normal(doc.asOf, Sort(BY_ID, assets), Sort(BY_TIME, events), doc.provenance))
  }

  method NormalizeAssets(items: seq<Item>, asOf: int) returns (r: Option<seq<Asset>>, seen: set<string>)
    ensures r == Assets(items, |items|, asOf)
    ensures r.Some? ==> seen == AssetIds(r.value)
  {
    hide Legal, Score, Weak, Nullable, KINDS, PATCH_STATES;
    var assets: seq<Asset> := [];
    seen := {};
    var i := 0;
    while i < |items|
      invariant 0 <= i <= |items|
      invariant Assets(items, i, asOf) == Some(assets)
      invariant seen == AssetIds(assets)
    {
      if !ValidAsset(items[i], asOf) || items[i][Id].s in seen {
        AssetsRefused(items, i + 1, asOf);
        return None, {};
      }
      assets := assets + [AsAsset(items[i], asOf)];
      seen := seen + {items[i][Id].s};
      i := i + 1;
    }
    r := Some(assets);
  }

  lemma {:induction false} AssetsRefused(items: seq<Item>, n: nat, asOf: int)
    requires n <= |items| && Assets(items, n, asOf).None?
    ensures Assets(items, |items|, asOf).None?
    decreases |items| - n
  {
    hide ValidAsset, AsAsset;
    if n < |items| { AssetsRefused(items, n + 1, asOf); }
  }

  lemma {:induction false} EventsRefused(items: seq<Item>, n: nat, asOf: int, assets: set<string>, key: Keyed)
    requires n <= |items| && Events(items, n, asOf, assets, key).None?
    ensures Events(items, |items|, asOf, assets, key).None?
    decreases |items| - n
  {
    hide ValidEvent, AsEvent, Find;
    if n < |items| { EventsRefused(items, n + 1, asOf, assets, key); }
  }

  /** The dictionary `seen` holds the events kept so far under their identifiers. */
  ghost predicate Indexed(seen: map<string, Event>, events: seq<Event>) {
    forall id: string :: (if id in seen then Some(seen[id]) else None) == Find(events, id)
  }

  lemma NothingIndexed()
    ensures Indexed(map[], [])
  {
  }

  lemma IndexedPush(seen: map<string, Event>, events: seq<Event>, e: Event)
    requires Indexed(seen, events)
    ensures Indexed(seen[e.id := e], events + [e])
  {
    assert (events + [e])[..|events|] == events;
  }

  method NormalizeEvents(items: seq<Item>, asOf: int, assets: set<string>, key: Keyed) returns (r: Option<seq<Event>>)
    ensures r == Events(items, |items|, asOf, assets, key)
  {
    hide ValidEvent, AsEvent, Find;
    var events: seq<Event> := [];
    var seen: map<string, Event> := map[];
    NothingIndexed();
    var i := 0;
    while i < |items|
      invariant 0 <= i <= |items|
      invariant Events(items, i, asOf, assets, key) == Some(events)
      invariant Indexed(seen, events)
    {
      if !ValidEvent(items[i], asOf, assets) {
        EventsRefused(items, i + 1, asOf, assets, key);
        return None;
      }
      var e := AsEvent(items[i], asOf, assets, key);
      assert (if e.id in seen then Some(seen[e.id]) else None) == Find(events, e.id);
      if e.id in seen {
        if seen[e.id] != e {
          EventsRefused(items, i + 1, asOf, assets, key);
          return None;
        }
      } else {
        IndexedPush(seen, events, e);
        seen := seen[e.id := e];
        events := events + [e];
      }
      i := i + 1;
    }
    r := Some(events);
  }

  method Normalize(doc: Document, key: Keyed, now: int, maxAssets: nat, maxEvents: nat) returns (r: Option<Normal>)
    ensures r == Normalized(doc, key, now, maxAssets, maxEvents)
  {
    if !ValidHeader(doc, now, maxAssets, maxEvents) { return None; }
    var assets, seen := NormalizeAssets(doc.assets, doc.asOf);
    if assets.None? { return None; }
    var events := NormalizeEvents(doc.events, doc.asOf, seen, key);
    if events.None? { return None; }
    return Some(Normal(doc.asOf, Sort(BY_ID, assets.value), Sort(BY_TIME, events.value), doc.provenance));
  }
}
