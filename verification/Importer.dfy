/** Importing logs into a snapshot (aisecure/connectors/importer.py, `read_source` and
    `build_snapshot`). A line is the list of values its profile maps, in the profile's
    order, `Null` where nothing could be read. Hashes are parameters. */
module Importer {
  import opened Common
  import opened Ordering
  import opened Names
  import opened Normalizer
  import opened Snapshots

  datatype RecordKind = LoginLog | FileLog | Inventory

  datatype FieldKind = IdKind | TimeKind | OpaqueKind | EnumKind | FlagKind | IntKind | NumberKind

  datatype Line = Blank | Mapped(values: seq<(FieldName, Value)>)

  datatype Feed = Feed(kind: RecordKind, name: string, sha256: string, lines: seq<Line>)

  datatype Digests = Digests(name: string -> string, row: (RecordKind, Item) -> string, body: Item -> string)

  datatype Report = Report(read: int, imported: int, skipped: int)

  datatype ImportError = NoSources | TooManyRows | IdentifierClash | NoAssets

  datatype Policy = RecordUnknown | SkipUnknown

  const LOGIN_TARGETS: map<FieldName, (FieldKind, bool)> := map[
    Id := (IdKind, false), At := (TimeKind, true), Actor := (OpaqueKind, true), Session := (OpaqueKind, true),
    GatewayId := (IdKind, true), Success := (FlagKind, true), Privileged := (FlagKind, false),
    DeviceTrusted := (FlagKind, false), Approved := (FlagKind, false)]

  const FILE_TARGETS: map<FieldName, (FieldKind, bool)> := map[
    Id := (IdKind, false), At := (TimeKind, true), Actor := (OpaqueKind, true), Session := (OpaqueKind, true),
    AssetId := (IdKind, true), FileId := (OpaqueKind, true), Sensitive := (FlagKind, false),
    BytesRead := (IntKind, false)]

  const INVENTORY_TARGETS: map<FieldName, (FieldKind, bool)> := map[
    Id := (IdKind, true), AssetKind := (EnumKind, true), ObservedAt := (TimeKind, true), PatchState := (EnumKind, true),
    InternetExposed := (FlagKind, false), PrivilegedPath := (FlagKind, false), SensitivePath := (FlagKind, false),
    WeaknessReference := (IdKind, false), WeaknessCvss := (NumberKind, false), WeaknessExploited := (FlagKind, false)]

  /** For each target its kind, and whether a line without it is skipped. */
  function Targets(k: RecordKind): map<FieldName, (FieldKind, bool)> {
    match k
    case LoginLog => LOGIN_TARGETS
    case FileLog => FILE_TARGETS
    case Inventory => INVENTORY_TARGETS
  }

  // ---- one line ---------------------------------------------------------------------------

  function Digits(n: nat): string {
    if n < 10 then [('0' as int + n) as char] else Digits(n / 10) + Digits(n % 10)
  }

  /** Python's `str` of a value; a constant of a profile may be a number or a boolean. */
  function TextOf(v: Value): string {
    match v
    case Text(s) => s
    case Count(n) => if n < 0 then "-" + Digits(-n) else Digits(n)
    case Flag(b) => if b then "True" else "False"
    case _ => ""
  }

  predicate Allowed(name: FieldName, v: Value) {
    v.Text? && if name == AssetKind then v.s in KINDS else v.s in PATCH_STATES
  }

  /** What becomes of one readable value: nothing if the line must be skipped. */
  function Cell(kind: FieldKind, name: FieldName, v: Value, digest: string -> string): Option<Value> {
    match kind
    case IdKind => Some(Text(Slug(TextOf(v), digest)))
    case OpaqueKind => if Printable(TextOf(v)) then Some(v) else None
    case EnumKind => if Allowed(name, v) then Some(v) else None
    case _ => Some(v)
  }

  function Field(k: RecordKind, name: FieldName, v: Value, digest: string -> string): Option<Value> {
    if name !in Targets(k) then None
    else if v.Null? then if Targets(k)[name].1 then None else Some(Null)
    else Cell(Targets(k)[name].0, name, v, digest)
  }

  /** The record after `n` values, or nothing once a value made the line be skipped. */
  function Fields(k: RecordKind, values: seq<(FieldName, Value)>, n: nat, digest: string -> string): Option<Item>
    requires n <= |values|
  {
    if n == 0 then Some(map[])
    else
      var (name, v) := values[n - 1];
      match Fields(k, values, n - 1, digest)
      case None => None
      case Some(record) =>
        match Field(k, name, v, digest)
        case None => None
        case Some(w) => Some(record[name := w])
  }

  /** The identifiers in use, each with the name it stands for; nothing once two names
      share one. */
  function Register(k: RecordKind, values: seq<(FieldName, Value)>, n: nat, names: map<string, string>,
                    digest: string -> string):
    Option<map<string, string>>
    requires n <= |values|
  {
    if n == 0 then Some(names)
    else
      match Register(k, values, n - 1, names, digest)
      case None => None
      case Some(used) =>
        var (name, v) := values[n - 1];
        if Fields(k, values, n - 1, digest).None? || name !in Targets(k) || Targets(k)[name].0 != IdKind || v.Null?
        then Some(used)
        else
          var id := Slug(TextOf(v), digest);
          if id in used && used[id] != TextOf(v) then None else Some(used[id := TextOf(v)])
  }

  function Prefix(k: RecordKind): string {
    match k case LoginLog => "lg-" case FileLog => "fa-" case Inventory => "as-"
  }

  /** The record with its identifier, derived from its content if it has none, and an
      explicit `Null` for every target that was not mapped. */
  function Completed(k: RecordKind, record: Item, digests: Digests): Item {
    var id := if Id in record && record[Id] != Null then record[Id]
              else Text(Prefix(k) + digests.row(k, record - {Id}));
    (map name | name in Targets(k) :: if name in record then record[name] else Null)[Id := id]
  }

  /** The record a line gives, if any. */
  function Accepted(k: RecordKind, line: Line, digests: Digests): Option<Item> {
    if line.Blank? then None
    else
      match Fields(k, line.values, |line.values|, digests.name)
      case None => None
      case Some(record) => Some(Completed(k, record, digests))
  }

  method ReadLine(k: RecordKind, values: seq<(FieldName, Value)>, names0: map<string, string>, digests: Digests)
    returns (record: Option<Item>, names: Option<map<string, string>>)
    ensures names == Register(k, values, |values|, names0, digests.name)
    ensures names.Some? ==> record == Accepted(k, Mapped(values), digests)
  {
    hide Targets, Cell, Slug, Completed, TextOf;
    var fields: Item := map[];
    var used := names0;
    var i := 0;
    while i < |values|
      invariant 0 <= i <= |values|
      invariant Fields(k, values, i, digests.name) == Some(fields)
      invariant Register(k, values, i, names0, digests.name) == Some(used)
    {
      var (name, v) := values[i];
      if name in Targets(k) && !v.Null? && Targets(k)[name].0 == IdKind {
        var id := Slug(TextOf(v), digests.name);
        if id in used && used[id] != TextOf(v) {
          RegisterStops(k, values, i + 1, names0, digests.name);
          return None, None;
        }
        used := used[id := TextOf(v)];
      }
      var w := Field(k, name, v, digests.name);
      if w.None? {
        FieldsStop(k, values, i + 1, names0, digests.name);
        return None, Some(used);
      }
      fields := fields[name := w.value];
      i := i + 1;
    }
    record, names := Some(Completed(k, fields, digests)), Some(used);
  }

  lemma {:induction false} RegisterStops(k: RecordKind, values: seq<(FieldName, Value)>, n: nat,
                                         names: map<string, string>, digest: string -> string)
    requires n <= |values| && Register(k, values, n, names, digest).None?
    ensures Register(k, values, |values|, names, digest).None?
    decreases |values| - n
  {
    hide Fields, Slug, Targets;
    if n < |values| { RegisterStops(k, values, n + 1, names, digest); }
  }

  lemma {:induction false} FieldsStop(k: RecordKind, values: seq<(FieldName, Value)>, n: nat,
                                      names: map<string, string>, digest: string -> string)
    requires n <= |values| && Fields(k, values, n, digest).None?
    ensures Fields(k, values, |values|, digest).None?
    ensures Register(k, values, |values|, names, digest) == Register(k, values, n, names, digest)
    decreases |values| - n
  {
    hide Slug, Targets, Field;
    if n < |values| { FieldsStop(k, values, n + 1, names, digest); }
  }

  // ---- one source -------------------------------------------------------------------------

  datatype Reading = Reading(records: seq<Item>, names: map<string, string>, report: Report)

  /** The first `n` lines. */
  function Reads(k: RecordKind, lines: seq<Line>, n: nat, names: map<string, string>, digests: Digests, maxRows: nat):
    Result<Reading, ImportError>
    requires n <= |lines|
  {
    if n == 0 then Ok(Reading([], names, Report(0, 0, 0)))
    else
      match Reads(k, lines, n - 1, names, digests, maxRows)
      case Err(e) => Err(e)
      case Ok(r) =>
        if n > maxRows then Err(TooManyRows) else NextLine(k, lines[n - 1], r, digests)
  }

  function NextLine(k: RecordKind, line: Line, r: Reading, digests: Digests): Result<Reading, ImportError> {
    var skipped := r.(report := r.report.(read := r.report.read + 1, skipped := r.report.skipped + 1));
    if line.Blank? then Ok(skipped)
    else
      match Register(k, line.values, |line.values|, r.names, digests.name)
      case None => Err(IdentifierClash)
      case Some(names) =>
        match Accepted(k, line, digests)
        case None => Ok(skipped.(names := names))
        case Some(record) =>
          Ok(Reading(r.records + [record], names,
                     r.report.(read := r.report.read + 1, imported := r.report.imported + 1)))
  }

  method ReadSource(feed: Feed, names0: map<string, string>, digests: Digests, maxRows: nat)
    returns (r: Result<Reading, ImportError>)
    ensures r == Reads(feed.kind, feed.lines, |feed.lines|, names0, digests, maxRows)
  {
    hide Accepted, Register;
    var out, names, report := [], names0, Report(0, 0, 0);
    var i := 0;
    while i < |feed.lines|
      invariant 0 <= i <= |feed.lines|
      invariant Reads(feed.kind, feed.lines, i, names0, digests, maxRows) == Ok(Reading(out, names, report))
    {
      var line := feed.lines[i];
      if i + 1 > maxRows {
        ReadsStop(feed.kind, feed.lines, i + 1, names0, digests, maxRows);
        return Err(TooManyRows);
      }
      report := report.(read := report.read + 1);
      if line.Blank? {
        report := report.(skipped := report.skipped + 1);
      } else {
        var record, used := ReadLine(feed.kind, line.values, names, digests);
        if used.None? {
          ReadsStop(feed.kind, feed.lines, i + 1, names0, digests, maxRows);
          return Err(IdentifierClash);
        }
        names := used.value;
        if record.None? {
          report := report.(skipped := report.skipped + 1);
        } else {
          report := report.(imported := report.imported + 1);
          out := out + [record.value];
        }
      }
      i := i + 1;
    }
    return Ok(Reading(out, names, report));
  }

  lemma {:induction false} ReadsStop(k: RecordKind, lines: seq<Line>, n: nat, names: map<string, string>,
                                     digests: Digests, maxRows: nat)
    requires n <= |lines| && Reads(k, lines, n, names, digests, maxRows).Err?
    ensures Reads(k, lines, |lines|, names, digests, maxRows) == Reads(k, lines, n, names, digests, maxRows)
    decreases |lines| - n
  {
    hide NextLine;
    if n < |lines| { ReadsStop(k, lines, n + 1, names, digests, maxRows); }
  }

  // ---- deduplication ------------------------------------------------------------------------

  function TextAt(item: Item, name: FieldName): string {
    if name in item then TextOf(item[name]) else ""
  }

  function TimeAt(item: Item, name: FieldName): int {
    if name in item && item[name].Time? then item[name].at else 0
  }

  function AssetOf(record: Item): Item {
    var get := (name: FieldName) => if name in record then record[name] else Null;
    map[Id := get(Id), AssetKind := get(AssetKind), PatchState := get(PatchState), ObservedAt := get(ObservedAt),
        Weakness := if get(WeaknessReference).Null? then Null
                    else Object(map[Reference := get(WeaknessReference), Cvss := get(WeaknessCvss),
                                    KnownExploited := get(WeaknessExploited)]),
        InternetExposed := get(InternetExposed), PrivilegedPath := get(PrivilegedPath),
        SensitivePath := get(SensitivePath)]
  }

  /** `assets[id] = asset` in a dictionary that keeps the order of insertion, unless the
      row already there was observed later. */
  function Put(assets: seq<Item>, asset: Item): seq<Item> {
    if assets == [] then [asset]
    else
      var init, last := assets[..|assets| - 1], assets[|assets| - 1];
      if TextAt(last, Id) != TextAt(asset, Id) then Put(init, asset) + [last]
      else if TimeAt(asset, ObservedAt) >= TimeAt(last, ObservedAt) then init + [asset]
      else assets
  }

  function EventOf(k: RecordKind, record: Item): Item {
    record[Type := Text(if k.LoginLog? then "login" else "file_access")]
  }

  function RenamedId(event: Item, digests: Digests): string {
    var id := TextAt(event, Id);
    (if |id| > 40 then id[..40] else id) + ":" + digests.body(event)
  }

  function Renamed(event: Item, digests: Digests): Item {
    event[Id := Text(RenamedId(event, digests))]
  }

  datatype Store = Store(assets: seq<Item>, events: seq<Item>, seen: map<string, Item>)

  /** One event row: kept, dropped as a repetition, or kept under a new identifier. */
  function AddEvent(st: Store, report: Report, event: Item, digests: Digests): (Store, Report) {
    var id, again := TextAt(event, Id), report.(imported := report.imported - 1, skipped := report.skipped + 1);
    if id !in st.seen then
      (st.(events := st.events + [event], seen := st.seen[id := event]), report)
    else if st.seen[id] == event then (st, again)
    else
      var renamed := Renamed(event, digests);
      if TextAt(renamed, Id) in st.seen then (st, again)
      else (st.(events := st.events + [renamed], seen := st.seen[TextAt(renamed, Id) := renamed]), report)
  }

  function AddRecord(k: RecordKind, st: Store, report: Report, record: Item, digests: Digests): (Store, Report) {
    if k.Inventory? then (st.(assets := Put(st.assets, AssetOf(record))), report)
    else AddEvent(st, report, EventOf(k, record), digests)
  }

  function Absorb(k: RecordKind, st: Store, report: Report, records: seq<Item>, n: nat,
                  digests: Digests): (Store, Report)
    requires n <= |records|
  {
    if n == 0 then (st, report)
    else
      var (st', report') := Absorb(k, st, report, records, n - 1, digests);
      AddRecord(k, st', report', records[n - 1], digests)
  }

  datatype Build = Build(store: Store, names: map<string, string>, reports: seq<Report>)

  /** The first `n` sources. */
  function Builds(feeds: seq<Feed>, n: nat, digests: Digests, maxRows: nat): Result<Build, ImportError>
    requires n <= |feeds|
  {
    if n == 0 then Ok(Build(Store([], [], map[]), map[], []))
    else
      match Builds(feeds, n - 1, digests, maxRows)
      case Err(e) => Err(e)
      case Ok(b) =>
        match Reads(feeds[n - 1].kind, feeds[n - 1].lines, |feeds[n - 1].lines|, b.names, digests, maxRows)
        case Err(e) => Err(e)
        case Ok(r) =>
          var (store, report) := Absorb(feeds[n - 1].kind, b.store, r.report, r.records, |r.records|, digests);
          Ok(Build(store, r.names, b.reports + [report]))
  }

  method Combine(feeds: seq<Feed>, digests: Digests, maxRows: nat) returns (r: Result<Build, ImportError>)
    ensures r == Builds(feeds, |feeds|, digests, maxRows)
  {
    hide Reads, Absorb;
    var store, names, reports := Store([], [], map[]), map[], [];
    var i := 0;
    while i < |feeds|
      invariant 0 <= i <= |feeds|
      invariant Builds(feeds, i, digests, maxRows) == Ok(Build(store, names, reports))
    {
      var read := ReadSource(feeds[i], names, digests, maxRows);
      if read.Err? {
        BuildsStop(feeds, i + 1, digests, maxRows);
        return Err(read.error);
      }
      var report: Report;
      store, report := Merge(feeds[i].kind, store, read.value.report, read.value.records, digests);
      names, reports := read.value.names, reports + [report];
      i := i + 1;
    }
    return Ok(Build(store, names, reports));
  }

  lemma {:induction false} BuildsStop(feeds: seq<Feed>, n: nat, digests: Digests, maxRows: nat)
    requires n <= |feeds| && Builds(feeds, n, digests, maxRows).Err?
    ensures Builds(feeds, |feeds|, digests, maxRows) == Builds(feeds, n, digests, maxRows)
    decreases |feeds| - n
  {
    hide Reads, Absorb;
    if n < |feeds| { BuildsStop(feeds, n + 1, digests, maxRows); }
  }

  method Merge(k: RecordKind, store0: Store, report0: Report, records: seq<Item>, digests: Digests)
    returns (store: Store, report: Report)
    ensures (store, report) == Absorb(k, store0, report0, records, |records|, digests)
  {
    hide Put, AssetOf, EventOf, TextAt, RenamedId;
    store, report := store0, report0;
    var i := 0;
    while i < |records|
      invariant 0 <= i <= |records|
      invariant (store, report) == Absorb(k, store0, report0, records, i, digests)
    {
      if k.Inventory? {
        store := store.(assets := Put(store.assets, AssetOf(records[i])));
      } else {
        var event := EventOf(k, records[i]);
        var id := TextAt(event, Id);
        if id !in store.seen {
          store := store.(events := store.events + [event], seen := store.seen[id := event]);
        } else if store.seen[id] == event {
          report := report.(imported := report.imported - 1, skipped := report.skipped + 1);
        } else {
          event := Renamed(event, digests);
          if TextAt(event, Id) in store.seen {
            report := report.(imported := report.imported - 1, skipped := report.skipped + 1);
          } else {
            store := store.(events := store.events + [event], seen := store.seen[TextAt(event, Id) := event]);
          }
        }
      }
      i := i + 1;
    }
  }

  // ---- the snapshot ---------------------------------------------------------------------------

  function RefersTo(event: Item): string {
    if TextAt(event, Type) == "login" then TextAt(event, GatewayId) else TextAt(event, AssetId)
  }

  function IdsOf(items: seq<Item>): set<string> { set x | x in items :: TextAt(x, Id) }

  /** Assets that appear only in traffic, in the order of their first event. */
  function Shadows(events: seq<Item>, n: nat, known: set<string>): seq<string>
    requires n <= |events|
  {
    if n == 0 then []
    else
      var before, id := Shadows(events, n - 1, known), RefersTo(events[n - 1]);
      if id in known || id in before then before else before + [id]
  }

  function ShadowAsset(id: string, stamp: int): Item {
    map[Id := Text(id), AssetKind := Text("unknown"), PatchState := Text("unknown"), ObservedAt := Time(stamp),
        Weakness := Null, InternetExposed := Null, PrivilegedPath := Null, SensitivePath := Null]
  }

  function ShadowAssets(ids: seq<string>, stamp: int): seq<Item> {
    seq(|ids|, i requires 0 <= i < |ids| => ShadowAsset(ids[i], stamp))
  }

  /** The latest time among the items and `start`. */
  function Newest(items: seq<Item>, name: FieldName, n: nat, start: Option<int>): Option<int>
    requires n <= |items|
  {
    if n == 0 then start
    else
      var before, at := Newest(items, name, n - 1, start), TimeAt(items[n - 1], name);
      if before.None? || before.value < at then Some(at) else before
  }

  /** Rows beyond the horizon are charged to the last source. */
  function Charged(reports: seq<Report>, future: nat): seq<Report>
    requires reports != []
  {
    var last := reports[|reports| - 1];
    if future == 0 then reports
    else
      reports[..|reports| - 1] +
        [Report(last.read, if last.imported > future then last.imported - future else 0, last.skipped + future)]
  }

  const BY_NAME := (item: Item) => Stamp(0, TextAt(item, Id))

  const BY_EVENT := (item: Item) => Stamp(TimeAt(item, At), TextAt(item, Id))

  const BY_TEXT := (id: string) => Stamp(0, id)

  function Within(name: FieldName, horizon: int): Item -> bool {
    (item: Item) => TimeAt(item, name) <= horizon
  }

  function Known(assets: set<string>): Item -> bool {
    (event: Item) => RefersTo(event) in assets
  }

  function Provenance(feeds: seq<Feed>, reports: seq<Report>): seq<Source>
    requires |feeds| == |reports|
  {
    seq(|feeds|,
        i requires 0 <= i < |feeds| => Source(feeds[i].name, feeds[i].sha256, reports[i].read, reports[i].imported))
  }

  datatype Snapshot = Snapshot(document: Document, reports: seq<Report>, shadow: seq<string>)

  /** What `build_snapshot` makes of the combined sources. */
  function Finished(feeds: seq<Feed>, b: Build, policy: Policy, now: int,
                    asOf: Option<int>): Result<Snapshot, ImportError>
    requires |feeds| == |b.reports| > 0
  {
    var events := Filter(Within(At, now + LEEWAY), b.store.events);
    var reports := Charged(b.reports, |b.store.events| - |events|);
    var assets := Filter(Within(ObservedAt, now + LEEWAY), b.store.assets);
    var shadow := Shadows(events, |events|, IdsOf(assets));
    var newest := Newest(assets, ObservedAt, |assets|, Newest(events, At, |events|, None));
    var stamp := if asOf.Some? then asOf.value else if newest.Some? then newest.value else now;
    var all := if policy.RecordUnknown? then assets + ShadowAssets(shadow, stamp) else assets;
    var kept := if policy.SkipUnknown? then Filter(Known(IdsOf(assets)), events) else events;
    if all == [] then Err(NoAssets)
    else Ok(Snapshot(Document(stamp, Sort(BY_NAME, all), Sort(BY_EVENT, kept), Provenance(feeds, reports)), reports,
                     Sort(BY_TEXT, shadow)))
  }

  function Imported(feeds: seq<Feed>, policy: Policy, now: int, asOf: Option<int>, digests: Digests, maxRows: nat):
    Result<Snapshot, ImportError>
  {
    if feeds == [] then Err(NoSources)
    else
      match Builds(feeds, |feeds|, digests, maxRows)
      case Err(e) => Err(e)
      case Ok(b) =>
        OneReportEach(feeds, |feeds|, digests, maxRows);
        Finished(feeds, b, policy, now, asOf)
  }

  lemma {:induction false} OneReportEach(feeds: seq<Feed>, n: nat, digests: Digests, maxRows: nat)
    requires n <= |feeds| && Builds(feeds, n, digests, maxRows).Ok?
    ensures |Builds(feeds, n, digests, maxRows).value.reports| == n
  {
    hide Reads, Absorb;
    if n > 0 { OneReportEach(feeds, n - 1, digests, maxRows); }
  }

  method BuildSnapshot(feeds: seq<Feed>, policy: Policy, now: int, asOf: Option<int>, digests: Digests, maxRows: nat)
    returns (r: Result<Snapshot, ImportError>)
    ensures r == Imported(feeds, policy, now, asOf, digests, maxRows)
  {
    hide Builds, Sort, Newest, Shadows, Filter;
    if feeds == [] { return Err(NoSources); }
    var b := Combine(feeds, digests, maxRows);
    if b.Err? { return Err(b.error); }
    OneReportEach(feeds, |feeds|, digests, maxRows);
    var store, reports := b.value.store, b.value.reports;
    var events := Filter(Within(At, now + LEEWAY), store.events);
    reports := Charged(reports, |store.events| - |events|);
    var assets := Filter(Within(ObservedAt, now + LEEWAY), store.assets);
    var shadow := FindShadows(events, IdsOf(assets));
    var latest := FindNewest(events, At, None);
    var newest := FindNewest(assets, ObservedAt, latest);
    var stamp := if asOf.Some? then asOf.value else if newest.Some? then newest.value else now;
    var all := assets;
    if policy.RecordUnknown? { all := all + ShadowAssets(shadow, stamp); }
    var kept := events;
    if policy.SkipUnknown? { kept := Filter(Known(IdsOf(assets)), kept); }
    if all == [] { return Err(NoAssets); }
    return Ok(Snapshot(Document(stamp, Sort(BY_NAME, all), Sort(BY_EVENT, kept), Provenance(feeds, reports)), reports,
                       Sort(BY_TEXT, shadow)));
  }

  method FindShadows(events: seq<Item>, known: set<string>) returns (shadow: seq<string>)
    ensures shadow == Shadows(events, |events|, known)
  {
    shadow := [];
    var i := 0;
    while i < |events|
      invariant 0 <= i <= |events| && shadow == Shadows(events, i, known)
    {
      var id := RefersTo(events[i]);
      if id !in known && id !in shadow { shadow := shadow + [id]; }
      i := i + 1;
    }
  }

  method FindNewest(items: seq<Item>, name: FieldName, start: Option<int>) returns (newest: Option<int>)
    ensures newest == Newest(items, name, |items|, start)
  {
    newest := start;
    var i := 0;
    while i < |items|
      invariant 0 <= i <= |items| && newest == Newest(items, name, i, start)
    {
      var at := TimeAt(items[i], name);
      if newest.None? || newest.value < at { newest := Some(at); }
      i := i + 1;
    }
  }
}
