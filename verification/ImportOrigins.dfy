/** Where everything in an imported snapshot comes from, told by the sources' lines: which
    lines are taken, what a row of one says field by field, and which assets and events are
    listed under either policy (aisecure/connectors/importer.py). */
module ImportOrigins {
  import opened Common
  import opened Ordering
  import opened Normalizer
  import opened Snapshots
  import opened Names
  import opened Importer
  import opened Conservation
  import opened Accounting
  import opened SourceOrder

  // ---- what a line says --------------------------------------------------------------------

  /** What a profile may map, for each kind of source. */
  function Mappable(k: RecordKind): set<FieldName> {
    match k
    case LoginLog => {Id, At, Actor, Session, GatewayId, Success, Privileged, DeviceTrusted, Approved}
    case FileLog => {Id, At, Actor, Session, AssetId, FileId, Sensitive, BytesRead}
    case Inventory => {Id, AssetKind, ObservedAt, PatchState, InternetExposed, PrivilegedPath, SensitivePath,
                       WeaknessReference, WeaknessCvss, WeaknessExploited}
  }

  /** What a line must say. */
  function Needed(k: RecordKind): set<FieldName> {
    match k
    case LoginLog => {At, Actor, Session, GatewayId, Success}
    case FileLog => {At, Actor, Session, AssetId, FileId}
    case Inventory => {Id, AssetKind, ObservedAt, PatchState}
  }

  const IDENTIFIERS := {Id, GatewayId, AssetId, WeaknessReference}
  const OPAQUE := {Actor, Session, FileId}

  /** One value with which a line can be taken. */
  predicate Takes(k: RecordKind, name: FieldName, v: Value) {
    && name in Mappable(k)
    && (v == Null ==> name !in Needed(k))
    && (v != Null && name in OPAQUE ==>
          1 <= |TextOf(v)| <= 256 && forall i :: 0 <= i < |TextOf(v)| ==> TextOf(v)[i] as int >= 32)
    && (v != Null && name == AssetKind ==>
          v in {Text("vpn"), Text("server"), Text("saas"), Text("endpoint"), Text("unknown")})
    && (v != Null && name == PatchState ==>
          v in {Text("pending"), Text("applied"), Text("unknown"), Text("not_applicable")})
  }

  /** What the line maps to a target: the last value it maps there. */
  function ValueOf(values: seq<(FieldName, Value)>, name: FieldName): Value {
    if values == [] then Null
    else if values[|values| - 1].0 == name then values[|values| - 1].1
    else ValueOf(values[..|values| - 1], name)
  }

  /** What decimal digits stand for. */
  function NumberOf(s: string): int {
    if s == "" then 0 else 10 * NumberOf(s[..|s| - 1]) + (s[|s| - 1] as int - '0' as int)
  }

  /** A number is written in decimal digits, without a leading zero unless it is zero. */
  lemma {:induction false} DigitsRead(n: nat)
    ensures NumberOf(Digits(n)) == n && Digits(n) != "" && (n > 0 ==> Digits(n)[0] != '0')
    ensures forall c :: c in Digits(n) ==> '0' <= c <= '9'
  {
    if n >= 10 {
      DigitsRead(n / 10);
      var last := Digits(n % 10);
      assert |last| == 1 && Digits(n)[..|Digits(n)| - 1] == Digits(n / 10);
      assert Digits(n)[|Digits(n)| - 1] == last[0];
      assert Digits(n)[0] == Digits(n / 10)[0];
    } else {
      assert Digits(n)[..0] == "";
    }
  }

  /** What a row of the line says: identifiers are spelled as such, all else stands. */
  function Said(values: seq<(FieldName, Value)>, name: FieldName, digest: string -> string): Value {
    var v := ValueOf(values, name);
    if name in IDENTIFIERS && v != Null then Text(Slug(TextOf(v), digest)) else v
  }

  /** The table of a kind of source agrees with this about one target. */
  predicate TableAgrees(k: RecordKind, table: map<FieldName, (FieldKind, bool)>, name: FieldName) {
    && (name in table <==> name in Mappable(k))
    && (name in table ==>
          && (table[name].1 <==> name in Needed(k))
          && (table[name].0 == IdKind <==> name in IDENTIFIERS)
          && (table[name].0 == OpaqueKind <==> name in OPAQUE)
          && (table[name].0 == EnumKind <==> name == AssetKind || name == PatchState))
  }

  lemma LoginTable(name: FieldName)
    ensures TableAgrees(LoginLog, LOGIN_TARGETS, name)
  {
  }

  lemma FileTable(name: FieldName)
    ensures TableAgrees(FileLog, FILE_TARGETS, name)
  {
  }

  lemma InventoryTable(name: FieldName)
    ensures TableAgrees(Inventory, INVENTORY_TARGETS, name)
  {
  }

  lemma TargetTables(k: RecordKind, name: FieldName)
    ensures TableAgrees(k, Targets(k), name)
  {
    hide TableAgrees;
    match k
    case LoginLog => LoginTable(name);
    case FileLog => FileTable(name);
    case Inventory => InventoryTable(name);
  }

  lemma FieldSays(k: RecordKind, name: FieldName, v: Value, digest: string -> string)
    ensures Field(k, name, v, digest).Some? <==> Takes(k, name, v)
    ensures Field(k, name, v, digest).Some? ==>
              Field(k, name, v, digest).value ==
              if name in IDENTIFIERS && v != Null then Text(Slug(TextOf(v), digest)) else v
  {
    hide Slug, Targets, TextOf, Mappable, Needed;
    TargetTables(k, name);
  }

  ghost predicate AllTaken(k: RecordKind, values: seq<(FieldName, Value)>) {
    forall i :: 0 <= i < |values| ==> Takes(k, values[i].0, values[i].1)
  }

  function Holds(r: Item, name: FieldName): Value { if name in r then r[name] else Null }

  lemma {:induction false} FieldsSay(k: RecordKind, values: seq<(FieldName, Value)>, n: nat, digest: string -> string)
    requires n <= |values|
    ensures Fields(k, values, n, digest).Some? <==> AllTaken(k, values[..n])
    ensures Fields(k, values, n, digest).Some? ==>
              forall name :: Holds(Fields(k, values, n, digest).value, name) == Said(values[..n], name, digest)
  {
    hide Field, Takes, Slug;
    if n > 0 {
      FieldsSay(k, values, n - 1, digest);
      var (name, v) := values[n - 1];
      FieldSays(k, name, v, digest);
      assert values[..n] == values[..n - 1] + [(name, v)] && values[..n][..n - 1] == values[..n - 1];
      if Fields(k, values, n, digest).Some? {
        var before, after := Fields(k, values, n - 1, digest).value, Fields(k, values, n, digest).value;
        forall other ensures Holds(after, other) == Said(values[..n], other, digest) {
          assert Holds(before, other) == Said(values[..n - 1], other, digest);
        }
      }
    }
  }

  lemma {:induction false} FieldsMapped(k: RecordKind, values: seq<(FieldName, Value)>, n: nat,
                                        digest: string -> string)
    requires n <= |values| && Fields(k, values, n, digest).Some?
    ensures Fields(k, values, n, digest).value.Keys <= Targets(k).Keys
  {
    hide Cell, Targets;
    if n > 0 { FieldsMapped(k, values, n - 1, digest); }
  }

  function PrefixOf(k: RecordKind): string {
    match k case LoginLog => "lg-" case FileLog => "fa-" case Inventory => "as-"
  }

  /** The identifier was derived from what the line says otherwise. */
  ghost predicate Derived(k: RecordKind, values: seq<(FieldName, Value)>, id: Value, digests: Digests) {
    exists r: Item :: && id == Text(PrefixOf(k) + digests.row(k, r)) && Id !in r
                      && forall name :: name != Id ==> Holds(r, name) == Said(values, name, digests.name)
  }

  /** The row says what the line maps, field by field, and nothing of what it does not map. */
  ghost predicate Says(k: RecordKind, line: Line, r: Item, digests: Digests) {
    && line.Mapped? && AllTaken(k, line.values) && Id in r && r.Keys == Mappable(k)
    && (forall name :: name in r && name != Id ==> r[name] == Said(line.values, name, digests.name))
    && (if Said(line.values, Id, digests.name) != Null then r[Id] == Said(line.values, Id, digests.name)
        else Derived(k, line.values, r[Id], digests))
  }

  /** A line gives a row exactly when it is not blank and all its values can be taken; the
      row then says what the line says. */
  lemma LineSays(k: RecordKind, line: Line, digests: Digests)
    ensures Accepted(k, line, digests).Some? <==> line.Mapped? && AllTaken(k, line.values)
    ensures Accepted(k, line, digests).Some? ==> Says(k, line, Accepted(k, line, digests).value, digests)
  {
    hide AllTaken, Fields, Targets, Mappable, Said;
    if line.Mapped? {
      var values := line.values;
      assert values[..|values|] == values;
      FieldsSay(k, values, |values|, digests.name);
      if Accepted(k, line, digests).Some? {
        var r := Fields(k, values, |values|, digests.name).value;
        FieldsMapped(k, values, |values|, digests.name);
        CompletedSays(k, values, r, digests);
      }
    }
  }

  lemma CompletedSays(k: RecordKind, values: seq<(FieldName, Value)>, r: Item, digests: Digests)
    requires r.Keys <= Targets(k).Keys && forall name :: Holds(r, name) == Said(values, name, digests.name)
    ensures var c := Completed(k, r, digests);
            && Id in c && c.Keys == Mappable(k)
            && (forall name :: name in c && name != Id ==> c[name] == Said(values, name, digests.name))
            && (if Said(values, Id, digests.name) != Null then c[Id] == Said(values, Id, digests.name)
                else Derived(k, values, c[Id], digests))
  {
    hide Targets, Mappable, Said;
    var c := Completed(k, r, digests);
    forall name ensures name in c <==> name in Mappable(k) {
      TargetTables(k, name);
      IdTarget(k);
    }
    forall name | name in c && name != Id ensures c[name] == Said(values, name, digests.name) {
      assert c[name] == Holds(r, name);
    }
    if Said(values, Id, digests.name) == Null {
      assert Holds(r, Id) == Null;
      var rest := r - {Id};
      assert forall name :: name != Id ==> Holds(rest, name) == Holds(r, name);
      assert c[Id] == Text(PrefixOf(k) + digests.row(k, rest));
    } else {
      assert Holds(r, Id) == Said(values, Id, digests.name);
    }
  }

  lemma IdTarget(k: RecordKind)
    ensures Id in Targets(k) && Id in Mappable(k)
  {
  }

  // ---- events --------------------------------------------------------------------------------

  /** The event is a row of this line, with its type. */
  ghost predicate EventSays(k: RecordKind, line: Line, x: Item, digests: Digests) {
    && !k.Inventory? && Type in x && x[Type] == Text(if k.LoginLog? then "login" else "file_access")
    && Says(k, line, x - {Type}, digests)
  }

  ghost predicate EventFromLine(feeds: seq<Feed>, x: Item, digests: Digests) {
    exists f, l :: f in feeds && l in f.lines && EventSays(f.kind, l, x, digests)
  }

  lemma TypeUnmapped(k: RecordKind)
    ensures Type !in Mappable(k)
  {
  }

  lemma RowSays(feeds: seq<Feed>, digests: Digests, x: Item)
    requires x in RowSet(feeds, digests)
    ensures EventFromLine(feeds, x, digests)
  {
    hide Accepted, RowSet, Says, Mappable, AcceptedEvents, Records, EventsOf;
    var f, l, r := LogRowFrom(feeds, digests, x);
    LineSays(f.kind, l, digests);
    TypeUnmapped(f.kind);
    assert r.Keys == Mappable(f.kind) by { SaysKeys(f.kind, l, r, digests); }
    assert x - {Type} == r;
    assert EventSays(f.kind, l, x, digests);
  }

  lemma SaysKeys(k: RecordKind, line: Line, r: Item, digests: Digests)
    requires Says(k, line, r, digests)
    ensures r.Keys == Mappable(k)
  {
  }

  lemma {:induction false} NoInventoryEvents(k: RecordKind, records: seq<Item>, n: nat)
    requires n <= |records| && k.Inventory?
    ensures EventsOf(k, records, n) == []
  {
    if n > 0 { NoInventoryEvents(k, records, n - 1); }
  }

  lemma LogRowFrom(feeds: seq<Feed>, digests: Digests, x: Item) returns (f: Feed, l: Line, r: Item)
    requires x in RowSet(feeds, digests)
    ensures f in feeds && l in f.lines && Accepted(f.kind, l, digests) == Some(r) && x == EventOf(f.kind, r)
    ensures !f.kind.Inventory?
  {
    hide Accepted, EventOf, AcceptedEvents, Records, EventsOf;
    AcceptedFrom(feeds, |feeds|, digests, x);
    f :| f in feeds[..|feeds|] && GivenBy(f, digests, x);
    var records := Records(f.kind, f.lines, |f.lines|, digests);
    if f.kind.Inventory? { NoInventoryEvents(f.kind, records, |records|); }
    r := EventFrom(f.kind, records, |records|, x);
    l := RecordFrom(f.kind, f.lines, |f.lines|, digests, r);
  }

  /** The event is the row, or the row under the first 40 characters of its identifier, a
      colon and its hash. */
  predicate SameOrRenamed(e: Item, x: Item, digests: Digests) {
    e == x || (Id in x && x[Id].Text? &&
               e == x[Id := Text((if |x[Id].s| > 40 then x[Id].s[..40] else x[Id].s) + ":" + digests.body(x))])
  }

  // ---- assets --------------------------------------------------------------------------------

  /** The asset is what this inventory line says. */
  ghost predicate AssetSays(line: Line, a: Item, digests: Digests) {
    var d := digests.name;
    && line.Mapped? && AllTaken(Inventory, line.values)
    && a.Keys == {Id, AssetKind, PatchState, ObservedAt, Weakness, InternetExposed, PrivilegedPath, SensitivePath}
    && (if Said(line.values, Id, d) != Null then a[Id] == Said(line.values, Id, d)
        else Derived(Inventory, line.values, a[Id], digests))
    && a[AssetKind] == Said(line.values, AssetKind, d) && a[PatchState] == Said(line.values, PatchState, d)
    && a[ObservedAt] == Said(line.values, ObservedAt, d)
    && a[InternetExposed] == Said(line.values, InternetExposed, d)
    && a[PrivilegedPath] == Said(line.values, PrivilegedPath, d)
    && a[SensitivePath] == Said(line.values, SensitivePath, d)
    && a[Weakness] == if Said(line.values, WeaknessReference, d) == Null then Null
                      else Object(map[Reference := Said(line.values, WeaknessReference, d),
                                      Cvss := Said(line.values, WeaknessCvss, d),
                                      KnownExploited := Said(line.values, WeaknessExploited, d)])
  }

  ghost predicate AssetFromLine(feeds: seq<Feed>, a: Item, digests: Digests) {
    exists f, l :: f in feeds && f.kind.Inventory? && l in f.lines && AssetSays(l, a, digests)
  }

  lemma InventorySaid(line: Line, r: Item, digests: Digests)
    requires Says(Inventory, line, r, digests)
    ensures {Id, AssetKind, ObservedAt, PatchState, InternetExposed, PrivilegedPath, SensitivePath,
             WeaknessReference, WeaknessCvss, WeaknessExploited} <= r.Keys
    ensures forall name :: name in r && name != Id ==> r[name] == Said(line.values, name, digests.name)
  {
    hide Said, AllTaken, Derived;
  }

  lemma AssetOfSays(line: Line, r: Item, digests: Digests)
    requires Says(Inventory, line, r, digests)
    ensures AssetSays(line, AssetOf(r), digests)
  {
    hide Said, AllTaken, Derived, Mappable;
    InventorySaid(line, r, digests);
  }

  lemma {:induction false} AssetRowFrom(k: RecordKind, records: seq<Item>, n: nat, a: Item) returns (r: Item)
    requires n <= |records| && a in AssetRows(k, records, n)
    ensures k.Inventory? && r in records && a == AssetOf(r)
  {
    hide AssetOf;
    if a in AssetRows(k, records, n - 1) {
      r := AssetRowFrom(k, records, n - 1, a);
    } else {
      r := records[n - 1];
    }
  }

  lemma InventorySays(feeds: seq<Feed>, digests: Digests, a: Item)
    requires a in AcceptedAssets(feeds, |feeds|, digests)
    ensures AssetFromLine(feeds, a, digests)
  {
    hide Accepted, AssetOf, AcceptedAssets, Records, AssetRows, AssetSays, Says;
    AssetFrom(feeds, |feeds|, digests, a);
    var f :| f in feeds[..|feeds|] && Lists(f, digests, a);
    var records := Records(f.kind, f.lines, |f.lines|, digests);
    var r := AssetRowFrom(f.kind, records, |records|, a);
    var l := RecordFrom(f.kind, f.lines, |f.lines|, digests, r);
    LineSays(f.kind, l, digests);
    AssetOfSays(l, r, digests);
  }
}
