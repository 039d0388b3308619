/** The order in which sources are read decides neither whether an import succeeds nor
    which contents it imports (aisecure/connectors/importer.py). */
module SourceOrder {
  import opened Common
  import opened Ordering
  import opened Normalizer
  import opened Snapshots
  import opened Names
  import opened Importer
  import opened Conservation
  import opened Accounting

  type Naming = (string, string)

  // ---- identifiers and the names they stand for ----------------------------------------------

  /** The identifiers that the first `n` values of a line use, with their names. */
  function Namings(k: RecordKind, values: seq<(FieldName, Value)>, n: nat, digest: string -> string): seq<Naming>
    requires n <= |values|
  {
    if n == 0 then []
    else
      var (name, v) := values[n - 1];
      Namings(k, values, n - 1, digest)
      + if Fields(k, values, n - 1, digest).None? || name !in Targets(k) || Targets(k)[name].0 != IdKind || v.Null?
        then []
        else [(Slug(TextOf(v), digest), TextOf(v))]
  }

  function LineNamings(k: RecordKind, line: Line, digest: string -> string): seq<Naming> {
    if line.Blank? then [] else Namings(k, line.values, |line.values|, digest)
  }

  function FeedNamings(k: RecordKind, lines: seq<Line>, n: nat, digest: string -> string): seq<Naming>
    requires n <= |lines|
  {
    if n == 0 then [] else FeedNamings(k, lines, n - 1, digest) + LineNamings(k, lines[n - 1], digest)
  }

  function AllNamings(feeds: seq<Feed>, n: nat, digest: string -> string): seq<Naming>
    requires n <= |feeds|
  {
    if n == 0 then []
    else
      var f := feeds[n - 1];
      AllNamings(feeds, n - 1, digest) + FeedNamings(f.kind, f.lines, |f.lines|, digest)
  }

  /** `identifiers.setdefault` over a list, stopping at the first clash. */
  function Enter(names: map<string, string>, used: seq<Naming>): Option<map<string, string>> {
    if used == [] then Some(names)
    else
      match Enter(names, used[..|used| - 1])
      case None => None
      case Some(m) =>
        var (id, text) := used[|used| - 1];
        if id in m && m[id] != text then None else Some(m[id := text])
  }

  function ThenEnter(names: Option<map<string, string>>, used: seq<Naming>): Option<map<string, string>> {
    if names.None? then None else Enter(names.value, used)
  }

  lemma {:induction false} EnterConcat(names: map<string, string>, a: seq<Naming>, b: seq<Naming>)
    ensures Enter(names, a + b) == ThenEnter(Enter(names, a), b)
  {
    if b == [] {
      assert a + b == a;
    } else {
      var init := b[..|b| - 1];
      assert (a + b)[..|a + b| - 1] == a + init;
      EnterConcat(names, a, init);
    }
  }

  ghost predicate Functional(used: seq<Naming>) {
    forall p, q :: p in used && q in used && p.0 == q.0 ==> p.1 == q.1
  }

  /** No clash occurs exactly when no identifier stands for two names. */
  lemma {:induction false} EnterExactly(used: seq<Naming>)
    ensures Enter(map[], used).Some? <==> Functional(used)
    ensures Enter(map[], used).Some? ==>
              var m := Enter(map[], used).value;
              && (forall p :: p in used ==> p.0 in m && m[p.0] == p.1)
              && (forall id :: id in m ==> (id, m[id]) in used)
  {
    if used != [] {
      var init, last := used[..|used| - 1], used[|used| - 1];
      assert used == init + [last];
      EnterExactly(init);
      if Functional(used) { assert forall p :: p in init ==> p in used; }
    }
  }

  lemma EnterOne(m: map<string, string>, p: Naming)
    ensures Enter(m, [p]) == if p.0 in m && m[p.0] != p.1 then None else Some(m[p.0 := p.1])
  {
    var one := [p];
    assert Enter(m, []) == Some(m);
    assert one[..|one| - 1] == [] && one[|one| - 1] == p;
  }

  lemma {:induction false} RegisterEnters(k: RecordKind, values: seq<(FieldName, Value)>, n: nat,
                                          names: map<string, string>, digest: string -> string)
    requires n <= |values|
    ensures Register(k, values, n, names, digest) == Enter(names, Namings(k, values, n, digest))
  {
    hide Fields, Slug, Targets, TextOf;
    if n > 0 {
      var (name, v) := values[n - 1];
      var before := Namings(k, values, n - 1, digest);
      RegisterEnters(k, values, n - 1, names, digest);
      if Fields(k, values, n - 1, digest).None? || name !in Targets(k) || Targets(k)[name].0 != IdKind || v.Null? {
        assert before + [] == before;
      } else {
        EnterConcat(names, before, [(Slug(TextOf(v), digest), TextOf(v))]);
        if Enter(names, before).Some? {
          EnterOne(Enter(names, before).value, (Slug(TextOf(v), digest), TextOf(v)));
        }
      }
    }
  }

  // ---- when reading succeeds --------------------------------------------------------------------

  lemma {:induction false} ReadsExactly(k: RecordKind, lines: seq<Line>, n: nat, names: map<string, string>,
                                        digests: Digests, maxRows: nat)
    requires n <= |lines|
    ensures var r := Reads(k, lines, n, names, digests, maxRows);
            var used := Enter(names, FeedNamings(k, lines, n, digests.name));
            && (r.Ok? <==> n <= maxRows && used.Some?)
            && (r.Ok? ==> r.value.names == used.value)
  {
    hide Accepted, Register, Namings;
    if n > 0 {
      ReadsExactly(k, lines, n - 1, names, digests, maxRows);
      var line, before := lines[n - 1], FeedNamings(k, lines, n - 1, digests.name);
      EnterConcat(names, before, LineNamings(k, line, digests.name));
      var used := Enter(names, before);
      if used.Some? && line.Mapped? {
        RegisterEnters(k, line.values, |line.values|, used.value, digests.name);
      }
    }
  }

  lemma {:induction false} BuildsExactly(feeds: seq<Feed>, n: nat, digests: Digests, maxRows: nat)
    requires n <= |feeds|
    ensures var r, used := Builds(feeds, n, digests, maxRows), Enter(map[], AllNamings(feeds, n, digests.name));
            && (r.Ok? <==> (forall i :: 0 <= i < n ==> |feeds[i].lines| <= maxRows) && used.Some?)
            && (r.Ok? ==> r.value.names == used.value)
  {
    hide Reads, Absorb, FeedNamings;
    if n > 0 {
      hide Enter;
      BuildsExactly(feeds, n - 1, digests, maxRows);
      var f, before := feeds[n - 1], AllNamings(feeds, n - 1, digests.name);
      EnterConcat(map[], before, FeedNamings(f.kind, f.lines, |f.lines|, digests.name));
      var used := Enter(map[], before);
      if used.Some? { ReadsExactly(f.kind, f.lines, |f.lines|, used.value, digests, maxRows); }
    }
  }

  predicate Uses(f: Feed, digest: string -> string, p: Naming) { p in FeedNamings(f.kind, f.lines, |f.lines|, digest) }

  lemma {:induction false} NamingFrom(feeds: seq<Feed>, n: nat, digest: string -> string, p: Naming)
    requires n <= |feeds|
    ensures p in AllNamings(feeds, n, digest) <==> exists f :: f in feeds[..n] && Uses(f, digest, p)
  {
    hide FeedNamings;
    if n > 0 {
      NamingFrom(feeds, n - 1, digest, p);
      assert feeds[..n] == feeds[..n - 1] + [feeds[n - 1]];
      assert Uses(feeds[n - 1], digest, p) <==> p in AllNamings(feeds, n, digest)[|AllNamings(feeds, n - 1, digest)|..];
    }
  }

  /** Whether all sources can be read does not depend on their order. */
  lemma SameReading(feeds: seq<Feed>, feeds': seq<Feed>, digests: Digests, maxRows: nat)
    requires forall f :: f in feeds ==> f in feeds'
    requires Builds(feeds', |feeds'|, digests, maxRows).Ok?
    ensures Builds(feeds, |feeds|, digests, maxRows).Ok?
  {
    hide Builds, AllNamings, Enter, Uses;
    var d := digests.name;
    BuildsExactly(feeds, |feeds|, digests, maxRows);
    BuildsExactly(feeds', |feeds'|, digests, maxRows);
    assert feeds[..|feeds|] == feeds && feeds'[..|feeds'|] == feeds';
    forall i | 0 <= i < |feeds| ensures |feeds[i].lines| <= maxRows {
      assert feeds[i] in feeds';
    }
    var used, used' := AllNamings(feeds, |feeds|, d), AllNamings(feeds', |feeds'|, d);
    forall p | p in used ensures p in used' {
      NamingFrom(feeds, |feeds|, d, p);
      NamingFrom(feeds', |feeds'|, d, p);
    }
    EnterExactly(used);
    EnterExactly(used');
  }

  // ---- when anything is left to import -----------------------------------------------------------

  predicate Lists(f: Feed, digests: Digests, a: Item) {
    var records := Records(f.kind, f.lines, |f.lines|, digests);
    a in AssetRows(f.kind, records, |records|)
  }

  lemma {:induction false} AssetFrom(feeds: seq<Feed>, n: nat, digests: Digests, a: Item)
    requires n <= |feeds|
    ensures a in AcceptedAssets(feeds, n, digests) <==> exists f :: f in feeds[..n] && Lists(f, digests, a)
  {
    hide AssetRows, Records;
    if n > 0 {
      AssetFrom(feeds, n - 1, digests, a);
      assert feeds[..n] == feeds[..n - 1] + [feeds[n - 1]];
      assert Lists(feeds[n - 1], digests, a) <==>
             a in AcceptedAssets(feeds, n, digests)[|AcceptedAssets(feeds, n - 1, digests)|..];
    }
  }

  lemma SameAssets(feeds: seq<Feed>, feeds': seq<Feed>, digests: Digests)
    requires forall f :: f in feeds <==> f in feeds'
    ensures forall a :: a in AcceptedAssets(feeds, |feeds|, digests) <==> a in AcceptedAssets(feeds', |feeds'|, digests)
  {
    hide Lists, AcceptedAssets;
    assert feeds[..|feeds|] == feeds && feeds'[..|feeds'|] == feeds';
    forall a ensures a in AcceptedAssets(feeds, |feeds|, digests) <==> a in AcceptedAssets(feeds', |feeds'|, digests) {
      AssetFrom(feeds, |feeds|, digests, a);
      AssetFrom(feeds', |feeds'|, digests, a);
    }
  }

  /** An inventory asset none of whose rows lies beyond the horizon. */
  ghost predicate SafeAsset(rows: seq<Item>, row: Item, now: int) {
    && row in rows
    && forall r :: r in rows && TextAt(r, Id) == TextAt(row, Id) ==> TimeAt(r, ObservedAt) <= now + LEEWAY
  }

  ghost predicate EventLeft(feeds: seq<Feed>, now: int, digests: Digests) {
    exists x :: x in RowSet(feeds, digests) && InTime(x, now)
  }

  ghost predicate AssetLeft(feeds: seq<Feed>, now: int, digests: Digests) {
    exists row :: SafeAsset(AcceptedAssets(feeds, |feeds|, digests), row, now)
  }

  /** Something can be imported: an event in time, or an asset that survives. */
  ghost predicate AnythingLeft(feeds: seq<Feed>, now: int, digests: Digests) {
    EventLeft(feeds, now, digests) || AssetLeft(feeds, now, digests)
  }

  lemma AssetsLeft(feeds: seq<Feed>, now: int, digests: Digests, maxRows: nat)
    requires Builds(feeds, |feeds|, digests, maxRows).Ok?
    ensures Surviving(feeds, now, digests, maxRows) != [] <==> AssetLeft(feeds, now, digests)
  {
    hide Builds, AcceptedAssets, TextAt, TimeAt;
    var rows, left := AcceptedAssets(feeds, |feeds|, digests), Surviving(feeds, now, digests, maxRows);
    if left != [] {
      BuildLatest(feeds, |feeds|, digests, maxRows);
      assert left[0] in left;
      AssetSurvivesExactly(feeds, now, digests, maxRows, left[0]);
      assert SafeAsset(rows, left[0], now);
    }
    if row :| SafeAsset(rows, row, now) {
      AssetSurvivesExactly(feeds, now, digests, maxRows, row);
    }
  }

  lemma EventsLeft(feeds: seq<Feed>, now: int, digests: Digests, maxRows: nat)
    requires Builds(feeds, |feeds|, digests, maxRows).Ok? && Apart(RowSet(feeds, digests), digests)
    ensures Filter(Within(At, now + LEEWAY), Builds(feeds, |feeds|, digests, maxRows).value.store.events) != [] <==>
              EventLeft(feeds, now, digests)
  {
    hide Builds, AcceptedEvents, Apart, Conserved, Renamed, TimeAt, InTime, Filter;
    var st := Builds(feeds, |feeds|, digests, maxRows).value.store;
    BuildConserves(feeds, |feeds|, RowSet(feeds, digests), digests, maxRows);
    var kept := Filter(Within(At, now + LEEWAY), st.events);
    KeptRows(AcceptedEvents(feeds, |feeds|, digests), RowSet(feeds, digests), st, now, digests, kept);
    if kept != [] { assert kept[0] in kept; }
  }

  lemma NothingListed(assets: seq<Item>, shadow: seq<string>, stamp: int)
    ensures assets + ShadowAssets(shadow, stamp) == [] <==> assets == [] && shadow == []
    ensures IdsOf(assets) == {} <==> assets == []
  {
    assert |ShadowAssets(shadow, stamp)| == |shadow|;
    if assets != [] { assert TextAt(assets[0], Id) in IdsOf(assets); }
  }

  /** Events refer to listed assets or to shadows. */
  lemma ShadowsAppear(events: seq<Item>, known: set<string>)
    ensures events != [] ==> known != {} || Shadows(events, |events|, known) != []
    ensures events == [] ==> Shadows(events, |events|, known) == []
  {
  }

  lemma FinishedExactly(feeds: seq<Feed>, b: Build, now: int, asOf: Option<int>)
    requires |feeds| == |b.reports| > 0
    ensures Finished(feeds, b, RecordUnknown, now, asOf).Ok? <==>
              || Filter(Within(ObservedAt, now + LEEWAY), b.store.assets) != []
              || Filter(Within(At, now + LEEWAY), b.store.events) != []
  {
    hide Shadows, Sort, Newest, Filter, Charged, ShadowAssets, IdsOf;
    var events := Filter(Within(At, now + LEEWAY), b.store.events);
    var assets := Filter(Within(ObservedAt, now + LEEWAY), b.store.assets);
    var shadow := Shadows(events, |events|, IdsOf(assets));
    ShadowsAppear(events, IdsOf(assets));
    var newest := Newest(assets, ObservedAt, |assets|, Newest(events, At, |events|, None));
    NothingListed(assets, shadow, if asOf.Some? then asOf.value else if newest.Some? then newest.value else now);
  }

  /** With unknown assets recorded, an import succeeds exactly when every source can be
      read and something is left to import. */
  lemma ImportSucceedsExactly(feeds: seq<Feed>, now: int, asOf: Option<int>, digests: Digests, maxRows: nat)
    requires Apart(RowSet(feeds, digests), digests)
    ensures Imported(feeds, RecordUnknown, now, asOf, digests, maxRows).Ok? <==>
              feeds != [] && Builds(feeds, |feeds|, digests, maxRows).Ok? && AnythingLeft(feeds, now, digests)
  {
    hide Builds, Apart, EventLeft, AssetLeft, Filter, Finished;
    if feeds != [] && Builds(feeds, |feeds|, digests, maxRows).Ok? {
      OneReportEach(feeds, |feeds|, digests, maxRows);
      AssetsLeft(feeds, now, digests, maxRows);
      EventsLeft(feeds, now, digests, maxRows);
      FinishedExactly(feeds, Builds(feeds, |feeds|, digests, maxRows).value, now, asOf);
    }
  }

  lemma SameLeft(feeds: seq<Feed>, feeds': seq<Feed>, now: int, digests: Digests)
    requires RowSet(feeds, digests) == RowSet(feeds', digests)
    requires forall a :: a in AcceptedAssets(feeds, |feeds|, digests) <==>
               a in AcceptedAssets(feeds', |feeds'|, digests)
    ensures AnythingLeft(feeds, now, digests) <==> AnythingLeft(feeds', now, digests)
  {
    hide RowSet, AcceptedAssets, InTime, TextAt, TimeAt;
    var rows, rows' := AcceptedAssets(feeds, |feeds|, digests), AcceptedAssets(feeds', |feeds'|, digests);
    forall row ensures SafeAsset(rows, row, now) <==> SafeAsset(rows', row, now) {}
  }

  /** Reading the same sources in another order may move identifiers from one event to
      another, but the import succeeds in both orders or in neither, and the contents
      imported are the same. */
  lemma OrderOfSourcesIrrelevant(feeds: seq<Feed>, feeds': seq<Feed>, now: int, asOf: Option<int>, digests: Digests,
                                 maxRows: nat, c: Item)
    requires (forall f :: f in feeds <==> f in feeds') && Apart(RowSet(feeds, digests), digests)
    ensures var r := Imported(feeds, RecordUnknown, now, asOf, digests, maxRows);
            var r' := Imported(feeds', RecordUnknown, now, asOf, digests, maxRows);
            && (r.Ok? <==> r'.Ok?)
            && (r.Ok? ==> ((exists e :: e in r.value.document.events && Content(e) == c) <==>
                           (exists e :: e in r'.value.document.events && Content(e) == c)))
  {
    hide Imported, RowSet, Apart, Builds, AcceptedAssets, InTime;
    SameRows(feeds, feeds', digests);
    SameAssets(feeds, feeds', digests);
    if Builds(feeds', |feeds'|, digests, maxRows).Ok? { SameReading(feeds, feeds', digests, maxRows); }
    if Builds(feeds, |feeds|, digests, maxRows).Ok? { SameReading(feeds', feeds, digests, maxRows); }
    ImportSucceedsExactly(feeds, now, asOf, digests, maxRows);
    ImportSucceedsExactly(feeds', now, asOf, digests, maxRows);
    SameLeft(feeds, feeds', now, digests);
    if feeds != [] { assert feeds[0] in feeds'; }
    if feeds' != [] { assert feeds'[0] in feeds; }
    if Imported(feeds, RecordUnknown, now, asOf, digests, maxRows).Ok? {
      ContentsKept(feeds, now, asOf, digests, maxRows, c);
      ContentsKept(feeds', now, asOf, digests, maxRows, c);
    }
  }
}
