/** What an imported snapshot lists, and under which time: inventory assets, assets known
    only from traffic, and events, under either policy (aisecure/connectors/importer.py). */
module Listing {
  import opened Common
  import opened Ordering
  import opened Normalizer
  import opened Snapshots
  import opened Importer
  import opened Conservation
  import opened Accounting
  import opened ImportOrigins
  import opened Boundary

  /** The asset an event names. */
  function TargetName(e: Item): string {
    if Type in e && e[Type] == Text("login") then TextAt(e, GatewayId) else TextAt(e, AssetId)
  }

  /** An asset of which nothing is known but its identifier. */
  predicate NothingKnown(a: Item, id: string, asOf: int) {
    && a.Keys == {Id, AssetKind, PatchState, ObservedAt, Weakness, InternetExposed, PrivilegedPath, SensitivePath}
    && a[Id] == Text(id) && a[AssetKind] == Text("unknown") && a[PatchState] == Text("unknown")
    && a[ObservedAt] == Time(asOf) && a[Weakness] == Null && a[InternetExposed] == Null
    && a[PrivilegedPath] == Null && a[SensitivePath] == Null
  }

  /** The inventory row observed last of its asset, and not beyond the horizon. */
  ghost predicate LatestRow(feeds: seq<Feed>, a: Item, now: int, digests: Digests) {
    var rows := AcceptedAssets(feeds, |feeds|, digests);
    && a in rows && TimeAt(a, ObservedAt) <= now + 300
    && forall r :: r in rows && TextAt(r, Id) == TextAt(a, Id) ==> TimeAt(r, ObservedAt) <= TimeAt(a, ObservedAt)
  }

  // ---- the parts of a snapshot -------------------------------------------------------------

  /** The combined sources, what of them lies within the horizon, and the snapshot's parts. */
  ghost predicate Parts(feeds: seq<Feed>, policy: Policy, now: int, asOf: Option<int>, digests: Digests, maxRows: nat,
                        st: Store, events: seq<Item>, assets: seq<Item>, shadow: seq<string>) {
    && Builds(feeds, |feeds|, digests, maxRows).Ok? && st == Builds(feeds, |feeds|, digests, maxRows).value.store
    && events == Filter(Within(At, now + LEEWAY), st.events)
    && assets == Filter(Within(ObservedAt, now + LEEWAY), st.assets)
    && shadow == Shadows(events, |events|, IdsOf(assets))
    && var r := Imported(feeds, policy, now, asOf, digests, maxRows);
       && r.Ok? && r.value.shadow == Sort(BY_TEXT, shadow)
       && (r.value.document.asOf == if asOf.Some? then asOf.value else StampOf(events, assets, now))
       && (r.value.document.assets ==
           Sort(BY_NAME, if policy.RecordUnknown? then assets + ShadowAssets(shadow, r.value.document.asOf)
                         else assets))
       && (r.value.document.events ==
           Sort(BY_EVENT, if policy.SkipUnknown? then Filter(Known(IdsOf(assets)), events) else events))
  }

  lemma TakeApart(feeds: seq<Feed>, policy: Policy, now: int, asOf: Option<int>, digests: Digests, maxRows: nat)
    returns (st: Store, events: seq<Item>, assets: seq<Item>, shadow: seq<string>)
    requires Imported(feeds, policy, now, asOf, digests, maxRows).Ok?
    ensures Parts(feeds, policy, now, asOf, digests, maxRows, st, events, assets, shadow)
  {
    hide Builds, Shadows, Newest, Charged, Sort, Filter, IdsOf, ShadowAssets;
    st := Builds(feeds, |feeds|, digests, maxRows).value.store;
    events := Filter(Within(At, now + LEEWAY), st.events);
    assets := Filter(Within(ObservedAt, now + LEEWAY), st.assets);
    shadow := Shadows(events, |events|, IdsOf(assets));
  }

  lemma SortKeeps(key: Item -> Stamp, xs: seq<Item>)
    ensures forall x :: x in Sort(key, xs) <==> x in xs
    ensures Sorted(key, Sort(key, xs))
  {
    SortPermutes(key, xs);
    SortSorted(key, xs);
    assert forall x :: x in Sort(key, xs) <==> x in multiset(Sort(key, xs));
    assert forall x :: x in xs <==> x in multiset(xs);
  }

  lemma TargetIsReference(e: Item)
    ensures TargetName(e) == RefersTo(e) || (Type in e && !e[Type].Text?)
  {
  }

  lemma ShadowListed(ids: seq<string>, asOf: int)
    ensures forall a :: a in ShadowAssets(ids, asOf) <==> exists id :: id in ids && NothingKnown(a, id, asOf)
  {
    var all := ShadowAssets(ids, asOf);
    forall a | a in all ensures exists id :: id in ids && NothingKnown(a, id, asOf) {
      var i :| 0 <= i < |all| && all[i] == a;
      assert NothingKnown(a, ids[i], asOf);
    }
    forall a | exists id :: id in ids && NothingKnown(a, id, asOf) ensures a in all {
      var id :| id in ids && NothingKnown(a, id, asOf);
      var i :| 0 <= i < |ids| && ids[i] == id;
      assert all[i] == a;
    }
  }

  // ---- assets --------------------------------------------------------------------------------

  lemma SurvivingAreLatest(feeds: seq<Feed>, now: int, digests: Digests, maxRows: nat)
    requires Builds(feeds, |feeds|, digests, maxRows).Ok?
    ensures forall a :: a in Surviving(feeds, now, digests, maxRows) ==>
              LatestRow(feeds, a, now, digests) && AssetFromLine(feeds, a, digests)
  {
    hide Builds, AcceptedAssets, TextAt, TimeAt, AssetFromLine;
    BuildLatest(feeds, |feeds|, digests, maxRows);
    forall a | a in Surviving(feeds, now, digests, maxRows)
      ensures LatestRow(feeds, a, now, digests) && AssetFromLine(feeds, a, digests)
    {
      InventorySays(feeds, digests, a);
      forall r | r in AcceptedAssets(feeds, |feeds|, digests) && TextAt(r, Id) == TextAt(a, Id)
        ensures TimeAt(r, ObservedAt) <= TimeAt(a, ObservedAt)
      {
        assert NotNewer(r, a);
      }
    }
  }

  /** Every listed asset is the row observed last of an inventory line, said field by field,
      or, when unknown assets are recorded, one that events name and nothing else is known
      of. Every inventory asset without a row beyond the horizon is listed. */
  lemma AssetsListed(feeds: seq<Feed>, policy: Policy, now: int, asOf: Option<int>, digests: Digests, maxRows: nat)
    requires Imported(feeds, policy, now, asOf, digests, maxRows).Ok?
    ensures var d := Imported(feeds, policy, now, asOf, digests, maxRows).value.document;
            && (forall a :: a in d.assets ==>
                  || (LatestRow(feeds, a, now, digests) && AssetFromLine(feeds, a, digests))
                  || (policy == RecordUnknown && NothingKnown(a, TextAt(a, Id), d.asOf)
                      && exists e :: e in d.events && RefersTo(e) == TextAt(a, Id)))
            && (forall row :: row in AcceptedAssets(feeds, |feeds|, digests)
                              && (forall r :: r in AcceptedAssets(feeds, |feeds|, digests)
                                              && TextAt(r, Id) == TextAt(row, Id) ==>
                                              TimeAt(r, ObservedAt) <= now + 300) ==>
                  exists a :: a in d.assets && LatestRow(feeds, a, now, digests) && TextAt(a, Id) == TextAt(row, Id))
  {
    hide Imported, Builds, AcceptedAssets, AssetFromLine, LatestRow, Sort, Filter, Shadows, ShadowAssets, StampOf;
    hide TextAt, TimeAt, RefersTo;
    var st, events, assets, shadow := TakeApart(feeds, policy, now, asOf, digests, maxRows);
    var d := Imported(feeds, policy, now, asOf, digests, maxRows).value.document;
    var all := if policy.RecordUnknown? then assets + ShadowAssets(shadow, d.asOf) else assets;
    SortKeeps(BY_NAME, all);
    SortKeeps(BY_EVENT, if policy.SkipUnknown? then Filter(Known(IdsOf(assets)), events) else events);
    SurvivingAreLatest(feeds, now, digests, maxRows);
    ShadowsCover(events, |events|, IdsOf(assets));
    ShadowListed(shadow, d.asOf);
    forall a | a in d.assets && a !in assets
      ensures policy == RecordUnknown && NothingKnown(a, TextAt(a, Id), d.asOf)
      ensures exists e :: e in d.events && RefersTo(e) == TextAt(a, Id)
    {
      var id :| id in shadow && NothingKnown(a, id, d.asOf);
      NamedBy(a, id, d.asOf);
      var i :| 0 <= i < |events| && RefersTo(events[i]) == id;
      assert events[i] in d.events;
    }
    forall row | row in AcceptedAssets(feeds, |feeds|, digests)
                 && forall r :: r in AcceptedAssets(feeds, |feeds|, digests) && TextAt(r, Id) == TextAt(row, Id) ==>
                                  TimeAt(r, ObservedAt) <= now + 300
      ensures exists a :: a in d.assets && LatestRow(feeds, a, now, digests) && TextAt(a, Id) == TextAt(row, Id)
    {
      AssetSurvivesExactly(feeds, now, digests, maxRows, row);
      var a :| a in assets && TextAt(a, Id) == TextAt(row, Id);
      assert a in d.assets;
    }
  }

  lemma NamedBy(a: Item, id: string, asOf: int)
    requires NothingKnown(a, id, asOf)
    ensures TextAt(a, Id) == id
  {
  }

  // ---- events --------------------------------------------------------------------------------

  /** The events listed are the stored ones within the horizon; when unknown assets are
      skipped, exactly those of them that name a listed asset. Every event names a listed
      asset either way. */
  lemma EventsListed(feeds: seq<Feed>, policy: Policy, now: int, asOf: Option<int>, digests: Digests, maxRows: nat)
    requires Imported(feeds, policy, now, asOf, digests, maxRows).Ok?
    ensures Builds(feeds, |feeds|, digests, maxRows).Ok?
    ensures var d := Imported(feeds, policy, now, asOf, digests, maxRows).value.document;
            var stored := Builds(feeds, |feeds|, digests, maxRows).value.store.events;
            forall e :: e in d.events <==>
                          && e in stored && TimeAt(e, At) <= now + 300
                          && (policy == SkipUnknown ==> exists a :: a in d.assets && TextAt(a, Id) == RefersTo(e))
  {
    hide Imported, Builds, Sort, Shadows, ShadowAssets, StampOf, TextAt, TimeAt, RefersTo;
    var st, events, assets, shadow := TakeApart(feeds, policy, now, asOf, digests, maxRows);
    var d := Imported(feeds, policy, now, asOf, digests, maxRows).value.document;
    SortKeeps(BY_NAME, if policy.RecordUnknown? then assets + ShadowAssets(shadow, d.asOf) else assets);
    SortKeeps(BY_EVENT, if policy.SkipUnknown? then Filter(Known(IdsOf(assets)), events) else events);
    assert policy.SkipUnknown? ==> forall e :: RefersTo(e) in IdsOf(assets) <==>
                                                 exists a :: a in d.assets && TextAt(a, Id) == RefersTo(e);
  }

  /** Under the policy that skips unknown assets, an accepted log row in time is listed, as it
      is or renamed, exactly when it names a listed asset, and nothing else is listed. */
  lemma SkippingKeepsExactly(feeds: seq<Feed>, now: int, asOf: Option<int>, digests: Digests, maxRows: nat)
    requires Imported(feeds, SkipUnknown, now, asOf, digests, maxRows).Ok? && Apart(RowSet(feeds, digests), digests)
    ensures var d := Imported(feeds, SkipUnknown, now, asOf, digests, maxRows).value.document;
            && (forall x :: x in RowSet(feeds, digests) && InTime(x, now) ==>
                  ((x in d.events || Renamed(x, digests) in d.events) <==>
                   exists a :: a in d.assets && TextAt(a, Id) == RefersTo(x)))
            && (forall e :: e in d.events ==>
                  exists x :: x in RowSet(feeds, digests) && InTime(x, now) && Original(e, x, digests))
  {
    hide Imported, Builds, AcceptedEvents, Apart, Conserved, Renamed, RefersTo, TextAt, TimeAt;
    var d := Imported(feeds, SkipUnknown, now, asOf, digests, maxRows).value.document;
    EventsListed(feeds, SkipUnknown, now, asOf, digests, maxRows);
    BuildConserves(feeds, |feeds|, RowSet(feeds, digests), digests, maxRows);
    var st := Builds(feeds, |feeds|, digests, maxRows).value.store;
    var kept := Filter(Within(At, now + LEEWAY), st.events);
    KeptRows(AcceptedEvents(feeds, |feeds|, digests), RowSet(feeds, digests), st, now, digests, kept);
    forall x | x in RowSet(feeds, digests) && InTime(x, now)
      ensures (x in d.events || Renamed(x, digests) in d.events) <==>
                exists a :: a in d.assets && TextAt(a, Id) == RefersTo(x)
    {
      SameTime(x, digests);
      SameReference(x, digests);
      assert x in kept || Renamed(x, digests) in kept;
    }
    forall e | e in d.events ensures e in kept {}
  }

  lemma SameReference(x: Item, digests: Digests)
    ensures RefersTo(Renamed(x, digests)) == RefersTo(x)
  {
  }

  /** Every listed event is what a log line says, field by field, under its own identifier or
      its new one, and names the gateway or the asset that the line names. */
  lemma EventsSaid(feeds: seq<Feed>, policy: Policy, now: int, asOf: Option<int>, digests: Digests, maxRows: nat)
    requires Imported(feeds, policy, now, asOf, digests, maxRows).Ok? && Apart(RowSet(feeds, digests), digests)
    ensures var d := Imported(feeds, policy, now, asOf, digests, maxRows).value.document;
            forall e :: e in d.events ==>
              && RefersTo(e) == TargetName(e)
              && exists x :: EventFromLine(feeds, x, digests) && SameOrRenamed(e, x, digests)
  {
    hide Imported, Builds, AcceptedEvents, Apart, Conserved, RefersTo, TargetName, EventFromLine, SameOrRenamed;
    var d := Imported(feeds, policy, now, asOf, digests, maxRows).value.document;
    EventsListed(feeds, policy, now, asOf, digests, maxRows);
    BuildConserves(feeds, |feeds|, RowSet(feeds, digests), digests, maxRows);
    var st := Builds(feeds, |feeds|, digests, maxRows).value.store;
    var kept := Filter(Within(At, now + LEEWAY), st.events);
    KeptRows(AcceptedEvents(feeds, |feeds|, digests), RowSet(feeds, digests), st, now, digests, kept);
    forall e | e in d.events
      ensures RefersTo(e) == TargetName(e)
      ensures exists x :: EventFromLine(feeds, x, digests) && SameOrRenamed(e, x, digests)
    {
      assert e in kept;
      var x :| x in RowSet(feeds, digests) && InTime(x, now) && Original(e, x, digests);
      RowSays(feeds, digests, x);
      RenamedAsSaid(feeds, e, x, digests);
    }
  }

  lemma RenamedAsSaid(feeds: seq<Feed>, e: Item, x: Item, digests: Digests)
    requires EventFromLine(feeds, x, digests) && Original(e, x, digests)
    ensures SameOrRenamed(e, x, digests) && RefersTo(e) == TargetName(e)
  {
    hide Says, Said, Derived, Mappable, AllTaken;
    var f, l :| f in feeds && l in f.lines && EventSays(f.kind, l, x, digests);
    IdSaid(f.kind, l, x - {Type}, digests);
  }

  lemma IdSaid(k: RecordKind, line: Line, r: Item, digests: Digests)
    requires Says(k, line, r, digests)
    ensures Id in r && r[Id].Text?
  {
    hide Mappable, AllTaken;
  }

  // ---- gaps and sources ------------------------------------------------------------------------

  /** A stored event within the horizon. */
  predicate StoredInTime(st: Store, e: Item, now: int) { e in st.events && TimeAt(e, At) <= now + 300 }

  /** The gaps reported are the identifiers, each once and in order, that events in time name
      and no surviving inventory asset has. The sources are told with their names, their hashes
      and the lines read and imported. */
  lemma GapsAndSources(feeds: seq<Feed>, policy: Policy, now: int, asOf: Option<int>, digests: Digests, maxRows: nat)
    requires Imported(feeds, policy, now, asOf, digests, maxRows).Ok?
    ensures Builds(feeds, |feeds|, digests, maxRows).Ok?
    ensures var s := Imported(feeds, policy, now, asOf, digests, maxRows).value;
            var st := Builds(feeds, |feeds|, digests, maxRows).value.store;
            && (forall id :: id in s.shadow <==>
                  && (exists e :: StoredInTime(st, e, now) && RefersTo(e) == id)
                  && !exists a :: a in Surviving(feeds, now, digests, maxRows) && TextAt(a, Id) == id)
            && (forall i, j :: 0 <= i < j < |s.shadow| ==> TextLess(s.shadow[i], s.shadow[j]))
            && |s.document.provenance| == |s.reports| == |feeds|
            && forall i :: 0 <= i < |feeds| ==>
                 var p := s.document.provenance[i];
                 && p.name == feeds[i].name && p.sha256 == feeds[i].sha256
                 && p.rowsRead == |feeds[i].lines| && p.rowsImported == s.reports[i].imported
  {
    hide Imported, Builds, Sort, Filter, Shadows, TextAt, TimeAt, RefersTo, ShadowAssets, StampOf;
    var st, events, assets, shadow := TakeApart(feeds, policy, now, asOf, digests, maxRows);
    assert forall e :: e in events <==> StoredInTime(st, e, now);
    GapsOf(events, IdsOf(assets));
    assert Imported(feeds, policy, now, asOf, digests, maxRows).value.shadow == Sort(BY_TEXT, shadow);
    assert shadow == Shadows(events, |events|, IdsOf(assets));
    RowsAddUp(feeds, policy, now, asOf, digests, maxRows);
    SourcesTold(feeds, policy, now, asOf, digests, maxRows);
  }

  lemma SourcesTold(feeds: seq<Feed>, policy: Policy, now: int, asOf: Option<int>, digests: Digests, maxRows: nat)
    requires Imported(feeds, policy, now, asOf, digests, maxRows).Ok?
    ensures var s := Imported(feeds, policy, now, asOf, digests, maxRows).value;
            && |s.document.provenance| == |s.reports| == |feeds|
            && forall i :: 0 <= i < |feeds| ==>
                 s.document.provenance[i] ==
                 Source(feeds[i].name, feeds[i].sha256, s.reports[i].read, s.reports[i].imported)
  {
    hide Builds, Sort, Filter, Shadows, TextAt, TimeAt, RefersTo, Newest, ShadowAssets, IdsOf;
    OneReportEach(feeds, |feeds|, digests, maxRows);
  }

  lemma GapsOf(events: seq<Item>, known: set<string>)
    ensures var gaps := Sort(BY_TEXT, Shadows(events, |events|, known));
            && (forall id :: id in gaps <==> id !in known && exists e :: e in events && RefersTo(e) == id)
            && forall i, j :: 0 <= i < j < |gaps| ==> TextLess(gaps[i], gaps[j])
  {
    hide RefersTo, Sort, Shadows;
    var shadow := Shadows(events, |events|, known);
    ShadowsCover(events, |events|, known);
    SortPermutes(BY_TEXT, shadow);
    SortStrict(BY_TEXT, shadow);
    var gaps := Sort(BY_TEXT, shadow);
    assert forall id :: id in gaps <==> id in multiset(gaps);
    assert forall id :: id in shadow <==> id in multiset(shadow);
    forall id | id !in known && exists e :: e in events && RefersTo(e) == id ensures id in gaps {
      var e :| e in events && RefersTo(e) == id;
      var i :| 0 <= i < |events| && events[i] == e;
    }
    forall id | id in gaps ensures id !in known && exists e :: e in events && RefersTo(e) == id {
      var i :| 0 <= i < |events| && RefersTo(events[i]) == id;
      assert events[i] in events;
    }
  }

  // ---- time and order --------------------------------------------------------------------------

  lemma StampTaken(events: seq<Item>, assets: seq<Item>, now: int)
    ensures var stamp := StampOf(events, assets, now);
            || (exists e :: e in events && TimeAt(e, At) == stamp)
            || (exists a :: a in assets && TimeAt(a, ObservedAt) == stamp)
            || (events == [] && assets == [] && stamp == now)
  {
    hide TimeAt, Newest;
    var latest := Newest(events, At, |events|, None);
    NewestIsLatest(events, At, |events|, None);
    NewestIsLatest(assets, ObservedAt, |assets|, latest);
    var newest := Newest(assets, ObservedAt, |assets|, latest);
    if newest.Some? {
      if newest == latest {
        var i :| 0 <= i < |events| && TimeAt(events[i], At) == latest.value;
        assert events[i] in events;
      } else {
        var i :| 0 <= i < |assets| && TimeAt(assets[i], ObservedAt) == newest.value;
        assert assets[i] in assets;
      }
    }
  }

  /** A snapshot without a given time takes the latest time of a stored event in time or of a
      surviving asset, or the current one if there is neither; it lists assets by identifier
      and events by time. */
  lemma TimeAndOrder(feeds: seq<Feed>, policy: Policy, now: int, asOf: Option<int>, digests: Digests, maxRows: nat)
    requires Imported(feeds, policy, now, asOf, digests, maxRows).Ok?
    ensures Builds(feeds, |feeds|, digests, maxRows).Ok?
    ensures var d := Imported(feeds, policy, now, asOf, digests, maxRows).value.document;
            && (asOf.Some? ==> d.asOf == asOf.value)
            && (asOf.None? ==>
                  var st, assets := Builds(feeds, |feeds|, digests, maxRows).value.store,
                                    Surviving(feeds, now, digests, maxRows);
                  && (forall e :: StoredInTime(st, e, now) ==> TimeAt(e, At) <= d.asOf)
                  && (forall a :: a in assets ==> TimeAt(a, ObservedAt) <= d.asOf)
                  && (|| (exists e :: StoredInTime(st, e, now) && TimeAt(e, At) == d.asOf)
                      || (exists a :: a in assets && TimeAt(a, ObservedAt) == d.asOf)
                      || ((forall e :: !StoredInTime(st, e, now)) && assets == [] && d.asOf == now)))
            && (forall i, j :: 0 <= i < j < |d.assets| ==> !TextLess(TextAt(d.assets[j], Id), TextAt(d.assets[i], Id)))
            && (forall i, j :: 0 <= i < j < |d.events| ==> TimeAt(d.events[i], At) <= TimeAt(d.events[j], At))
  {
    hide Imported, Builds, Sort, Filter, Shadows, TextAt, TimeAt, StampOf;
    var st, events, assets, shadow := TakeApart(feeds, policy, now, asOf, digests, maxRows);
    var d := Imported(feeds, policy, now, asOf, digests, maxRows).value.document;
    var all := if policy.RecordUnknown? then assets + ShadowAssets(shadow, d.asOf) else assets;
    var kept := if policy.SkipUnknown? then Filter(Known(IdsOf(assets)), events) else events;
    SortKeeps(BY_NAME, all);
    SortKeeps(BY_EVENT, kept);
    assert forall e :: e in events <==> StoredInTime(st, e, now);
    if asOf.None? {
      StampCovers(events, assets, now);
      StampTaken(events, assets, now);
    }
    SurelySorted(d.assets, d.events);
  }

  lemma SurelySorted(assets: seq<Item>, events: seq<Item>)
    requires Sorted(BY_NAME, assets) && Sorted(BY_EVENT, events)
    ensures forall i, j :: 0 <= i < j < |assets| ==> !TextLess(TextAt(assets[j], Id), TextAt(assets[i], Id))
    ensures forall i, j :: 0 <= i < j < |events| ==> TimeAt(events[i], At) <= TimeAt(events[j], At)
  {
  }
}
