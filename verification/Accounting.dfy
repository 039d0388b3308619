/** The counters and the inventory of an import (aisecure/connectors/importer.py): what
    the row counts add up to, and which row of an asset survives. */
module Accounting {
  import opened Common
  import opened Ordering
  import opened Normalizer
  import opened Snapshots
  import opened Importer
  import opened Conservation

  predicate Balanced(r: Report) { r.read == r.imported + r.skipped }

  lemma {:induction false} ReadsAccounted(k: RecordKind, lines: seq<Line>, n: nat, names: map<string, string>,
                                          digests: Digests, maxRows: nat)
    requires n <= |lines| && Reads(k, lines, n, names, digests, maxRows).Ok?
    ensures var r := Reads(k, lines, n, names, digests, maxRows).value;
            && Balanced(r.report) && r.report.read == n && r.report.imported == |r.records| && r.report.skipped >= 0
            && (n == 0 || n <= maxRows)
  {
    hide Accepted, Register;
    if n > 0 { ReadsAccounted(k, lines, n - 1, names, digests, maxRows); }
  }

  /** Deduplication moves rows from imported to skipped; what stays imported is what the
      source added to the store. */
  lemma {:induction false} AbsorbAccounted(k: RecordKind, st: Store, report: Report, records: seq<Item>, n: nat,
                                           digests: Digests)
    requires n <= |records|
    ensures var (st', report') := Absorb(k, st, report, records, n, digests);
            && report'.read == report.read && report'.imported + report'.skipped == report.imported + report.skipped
            && report.imported - n <= report'.imported <= report.imported
            && |st.events| <= |st'.events|
            && (!k.Inventory? ==> report'.imported - (report.imported - n) == |st'.events| - |st.events|)
            && (k.Inventory? ==> report' == report && st'.events == st.events)
  {
    hide Put, AssetOf, EventOf, Renamed, TextAt;
    if n > 0 { AbsorbAccounted(k, st, report, records, n - 1, digests); }
  }

  /** Every source's rows are accounted for, none counted below zero, until rows beyond
      the horizon are dropped. */
  lemma {:induction false} BuildAccounted(feeds: seq<Feed>, n: nat, digests: Digests, maxRows: nat)
    requires n <= |feeds| && Builds(feeds, n, digests, maxRows).Ok?
    ensures var reports := Builds(feeds, n, digests, maxRows).value.reports;
            |reports| == n && forall i :: 0 <= i < n ==> Accounted(reports[i], feeds[i], maxRows)
  {
    hide Reads, Absorb;
    if n > 0 {
      BuildAccounted(feeds, n - 1, digests, maxRows);
      var f, b := feeds[n - 1], Builds(feeds, n - 1, digests, maxRows).value;
      ReadsAccounted(f.kind, f.lines, |f.lines|, b.names, digests, maxRows);
      var r := Reads(f.kind, f.lines, |f.lines|, b.names, digests, maxRows).value;
      AbsorbAccounted(f.kind, b.store, r.report, r.records, |r.records|, digests);
      assert Accounted(Builds(feeds, n, digests, maxRows).value.reports[n - 1], f, maxRows);
    }
  }

  predicate Accounted(r: Report, f: Feed, maxRows: nat) {
    Balanced(r) && r.read == |f.lines| && (r.read > 0 ==> r.read <= maxRows) && 0 <= r.imported && 0 <= r.skipped
  }

  function Surplus(reports: seq<Report>): int {
    if reports == [] then 0
    else
      var last := reports[|reports| - 1];
      Surplus(reports[..|reports| - 1]) + last.imported + last.skipped - last.read
  }

  lemma {:induction false} NoSurplus(reports: seq<Report>)
    requires forall i :: 0 <= i < |reports| ==> Balanced(reports[i])
    ensures Surplus(reports) == 0
  {
    if reports != [] { NoSurplus(reports[..|reports| - 1]); }
  }

  /** Number of stored events beyond the horizon. */
  function FutureRows(b: Build, now: int): nat {
    |b.store.events| - |Filter(Within(At, now + LEEWAY), b.store.events)|
  }

  /** After the horizon filter, imported and skipped rows add up to the rows read exactly
      when the last source had imported at least as many rows as were dropped, since all
      of them are charged to that source. */
  lemma RowsAddUp(feeds: seq<Feed>, policy: Policy, now: int, asOf: Option<int>, digests: Digests, maxRows: nat)
    requires Imported(feeds, policy, now, asOf, digests, maxRows).Ok?
    ensures var reports := Imported(feeds, policy, now, asOf, digests, maxRows).value.reports;
            var b := Builds(feeds, |feeds|, digests, maxRows);
            && |reports| == |feeds| && b.Ok? && |b.value.reports| == |feeds|
            && (forall i :: 0 <= i < |feeds| - 1 ==> reports[i] == b.value.reports[i] && Balanced(reports[i]))
            && (Surplus(reports) == 0 <==> FutureRows(b.value, now) <= b.value.reports[|feeds| - 1].imported)
            && (forall i :: 0 <= i < |feeds| ==>
                  reports[i].read == |feeds[i].lines| && 0 <= reports[i].imported <= reports[i].read)
  {
    hide Builds, Filter, Sort, Shadows, Newest;
    BuildAccounted(feeds, |feeds|, digests, maxRows);
    var before := Builds(feeds, |feeds|, digests, maxRows).value.reports;
    var future := FutureRows(Builds(feeds, |feeds|, digests, maxRows).value, now);
    var after := Charged(before, future);
    assert before[..|feeds| - 1] == after[..|feeds| - 1];
    NoSurplus(before[..|feeds| - 1]);
    NoSurplus(before);
  }

  // ---- the inventory -----------------------------------------------------------------------------

  function AssetRows(k: RecordKind, records: seq<Item>, n: nat): seq<Item>
    requires n <= |records|
  {
    if n == 0 then [] else AssetRows(k, records, n - 1) + if k.Inventory? then [AssetOf(records[n - 1])] else []
  }

  function AcceptedAssets(feeds: seq<Feed>, n: nat, digests: Digests): seq<Item>
    requires n <= |feeds|
  {
    if n == 0 then []
    else
      var f := feeds[n - 1];
      var records := Records(f.kind, f.lines, |f.lines|, digests);
      AcceptedAssets(feeds, n - 1, digests) + AssetRows(f.kind, records, |records|)
  }

  predicate NotNewer(r: Item, a: Item) {
    TextAt(r, Id) == TextAt(a, Id) ==> TimeAt(r, ObservedAt) <= TimeAt(a, ObservedAt)
  }

  /** One row is kept for each asset, and none of its rows was observed later. */
  ghost predicate Latest(rows: seq<Item>, assets: seq<Item>) {
    && DistinctIds(assets)
    && (forall a :: a in assets ==> a in rows)
    && (forall r :: r in rows ==> TextAt(r, Id) in IdsOf(assets))
    && (forall r, a :: r in rows && a in assets ==> NotNewer(r, a))
  }

  lemma {:induction false} PutIds(assets: seq<Item>, asset: Item)
    ensures IdsOf(Put(assets, asset)) == IdsOf(assets) + {TextAt(asset, Id)}
    ensures DistinctIds(assets) ==> DistinctIds(Put(assets, asset))
    ensures forall a :: a in Put(assets, asset) ==> a == asset || a in assets
  {
    hide TextAt, TimeAt;
    if assets != [] {
      var init, last := assets[..|assets| - 1], assets[|assets| - 1];
      assert assets == init + [last] && IdsOf(assets) == IdsOf(init) + {TextAt(last, Id)};
      PutIds(init, asset);
      if TextAt(last, Id) != TextAt(asset, Id) {
        PutElsewhere(init, last, asset);
      } else if TimeAt(asset, ObservedAt) >= TimeAt(last, ObservedAt) {
        assert IdsOf(init + [asset]) == IdsOf(init) + {TextAt(asset, Id)};
      }
    }
  }

  lemma PutElsewhere(init: seq<Item>, last: Item, asset: Item)
    requires TextAt(last, Id) != TextAt(asset, Id)
    requires IdsOf(Put(init, asset)) == IdsOf(init) + {TextAt(asset, Id)}
    requires DistinctIds(init) ==> DistinctIds(Put(init, asset))
    ensures IdsOf(Put(init, asset) + [last]) == IdsOf(init) + {TextAt(last, Id), TextAt(asset, Id)}
    ensures DistinctIds(init + [last]) ==> DistinctIds(Put(init, asset) + [last])
  {
    hide TextAt, Put;
    var put := Put(init, asset);
    assert IdsOf(put + [last]) == IdsOf(put) + {TextAt(last, Id)};
    if DistinctIds(init + [last]) {
      LastApart(init, last);
      forall i | 0 <= i < |put| ensures TextAt(put[i], Id) in IdsOf(init) + {TextAt(asset, Id)} {
        assert put[i] in put;
      }
    }
  }

  lemma LastDiffers(init: seq<Item>, last: Item)
    requires DistinctIds(init + [last])
    ensures DistinctIds(init) && forall a :: a in init ==> TextAt(a, Id) != TextAt(last, Id)
    ensures forall a, b :: a in init && b in init && TextAt(a, Id) == TextAt(b, Id) ==> a == b
  {
    hide TextAt;
    LastApart(init, last);
    forall a | a in init ensures TextAt(a, Id) != TextAt(last, Id) {
      assert TextAt(a, Id) in IdsOf(init);
    }
    forall a, b | a in init && b in init && TextAt(a, Id) == TextAt(b, Id) ensures a == b {
      var i :| 0 <= i < |init| && init[i] == a;
      var j :| 0 <= j < |init| && init[j] == b;
      assert !(i < j) && !(j < i);
    }
  }

  /** `Put` keeps the row observed last; of rows observed at the same time, the one read
      last. */
  lemma {:induction false} PutKeepsNewest(assets: seq<Item>, asset: Item)
    requires DistinctIds(assets)
    ensures forall a :: a in Put(assets, asset) ==> NotNewer(asset, a)
    ensures forall a, b :: a in assets && b in Put(assets, asset) ==> NotNewer(a, b)
    ensures asset in Put(assets, asset) <==> forall a :: a in assets ==> a == asset || NotNewer(a, asset)
  {
    hide TextAt, TimeAt, DistinctIds, IdsOf;
    if assets != [] {
      var init, last := assets[..|assets| - 1], assets[|assets| - 1];
      assert assets == init + [last];
      LastDiffers(init, last);
      PutKeepsNewest(init, asset);
      PutIds(init, asset);
      assert forall a :: a in assets <==> a in init || a == last;
    }
  }

  lemma PutLatest(rows: seq<Item>, assets: seq<Item>, asset: Item)
    requires Latest(rows, assets)
    ensures Latest(rows + [asset], Put(assets, asset))
  {
    hide TextAt, TimeAt, Put;
    var put := Put(assets, asset);
    PutIds(assets, asset);
    PutKeepsNewest(assets, asset);
    forall r, a | r in rows + [asset] && a in put ensures NotNewer(r, a) {
      if r in rows && TextAt(r, Id) == TextAt(a, Id) {
        assert TextAt(r, Id) in IdsOf(assets);
        var b :| b in assets && TextAt(b, Id) == TextAt(r, Id);
        assert NotNewer(r, b) && NotNewer(b, a);
      }
    }
  }

  lemma {:induction false} AbsorbLatest(k: RecordKind, rows: seq<Item>, st: Store, report: Report, records: seq<Item>,
                                        n: nat, digests: Digests)
    requires n <= |records| && Latest(rows, st.assets)
    ensures Latest(rows + AssetRows(k, records, n), Absorb(k, st, report, records, n, digests).0.assets)
  {
    hide Latest, Put, AssetOf, AddEvent, EventOf;
    if n == 0 {
      assert rows + [] == rows;
    } else {
      AbsorbLatest(k, rows, st, report, records, n - 1, digests);
      var (st', report') := Absorb(k, st, report, records, n - 1, digests);
      if k.Inventory? {
        PutLatest(rows + AssetRows(k, records, n - 1), st'.assets, AssetOf(records[n - 1]));
        assert rows + AssetRows(k, records, n) == rows + AssetRows(k, records, n - 1) + [AssetOf(records[n - 1])];
      } else {
        EventsLeaveAssets(st', report', EventOf(k, records[n - 1]), digests);
        assert AssetRows(k, records, n - 1) + [] == AssetRows(k, records, n - 1);
      }
    }
  }

  lemma EventsLeaveAssets(st: Store, report: Report, event: Item, digests: Digests)
    ensures AddEvent(st, report, event, digests).0.assets == st.assets
  {
  }

  lemma {:induction false} BuildLatest(feeds: seq<Feed>, n: nat, digests: Digests, maxRows: nat)
    requires n <= |feeds| && Builds(feeds, n, digests, maxRows).Ok?
    ensures Latest(AcceptedAssets(feeds, n, digests), Builds(feeds, n, digests, maxRows).value.store.assets)
  {
    hide Absorb, Reads, Records, AssetRows;
    if n > 0 {
      hide Latest;
      BuildLatest(feeds, n - 1, digests, maxRows);
      var f, b := feeds[n - 1], Builds(feeds, n - 1, digests, maxRows).value;
      ReadsGiveRecords(f.kind, f.lines, |f.lines|, b.names, digests, maxRows);
      var r := Reads(f.kind, f.lines, |f.lines|, b.names, digests, maxRows).value;
      AbsorbLatest(f.kind, AcceptedAssets(feeds, n - 1, digests), b.store, r.report, r.records, |r.records|, digests);
    }
  }

  /** The inventory rows that survive the horizon. */
  function Surviving(feeds: seq<Feed>, now: int, digests: Digests, maxRows: nat): seq<Item>
    requires Builds(feeds, |feeds|, digests, maxRows).Ok?
  {
    Filter(Within(ObservedAt, now + LEEWAY), Builds(feeds, |feeds|, digests, maxRows).value.store.assets)
  }

  /** An asset of the inventory keeps a row exactly when none of its rows lies beyond the
      horizon: one such row first replaces every other and is then dropped. */
  lemma AssetSurvivesExactly(feeds: seq<Feed>, now: int, digests: Digests, maxRows: nat, row: Item)
    requires Builds(feeds, |feeds|, digests, maxRows).Ok? && row in AcceptedAssets(feeds, |feeds|, digests)
    ensures TextAt(row, Id) in IdsOf(Surviving(feeds, now, digests, maxRows)) <==>
              forall r :: r in AcceptedAssets(feeds, |feeds|, digests) && TextAt(r, Id) == TextAt(row, Id) ==>
                            TimeAt(r, ObservedAt) <= now + LEEWAY
  {
    hide Builds, AcceptedAssets, TextAt, TimeAt;
    BuildLatest(feeds, |feeds|, digests, maxRows);
    var rows := AcceptedAssets(feeds, |feeds|, digests);
    var assets := Builds(feeds, |feeds|, digests, maxRows).value.store.assets;
    assert TextAt(row, Id) in IdsOf(assets);
    var a :| a in assets && TextAt(a, Id) == TextAt(row, Id);
    assert NotNewer(row, a);
    if forall r :: r in rows && TextAt(r, Id) == TextAt(row, Id) ==> TimeAt(r, ObservedAt) <= now + LEEWAY {
      assert a in Surviving(feeds, now, digests, maxRows);
    }
    if TextAt(row, Id) in IdsOf(Surviving(feeds, now, digests, maxRows)) {
      var b :| b in Surviving(feeds, now, digests, maxRows) && TextAt(b, Id) == TextAt(row, Id);
      forall r | r in rows && TextAt(r, Id) == TextAt(row, Id) ensures TimeAt(r, ObservedAt) <= now + LEEWAY {
        assert NotNewer(r, b);
      }
    }
  }
}
