/** What importing conserves: no distinct evidence is lost, no identifier is used
    twice, and every row read is accounted for (aisecure/connectors/importer.py). */
module Conservation {
  import opened Common
  import opened Ordering
  import opened Names
  import opened Normalizer
  import opened Snapshots
  import opened Importer

  // ---- events accepted from all sources ---------------------------------------------------

  function EventsOf(k: RecordKind, records: seq<Item>, n: nat): seq<Item>
    requires n <= |records|
  {
    if n == 0 then [] else EventsOf(k, records, n - 1) + if k.Inventory? then [] else [EventOf(k, records[n - 1])]
  }

  /** The records the lines give, whatever names are in use. */
  function Records(k: RecordKind, lines: seq<Line>, n: nat, digests: Digests): seq<Item>
    requires n <= |lines|
  {
    if n == 0 then []
    else
      Records(k, lines, n - 1, digests)
      + match Accepted(k, lines[n - 1], digests) case None => [] case Some(record) => [record]
  }

  function AcceptedEvents(feeds: seq<Feed>, n: nat, digests: Digests): seq<Item>
    requires n <= |feeds|
  {
    if n == 0 then []
    else
      var f := feeds[n - 1];
      var records := Records(f.kind, f.lines, |f.lines|, digests);
      AcceptedEvents(feeds, n - 1, digests) + EventsOf(f.kind, records, |records|)
  }

  lemma {:induction false} ReadsGiveRecords(k: RecordKind, lines: seq<Line>, n: nat, names: map<string, string>,
                                            digests: Digests, maxRows: nat)
    requires n <= |lines| && Reads(k, lines, n, names, digests, maxRows).Ok?
    ensures Reads(k, lines, n, names, digests, maxRows).value.records == Records(k, lines, n, digests)
  {
    hide Accepted, Register;
    if n > 0 {
      ReadsGiveRecords(k, lines, n - 1, names, digests, maxRows);
      if lines[n - 1].Blank? { BlankGivesNothing(k, digests); }
    }
  }

  lemma BlankGivesNothing(k: RecordKind, digests: Digests)
    ensures Accepted(k, Blank, digests).None?
  {
  }

  // ---- what deduplication keeps --------------------------------------------------------------

  /** No original identifier looks like a new one, and no two rows get the same new
      one. */
  ghost predicate Apart(rows: set<Item>, digests: Digests) {
    && (forall x, y :: x in rows && y in rows ==> TextAt(x, Id) != RenamedId(y, digests))
    && (forall x, y :: x in rows && y in rows && RenamedId(x, digests) == RenamedId(y, digests) ==> x == y)
  }

  /** The row is in the store, as it came or under its new identifier. */
  predicate Stored(st: Store, x: Item, digests: Digests) {
    x in st.events || Renamed(x, digests) in st.events
  }

  predicate Original(e: Item, x: Item, digests: Digests) {
    e == x || e == Renamed(x, digests)
  }

  ghost predicate DistinctIds(xs: seq<Item>) {
    forall i, j :: 0 <= i < j < |xs| ==> TextAt(xs[i], Id) != TextAt(xs[j], Id)
  }

  ghost predicate Indexed(st: Store) {
    && (forall e :: e in st.events ==> TextAt(e, Id) in st.seen && st.seen[TextAt(e, Id)] == e)
    && (forall id :: id in st.seen ==> st.seen[id] in st.events && TextAt(st.seen[id], Id) == id)
    && DistinctIds(st.events)
  }

  /** A row stands under its new identifier only if a different row holds its own. */
  predicate RenamedForCause(st: Store, x: Item, digests: Digests) {
    Renamed(x, digests) in st.events ==> TextAt(x, Id) in st.seen && st.seen[TextAt(x, Id)] != x
  }

  ghost predicate Conserved(xs: seq<Item>, rows: set<Item>, st: Store, digests: Digests) {
    && Indexed(st)
    && (forall x :: x in xs ==> Stored(st, x, digests))
    && (forall e :: e in st.events ==> exists x :: x in xs && Original(e, x, digests))
    && (forall x :: x in rows ==> RenamedForCause(st, x, digests))
  }

  lemma RenamedHasId(x: Item, digests: Digests)
    ensures TextAt(Renamed(x, digests), Id) == RenamedId(x, digests)
  {
  }

  lemma PushIndexed(st: Store, e: Item)
    requires Indexed(st) && TextAt(e, Id) !in st.seen
    ensures Indexed(st.(events := st.events + [e], seen := st.seen[TextAt(e, Id) := e]))
  {
    hide TextAt;
  }

  lemma PushFresh(xs: seq<Item>, rows: set<Item>, st: Store, x: Item, digests: Digests)
    requires Conserved(xs, rows, st, digests) && Apart(rows, digests) && x in rows && TextAt(x, Id) !in st.seen
    ensures Conserved(xs + [x], rows, st.(events := st.events + [x], seen := st.seen[TextAt(x, Id) := x]), digests)
  {
    hide TextAt, RenamedId, Renamed, Indexed;
    var st' := st.(events := st.events + [x], seen := st.seen[TextAt(x, Id) := x]);
    PushIndexed(st, x);
    forall e | e in st'.events ensures exists y :: y in xs + [x] && Original(e, y, digests) {
      if e in st.events {
        var y :| y in xs && Original(e, y, digests);
        assert y in xs + [x];
      } else {
        assert x in xs + [x] && Original(e, x, digests);
      }
    }
    forall y | y in rows ensures RenamedForCause(st', y, digests) {
      assert RenamedForCause(st, y, digests);
      RenamedHasId(y, digests);
    }
    forall y | y in xs + [x] ensures Stored(st', y, digests) {
      if y in xs { assert Stored(st, y, digests); }
    }
  }

  lemma PushRenamed(xs: seq<Item>, rows: set<Item>, st: Store, x: Item, digests: Digests)
    requires Conserved(xs, rows, st, digests) && Apart(rows, digests) && x in rows
    requires TextAt(x, Id) in st.seen && st.seen[TextAt(x, Id)] != x && RenamedId(x, digests) !in st.seen
    ensures var r := Renamed(x, digests);
            Conserved(xs + [x], rows, st.(events := st.events + [r], seen := st.seen[RenamedId(x, digests) := r]),
                      digests)
  {
    hide TextAt, RenamedId, Renamed, Indexed;
    var r := Renamed(x, digests);
    var st' := st.(events := st.events + [r], seen := st.seen[RenamedId(x, digests) := r]);
    RenamedHasId(x, digests);
    PushIndexed(st, r);
    forall e | e in st'.events ensures exists y :: y in xs + [x] && Original(e, y, digests) {
      if e in st.events {
        var y :| y in xs && Original(e, y, digests);
        assert y in xs + [x];
      } else {
        assert x in xs + [x] && Original(e, x, digests);
      }
    }
    forall y | y in rows ensures RenamedForCause(st', y, digests) {
      assert RenamedForCause(st, y, digests);
      RenamedHasId(y, digests);
    }
    forall y | y in xs + [x] ensures Stored(st', y, digests) {
      if y in xs { assert Stored(st, y, digests); }
    }
  }

  /** A row that changes nothing is already there. */
  lemma AlreadyStored(xs: seq<Item>, rows: set<Item>, st: Store, x: Item, digests: Digests)
    requires Conserved(xs, rows, st, digests) && Apart(rows, digests) && x in rows
    requires forall y :: y in xs ==> y in rows
    requires TextAt(x, Id) in st.seen
    requires st.seen[TextAt(x, Id)] == x || RenamedId(x, digests) in st.seen
    ensures Conserved(xs + [x], rows, st, digests)
  {
    hide TextAt, RenamedId, Renamed;
    if st.seen[TextAt(x, Id)] != x {
      var e := st.seen[RenamedId(x, digests)];
      var y :| y in xs && Original(e, y, digests);
      RenamedHasId(y, digests);
      assert y == x && e == Renamed(x, digests);
    }
    forall e | e in st.events ensures exists y :: y in xs + [x] && Original(e, y, digests) {
      var y :| y in xs && Original(e, y, digests);
      assert y in xs + [x];
    }
    forall y | y in xs + [x] ensures Stored(st, y, digests) {
      if y in xs { assert Stored(st, y, digests); }
    }
  }

  lemma AddEventConserves(xs: seq<Item>, rows: set<Item>, st: Store, report: Report, x: Item, digests: Digests)
    requires Conserved(xs, rows, st, digests) && Apart(rows, digests) && x in rows
    requires forall y :: y in xs ==> y in rows
    ensures Conserved(xs + [x], rows, AddEvent(st, report, x, digests).0, digests)
    ensures st.events <= AddEvent(st, report, x, digests).0.events
  {
    hide Conserved, Apart, TextAt, RenamedId, Renamed;
    RenamedHasId(x, digests);
    if TextAt(x, Id) !in st.seen {
      PushFresh(xs, rows, st, x, digests);
    } else if st.seen[TextAt(x, Id)] == x || RenamedId(x, digests) in st.seen {
      AlreadyStored(xs, rows, st, x, digests);
    } else {
      PushRenamed(xs, rows, st, x, digests);
    }
  }

  lemma {:induction false} AbsorbConserves(k: RecordKind, xs: seq<Item>, rows: set<Item>, st: Store, report: Report,
                                           records: seq<Item>, n: nat, digests: Digests)
    requires n <= |records| && Conserved(xs, rows, st, digests) && Apart(rows, digests)
    requires (forall y :: y in xs ==> y in rows) && (forall y :: y in EventsOf(k, records, n) ==> y in rows)
    ensures Conserved(xs + EventsOf(k, records, n), rows, Absorb(k, st, report, records, n, digests).0, digests)
    ensures st.events <= Absorb(k, st, report, records, n, digests).0.events
  {
    hide Conserved, Apart, AddEvent, EventOf, AssetOf, Put;
    if n == 0 {
      assert xs + [] == xs;
    } else {
      AbsorbConserves(k, xs, rows, st, report, records, n - 1, digests);
      var (st', report') := Absorb(k, st, report, records, n - 1, digests);
      if k.Inventory? {
        AssetsApart(xs + EventsOf(k, records, n - 1), rows, st', Put(st'.assets, AssetOf(records[n - 1])), digests);
        assert EventsOf(k, records, n - 1) + [] == EventsOf(k, records, n - 1);
      } else {
        var x := EventOf(k, records[n - 1]);
        assert EventsOf(k, records, n) == EventsOf(k, records, n - 1) + [x];
        assert x in EventsOf(k, records, n);
        AddEventConserves(xs + EventsOf(k, records, n - 1), rows, st', report', x, digests);
        assert xs + EventsOf(k, records, n) == xs + EventsOf(k, records, n - 1) + [x];
      }
    }
  }

  lemma AssetsApart(xs: seq<Item>, rows: set<Item>, st: Store, assets: seq<Item>, digests: Digests)
    requires Conserved(xs, rows, st, digests)
    ensures Conserved(xs, rows, st.(assets := assets), digests)
  {
    hide TextAt, Renamed;
    var st' := st.(assets := assets);
    forall x | x in xs ensures Stored(st', x, digests) { assert Stored(st, x, digests); }
    forall x | x in rows ensures RenamedForCause(st', x, digests) { assert RenamedForCause(st, x, digests); }
  }

  lemma {:induction false} BuildConserves(feeds: seq<Feed>, n: nat, rows: set<Item>, digests: Digests, maxRows: nat)
    requires n <= |feeds| && Builds(feeds, n, digests, maxRows).Ok? && Apart(rows, digests)
    requires forall y :: y in AcceptedEvents(feeds, n, digests) ==> y in rows
    ensures Conserved(AcceptedEvents(feeds, n, digests), rows, Builds(feeds, n, digests, maxRows).value.store, digests)
    ensures n > 0 ==> var before, after := Builds(feeds, n - 1, digests, maxRows), Builds(feeds, n, digests, maxRows);
                      before.Ok? && before.value.store.events <= after.value.store.events
  {
    hide Apart, Absorb, Reads, Records, EventsOf;
    if n == 0 {
      NothingYet(rows, digests);
    } else {
      hide Conserved;
      BuildConserves(feeds, n - 1, rows, digests, maxRows);
      var f, b := feeds[n - 1], Builds(feeds, n - 1, digests, maxRows).value;
      ReadsGiveRecords(f.kind, f.lines, |f.lines|, b.names, digests, maxRows);
      var r := Reads(f.kind, f.lines, |f.lines|, b.names, digests, maxRows).value;
      AbsorbConserves(f.kind, AcceptedEvents(feeds, n - 1, digests), rows, b.store, r.report, r.records, |r.records|,
                      digests);
    }
  }

  lemma NothingYet(rows: set<Item>, digests: Digests)
    ensures Conserved([], rows, Store([], [], map[]), digests)
  {
  }

  // ---- the snapshot ---------------------------------------------------------------------------

  function RowSet(feeds: seq<Feed>, digests: Digests): set<Item> {
    set x | x in AcceptedEvents(feeds, |feeds|, digests)
  }

  /** An accepted event row that is not beyond the horizon. */
  predicate InTime(x: Item, now: int) { TimeAt(x, At) <= now + LEEWAY }

  lemma SameTime(x: Item, digests: Digests)
    ensures TimeAt(Renamed(x, digests), At) == TimeAt(x, At)
  {
  }

  /** No distinct evidence is lost: each accepted row in time is in the snapshot exactly
      once, under its own identifier or its new one; nothing else is; and no identifier
      is used twice. */
  lemma NoEvidenceLost(feeds: seq<Feed>, now: int, asOf: Option<int>, digests: Digests, maxRows: nat)
    requires Imported(feeds, RecordUnknown, now, asOf, digests, maxRows).Ok? && Apart(RowSet(feeds, digests), digests)
    ensures var events := Imported(feeds, RecordUnknown, now, asOf, digests, maxRows).value.document.events;
            && (forall x :: x in RowSet(feeds, digests) && InTime(x, now) ==>
                  (x in events <==> Renamed(x, digests) !in events))
            && (forall e :: e in events ==>
                  exists x :: x in RowSet(feeds, digests) && InTime(x, now) && Original(e, x, digests))
            && DistinctIds(events)
  {
    hide Imported, Builds, AcceptedEvents, Apart, Conserved, Sort, Filter, Renamed, TimeAt;
    var st := StoredEvents(feeds, now, asOf, digests, maxRows);
    BuildConserves(feeds, |feeds|, RowSet(feeds, digests), digests, maxRows);
    var kept := Filter(Within(At, now + LEEWAY), st.events);
    KeptRows(AcceptedEvents(feeds, |feeds|, digests), RowSet(feeds, digests), st, now, digests, kept);
    SortedDistinct(kept);
    SameMembers(kept);
  }

  lemma StoredEvents(feeds: seq<Feed>, now: int, asOf: Option<int>, digests: Digests, maxRows: nat) returns (st: Store)
    requires Imported(feeds, RecordUnknown, now, asOf, digests, maxRows).Ok?
    ensures Builds(feeds, |feeds|, digests, maxRows).Ok? && st == Builds(feeds, |feeds|, digests, maxRows).value.store
    ensures Imported(feeds, RecordUnknown, now, asOf, digests, maxRows).value.document.events ==
            Sort(BY_EVENT, Filter(Within(At, now + LEEWAY), st.events))
  {
    hide Builds, Shadows, Newest, Charged, Sort, Filter;
    st := Builds(feeds, |feeds|, digests, maxRows).value.store;
  }

  lemma SameMembers(kept: seq<Item>)
    ensures forall e :: e in Sort(BY_EVENT, kept) <==> e in kept
  {
  }

  lemma KeptRows(xs: seq<Item>, rows: set<Item>, st: Store, now: int, digests: Digests, kept: seq<Item>)
    requires Conserved(xs, rows, st, digests) && rows == (set x | x in xs)
    requires kept == Filter(Within(At, now + LEEWAY), st.events)
    ensures forall x :: x in rows && InTime(x, now) ==> (x in kept <==> Renamed(x, digests) !in kept)
    ensures forall e :: e in kept ==> exists x :: x in rows && InTime(x, now) && Original(e, x, digests)
    ensures DistinctIds(kept)
  {
    hide Renamed, TextAt, TimeAt;
    forall x | x in rows && InTime(x, now) ensures x in kept <==> Renamed(x, digests) !in kept {
      SameTime(x, digests);
      assert x in xs && Stored(st, x, digests) && RenamedForCause(st, x, digests);
    }
    forall e | e in kept ensures exists x :: x in rows && InTime(x, now) && Original(e, x, digests) {
      var x :| x in xs && Original(e, x, digests);
      SameTime(x, digests);
      assert x in rows;
    }
    FilterKeepsDistinct(Within(At, now + LEEWAY), st.events);
  }

  lemma LastApart(init: seq<Item>, last: Item)
    requires DistinctIds(init + [last])
    ensures DistinctIds(init) && TextAt(last, Id) !in IdsOf(init)
  {
    hide TextAt;
    var all := init + [last];
    forall i | 0 <= i < |init| ensures TextAt(init[i], Id) != TextAt(last, Id) {
      assert all[i] == init[i] && all[|init|] == last;
    }
    forall i, j | 0 <= i < j < |init| ensures TextAt(init[i], Id) != TextAt(init[j], Id) {
      assert all[i] == init[i] && all[j] == init[j];
    }
  }

  lemma {:induction false} FilterKeepsDistinct(p: Item -> bool, items: seq<Item>)
    requires DistinctIds(items)
    ensures DistinctIds(Filter(p, items))
  {
    hide TextAt;
    if items != [] {
      var init, last := items[..|items| - 1], items[|items| - 1];
      assert items == init + [last];
      LastApart(init, last);
      FilterKeepsDistinct(p, init);
      assert forall a :: a in Filter(p, init) ==> TextAt(a, Id) in IdsOf(init);
      assert Filter(p, items) == if p(last) then Filter(p, init) + [last] else Filter(p, init);
    }
  }

  lemma SortedDistinct(kept: seq<Item>)
    requires DistinctIds(kept)
    ensures DistinctIds(Sort(BY_EVENT, kept))
  {
    hide TextAt, TimeAt;
    var events := Sort(BY_EVENT, kept);
    SortPermutes(BY_EVENT, kept);
    forall i, j | 0 <= i < j < |events| ensures TextAt(events[i], Id) != TextAt(events[j], Id) {
      if TextAt(events[i], Id) == TextAt(events[j], Id) {
        SameKeyTwice((e: Item) => Stamp(0, TextAt(e, Id)), events, kept, i, j);
      }
    }
  }

  // ---- the order of sources ------------------------------------------------------------------

  /** Everything an event says apart from its identifier. */
  function Content(e: Item): Item { e - {Id} }

  lemma {:induction false} AcceptedFrom(feeds: seq<Feed>, n: nat, digests: Digests, x: Item)
    requires n <= |feeds|
    ensures x in AcceptedEvents(feeds, n, digests) <==> exists f :: f in feeds[..n] && GivenBy(f, digests, x)
  {
    hide EventsOf, Records;
    if n > 0 {
      AcceptedFrom(feeds, n - 1, digests, x);
      assert feeds[..n] == feeds[..n - 1] + [feeds[n - 1]];
      assert GivenBy(feeds[n - 1], digests, x) <==>
               x in AcceptedEvents(feeds, n, digests)[|AcceptedEvents(feeds, n - 1, digests)|..];
    }
  }

  predicate GivenBy(f: Feed, digests: Digests, x: Item) {
    var records := Records(f.kind, f.lines, |f.lines|, digests);
    x in EventsOf(f.kind, records, |records|)
  }

  lemma SameRows(feeds: seq<Feed>, feeds': seq<Feed>, digests: Digests)
    requires forall f :: f in feeds <==> f in feeds'
    ensures RowSet(feeds, digests) == RowSet(feeds', digests)
  {
    hide GivenBy, AcceptedEvents;
    assert feeds[..|feeds|] == feeds && feeds'[..|feeds'|] == feeds';
    forall x ensures x in RowSet(feeds, digests) <==> x in RowSet(feeds', digests) {
      AcceptedFrom(feeds, |feeds|, digests, x);
      AcceptedFrom(feeds', |feeds'|, digests, x);
    }
  }

  lemma SameContent(x: Item, digests: Digests)
    ensures Content(Renamed(x, digests)) == Content(x)
  {
  }

  lemma ContentsKept(feeds: seq<Feed>, now: int, asOf: Option<int>, digests: Digests, maxRows: nat, c: Item)
    requires Imported(feeds, RecordUnknown, now, asOf, digests, maxRows).Ok? && Apart(RowSet(feeds, digests), digests)
    ensures var events := Imported(feeds, RecordUnknown, now, asOf, digests, maxRows).value.document.events;
            (exists e :: e in events && Content(e) == c) <==>
            (exists x :: x in RowSet(feeds, digests) && InTime(x, now) && Content(x) == c)
  {
    hide Imported, RowSet, Apart, InTime, Renamed, Content;
    var events := Imported(feeds, RecordUnknown, now, asOf, digests, maxRows).value.document.events;
    NoEvidenceLost(feeds, now, asOf, digests, maxRows);
    if e :| e in events && Content(e) == c {
      var x :| x in RowSet(feeds, digests) && InTime(x, now) && Original(e, x, digests);
      SameContent(x, digests);
    }
    if x :| x in RowSet(feeds, digests) && InTime(x, now) && Content(x) == c {
      SameContent(x, digests);
      assert x in events || Renamed(x, digests) in events;
    }
  }

  // ---- when identifiers are apart ----------------------------------------------------------------

  ghost predicate Mentions(line: Line, t: string) {
    line.Mapped? && exists i :: 0 <= i < |line.values| && TextOf(line.values[i].1) == t
  }

  /** Some line of some source mentions this text. */
  ghost predicate Mentioned(feeds: seq<Feed>, t: string) {
    exists f, l :: f in feeds && l in f.lines && Mentions(l, t)
  }

  /** The identifier was made from a text for which `said` holds, or from content. */
  ghost predicate MadeFrom(id: string, said: string -> bool, digests: Digests) {
    || (exists t :: said(t) && id == Slug(t, digests.name))
    || (exists k, r :: id == Prefix(k) + digests.row(k, r))
  }

  lemma {:induction false} FieldsId(k: RecordKind, values: seq<(FieldName, Value)>, n: nat, digest: string -> string)
    requires n <= |values| && Fields(k, values, n, digest).Some?
    ensures var r := Fields(k, values, n, digest).value;
            Id in r && r[Id] != Null ==> exists i :: 0 <= i < n && r[Id] == Text(Slug(TextOf(values[i].1), digest))
  {
    hide Slug, TextOf;
    if n > 0 { FieldsId(k, values, n - 1, digest); }
  }

  lemma AcceptedId(k: RecordKind, line: Line, digests: Digests)
    requires Accepted(k, line, digests).Some?
    ensures MadeFrom(TextAt(Accepted(k, line, digests).value, Id), t => Mentions(line, t), digests)
  {
    hide Slug;
    FieldsId(k, line.values, |line.values|, digests.name);
    var r := Fields(k, line.values, |line.values|, digests.name).value;
    if Id in r && r[Id] != Null {
      var i :| 0 <= i < |line.values| && r[Id] == Text(Slug(TextOf(line.values[i].1), digests.name));
      assert Mentions(line, TextOf(line.values[i].1));
    }
  }

  lemma {:induction false} RecordFrom(k: RecordKind, lines: seq<Line>, n: nat, digests: Digests, r: Item)
    returns (l: Line)
    requires n <= |lines| && r in Records(k, lines, n, digests)
    ensures l in lines && Accepted(k, l, digests) == Some(r)
  {
    hide Accepted;
    if Accepted(k, lines[n - 1], digests) == Some(r) {
      l := lines[n - 1];
    } else {
      l := RecordFrom(k, lines, n - 1, digests, r);
    }
  }

  lemma {:induction false} EventFrom(k: RecordKind, records: seq<Item>, n: nat, x: Item) returns (r: Item)
    requires n <= |records| && x in EventsOf(k, records, n)
    ensures r in records && x == EventOf(k, r)
  {
    hide EventOf;
    if x in EventsOf(k, records, n - 1) {
      r := EventFrom(k, records, n - 1, x);
    } else {
      r := records[n - 1];
    }
  }

  lemma RowFrom(feeds: seq<Feed>, digests: Digests, x: Item) returns (f: Feed, l: Line, r: Item)
    requires x in RowSet(feeds, digests)
    ensures f in feeds && l in f.lines && Accepted(f.kind, l, digests) == Some(r) && x == EventOf(f.kind, r)
  {
    hide Accepted, EventOf, AcceptedEvents, Records, EventsOf;
    AcceptedFrom(feeds, |feeds|, digests, x);
    f :| f in feeds[..|feeds|] && GivenBy(f, digests, x);
    var records := Records(f.kind, f.lines, |f.lines|, digests);
    r := EventFrom(f.kind, records, |records|, x);
    l := RecordFrom(f.kind, f.lines, |f.lines|, digests, r);
  }

  lemma RowMadeFrom(feeds: seq<Feed>, digests: Digests, x: Item)
    requires x in RowSet(feeds, digests)
    ensures MadeFrom(TextAt(x, Id), t => Mentioned(feeds, t), digests)
  {
    hide Accepted, RowSet, Slug, Mentions;
    var f, l, r := RowFrom(feeds, digests, x);
    AcceptedId(f.kind, l, digests);
    assert TextAt(x, Id) == TextAt(r, Id);
    forall t | Mentions(l, t) ensures Mentioned(feeds, t) {}
  }

  /** Hash values of these sources do not collide: none of two rows, none of a row and a
      name; and they are spelled as the program spells them. */
  ghost predicate HashesApart(feeds: seq<Feed>, digests: Digests) {
    && (forall x :: x in RowSet(feeds, digests) ==> Hex(digests.body(x)))
    && (forall t :: Mentioned(feeds, t) ==> Hex(digests.name(t)))
    && (forall k, r :: ':' !in digests.row(k, r))
    && (forall x, y | x in RowSet(feeds, digests) && y in RowSet(feeds, digests) ::
          digests.body(x) == digests.body(y) ==> x == y)
    && (forall x, t :: x in RowSet(feeds, digests) && Mentioned(feeds, t) ==> digests.body(x) != digests.name(t))
  }

  lemma NotRenamedId(id: string, head: string, hash: string, feeds: seq<Feed>, digests: Digests)
    requires MadeFrom(id, t => Mentioned(feeds, t), digests) && Hex(hash)
    requires forall t :: Mentioned(feeds, t) ==> Hex(digests.name(t)) && hash != digests.name(t)
    requires forall k, r :: ':' !in digests.row(k, r)
    ensures id != head + ":" + hash
  {
    hide Slug, Mentioned, Hex, Passes, Names.Head;
    var renamed := head + ":" + hash;
    assert renamed[|head|] == ':';
    if t :| Mentioned(feeds, t) && id == Slug(t, digests.name) {
      SlugLegal(t, digests.name);
      if id == renamed {
        SlugEnds(t, digests.name);
        SameEnd(Names.Head(Cleaned(t)) + ":", digests.name(t), head + ":", hash);
      }
    } else {
      var k, r :| id == Prefix(k) + digests.row(k, r);
      assert ':' !in Prefix(k);
      assert ':' !in id;
    }
  }

  lemma SlugEnds(t: string, digest: string -> string)
    requires !Passes(t)
    ensures Slug(t, digest) == Names.Head(Cleaned(t)) + ":" + digest(t)
  {
    hide Passes, Names.Head;
  }

  /** Hashes that do not collide keep original and new identifiers apart. */
  lemma HashesKeepApart(feeds: seq<Feed>, digests: Digests)
    requires HashesApart(feeds, digests)
    ensures Apart(RowSet(feeds, digests), digests)
  {
    hide RowSet, Mentioned, TextAt, Hex, MadeFrom;
    var rows := RowSet(feeds, digests);
    forall x, y | x in rows && y in rows ensures TextAt(x, Id) != RenamedId(y, digests) {
      RowMadeFrom(feeds, digests, x);
      var id := TextAt(y, Id);
      NotRenamedId(TextAt(x, Id), if |id| > 40 then id[..40] else id, digests.body(y), feeds, digests);
    }
    forall x, y | x in rows && y in rows && RenamedId(x, digests) == RenamedId(y, digests) ensures x == y {
      var a, b := TextAt(x, Id), TextAt(y, Id);
      SameEnd((if |a| > 40 then a[..40] else a) + ":", digests.body(x),
              (if |b| > 40 then b[..40] else b) + ":", digests.body(y));
    }
  }
}
