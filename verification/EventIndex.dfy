/** The collector event repository (aisecure/control/events.py): an index table that
    only speeds up deduplication, beside the authoritative journal. */
module EventIndex {
  import opened Common
  import opened Ordering
  import opened Journal

  /** `AlreadySeen`: accepted as a duplicate. `Conflicting`: same ID, other content. */
  datatype Verdict = Recorded | AlreadySeen | Conflicting | IndexFull | ReadLimit | JournalRefused(error: Error)

  type Index = map<string, SecurityEvent>

  const KEY := (e: SecurityEvent) => Stamp(e.at, e.id)

  function EventsOf(rows: seq<Row>): seq<SecurityEvent> {
    if rows == [] then []
    else
      var last := rows[|rows| - 1].payload;
      EventsOf(rows[..|rows| - 1]) + if last.Security? then [last.event] else []
  }

  function ReadIn(db: Db, limit: nat): Result<seq<SecurityEvent>, Verdict> {
    if !Consistent(db) then Err(JournalRefused(Inconsistent))
    else if |EventsOf(db.journal)| > limit then Err(ReadLimit)
    else Ok(Sort(KEY, EventsOf(db.journal)))
  }

  /** The first listed event with this ID. */
  function Find(events: seq<SecurityEvent>, id: string): (r: Option<SecurityEvent>)
    ensures r.Some? ==> r.value in events && r.value.id == id
    ensures r.None? ==> forall e :: e in events ==> e.id != id
  {
    if events == [] then None
    else if events[0].id == id then Some(events[0])
    else Find(events[1..], id)
  }

  function Compare(earlier: SecurityEvent, e: SecurityEvent): Verdict {
    if earlier == e then AlreadySeen else Conflicting
  }

  /** The verdict on one event, in the order the checks are made. */
  function Judge(db: Db, index: Index, limit: nat, e: SecurityEvent): Verdict {
    if !Consistent(db) then JournalRefused(Inconsistent)
    else if e.id in index then Compare(index[e.id], e)
    else if |EventsOf(db.journal)| > limit then ReadLimit
    else
      var known := Find(Sort(KEY, EventsOf(db.journal)), e.id);
      if known.Some? then Compare(known.value, e)
      else if |index| >= limit then IndexFull
      else if |db.journal| >= db.limit then JournalRefused(CapacityReached)
      else Recorded
  }

  function RecordIn(db: Db, e: SecurityEvent, at: int): Db {
    db.(journal := db.journal + [NewRow(db, Security(e), at)])
  }

  function Ids(events: seq<SecurityEvent>): set<string> {
    set e | e in events :: e.id
  }

  /** `EventStore.prune` as one step: cut the journal, then drop index rows whose
      event is no longer there. No index row is dropped when reading back fails. */
  function PruneDb(db: Db, before: int, checkpoint: Checkpoint, now: int, at: int): Result<Db, Error> {
    if before < 0 then Err(TooRecent)
    else if !Consistent(db) || checkpoint != Head(db) then Err(Inconsistent)
    else PruneIn(db, before, now, at)
  }

  function KeepRetained(index: Index, db: Db, limit: nat): Index {
    if !Consistent(db) || |EventsOf(db.journal)| > limit then index
    else map id | id in index && id in Ids(EventsOf(db.journal)) :: index[id]
  }

  // ---- the repository ---------------------------------------------------------------

  class EventStore {
    const evidence: Evidence
    const limit: nat
    var index: Index

    constructor (evidence: Evidence, limit: nat)
      ensures this.evidence == evidence && this.limit == limit && index == map[]
    {
      this.evidence, this.limit, index := evidence, limit, map[];
    }

    method Read() returns (r: Result<seq<SecurityEvent>, Verdict>)
      ensures r == ReadIn(evidence.Tables(), limit)
    {
      var v := evidence.Verify();
      if v.Err? { return Err(JournalRefused(v.error)); }
      var events, i := [], 0;
      while i < |evidence.journal|
        invariant 0 <= i <= |evidence.journal|
        invariant events == EventsOf(evidence.journal[..i])
      {
        assert evidence.journal[..i + 1][..i] == evidence.journal[..i];
        if evidence.journal[i].payload.Security? {
          events := events + [evidence.journal[i].payload.event];
        }
        i := i + 1;
      }
      assert evidence.journal[..i] == evidence.journal;
      if |events| > limit { return Err(ReadLimit); }
      return Ok(Sort(KEY, events));
    }

    method Ingest(e: SecurityEvent, at: int) returns (r: Verdict)
      modifies this`index, evidence`journal
      ensures r == Judge(old(evidence.Tables()), old(index), limit, e)
      ensures evidence.Tables() == if r.Recorded? then RecordIn(old(evidence.Tables()), e, at)
                                   else old(evidence.Tables())
      ensures index == if r.Recorded? then old(index)[e.id := e] else old(index)
    {
      var v := evidence.Verify();
      if v.Err? { return JournalRefused(v.error); }
      if e.id in index {
        return if index[e.id] == e then AlreadySeen else Conflicting;
      }
      var prior := Read();
      if prior.Err? { return prior.error; }
      var i := 0;
      while i < |prior.value|
        invariant 0 <= i <= |prior.value|
        invariant Find(prior.value, e.id) == Find(prior.value[i..], e.id)
      {
        if prior.value[i].id == e.id {
          return if prior.value[i] == e then AlreadySeen else Conflicting;
        }
        assert prior.value[i..][1..] == prior.value[i + 1..];
        i := i + 1;
      }
      if |index| >= limit { return IndexFull; }
      var saved := index;
      index := index[e.id := e];
      var a := evidence.AppendRow(Security(e), at);
      if a.Err? {
        index := saved;
        return JournalRefused(a.error);
      }
      return Recorded;
    }

    method Prune(before: int, checkpoint: Checkpoint, now: int, at: int) returns (done: bool)
      modifies this`index, evidence
      ensures PruneDb(old(evidence.Tables()), before, checkpoint, now, at).Err? ==>
                !done && evidence.Tables() == old(evidence.Tables()) && index == old(index)
      ensures PruneDb(old(evidence.Tables()), before, checkpoint, now, at).Ok? ==>
                && evidence.Tables() == PruneDb(old(evidence.Tables()), before, checkpoint, now, at).value
                && index == KeepRetained(old(index), evidence.Tables(), limit)
                && done == ReadIn(evidence.Tables(), limit).Ok?
    {
      if before < 0 { return false; }
      var v := evidence.Verify();
      if v.Err? || checkpoint != v.value { return false; }
      var result := evidence.Prune(before, now, at);
      if result.Err? { return false; }
      var kept := Read();
      if kept.Err? { return false; }
      SameIds(kept.value, EventsOf(evidence.journal));
      var retained := set e | e in kept.value :: e.id;
      index := map id | id in index && id in retained :: index[id];
      return true;
    }
  }

  lemma SameIds(a: seq<SecurityEvent>, b: seq<SecurityEvent>)
    requires forall e :: e in a <==> e in b
    ensures (set e | e in a :: e.id) == Ids(b)
  {
  }

  // ---- runs ---------------------------------------------------------------------------

  /** `accepted` lists every event ever recorded, oldest first; the first `dropped`
      of them left the journal with a pruned prefix. */
  datatype Repo = Repo(db: Db, index: Index, clock: int, accepted: seq<SecurityEvent>, dropped: nat)

  /** `JournalPrune`: the journal was cut and the index was not: another client pruned it, or
      the repository's own prune stopped between its two transactions. */
  datatype Act =
    | Ingest(e: SecurityEvent, delay: nat)
    | Prune(before: int, delay: nat)
    | JournalPrune(before: int, delay: nat)
    | Forget(ids: set<string>)
    | Background(entry: Entry, delay: nat)

  function DoIngest(limit: nat, w: Repo, e: SecurityEvent, delay: nat): Repo {
    var at := w.clock + delay;
    if Judge(w.db, w.index, limit, e).Recorded?
    then Repo(RecordIn(w.db, e, at), w.index[e.id := e], at, w.accepted + [e], w.dropped)
    else w.(clock := at)
  }

  function Min(a: nat, b: nat): nat { if a <= b then a else b }

  function AfterCut(w: Repo, r: Result<Db, Error>, at: int): Repo {
    if r.Err? then w.(clock := at)
    else Repo(r.value, w.index, at, w.accepted, |w.accepted| - Min(|w.accepted|, |EventsOf(r.value.journal)|))
  }

  function DoCut(w: Repo, before: int, delay: nat): Repo {
    AfterCut(w, PruneDb(w.db, before, Head(w.db), w.clock, w.clock + delay), w.clock + delay)
  }

  function DoPrune(limit: nat, w: Repo, before: int, delay: nat): Repo {
    var w' := DoCut(w, before, delay);
    if PruneDb(w.db, before, Head(w.db), w.clock, w.clock + delay).Err? then w'
    else w'.(index := KeepRetained(w.index, w'.db, limit))
  }

  function DoOther(limit: nat, w: Repo, act: Act): Repo
    requires !act.Ingest?
  {
    match act
    case Prune(before, delay) => DoPrune(limit, w, before, delay)
    case JournalPrune(before, delay) => DoCut(w, before, delay)
    case Forget(ids) => w.(index := w.index - ids)
    case Background(entry, delay) =>
      var r := AppendTo(w.db, entry, w.clock + delay);
      w.(db := if r.Ok? && !entry.Security? then r.value else w.db, clock := w.clock + delay)
  }

  function Do(limit: nat, w: Repo, act: Act): Repo {
    if act.Ingest? then DoIngest(limit, w, act.e, act.delay) else DoOther(limit, w, act)
  }

  function Start(rows: nat): Repo { Repo(Db(rows, 0, Genesis, [], map[]), map[], 0, [], 0) }

  function Run(limit: nat, w: Repo, acts: seq<Act>): Repo {
    if acts == [] then w else Do(limit, Run(limit, w, acts[..|acts| - 1]), acts[|acts| - 1])
  }

  ghost predicate DistinctIds(events: seq<SecurityEvent>) {
    forall i, j :: 0 <= i < j < |events| ==> events[i].id != events[j].id
  }

  /** The journal holds what was recorded and not pruned, each identifier once. */
  ghost predicate JournalOk(w: Repo) {
    && Consistent(w.db) && |w.db.journal| <= w.db.limit
    && w.dropped <= |w.accepted| && EventsOf(w.db.journal) == w.accepted[w.dropped..]
    && DistinctIds(EventsOf(w.db.journal))
  }

  /** No index row is stale. */
  ghost predicate IndexBacked(index: Index, events: seq<SecurityEvent>) {
    forall id :: id in index ==> index[id] in events && index[id].id == id
  }

  /** No index row is missing. */
  ghost predicate IndexCovers(index: Index, events: seq<SecurityEvent>) {
    forall e :: e in events ==> e.id in index
  }

  lemma EventsAppend(rows: seq<Row>, row: Row)
    ensures EventsOf(rows + [row]) == EventsOf(rows) + if row.payload.Security? then [row.payload.event] else []
  {
    assert (rows + [row])[..|rows|] == rows;
  }

  lemma {:induction false} EventsConcat(a: seq<Row>, b: seq<Row>)
    ensures EventsOf(a + b) == EventsOf(a) + EventsOf(b)
  {
    if b == [] {
      assert a + b == a;
    } else {
      assert a + b == (a + b[..|b| - 1]) + [b[|b| - 1]];
      EventsAppend(a + b[..|b| - 1], b[|b| - 1]);
      EventsConcat(a, b[..|b| - 1]);
      EventsAppend(b[..|b| - 1], b[|b| - 1]);
      assert b == b[..|b| - 1] + [b[|b| - 1]];
    }
  }

  /** A prune is made exactly on a consistent journal, whose checkpoint the operator has seen,
      for a cut that is not negative and leaves the last day; it prunes the journal, and while
      the events can be read the index keeps exactly the entries of events still there. */
  lemma PrunesExactly(db: Db, index: Index, limit: nat, before: int, checkpoint: Checkpoint, now: int, at: int)
    requires |db.journal| <= db.limit
    ensures PruneDb(db, before, checkpoint, now, at).Ok? <==>
              && 0 <= before <= now - 86400 && Consistent(db) && checkpoint.number == db.anchorSeq + |db.journal|
              && checkpoint.mac == (if db.journal == [] then db.anchor else db.journal[|db.journal| - 1].mac)
    ensures PruneDb(db, before, checkpoint, now, at).Ok? ==>
              var db' := PruneDb(db, before, checkpoint, now, at).value;
              && PruneIn(db, before, now, at) == Ok(db')
              && (|EventsOf(db'.journal)| <= limit ==>
                    forall id ::
                      && (id in KeepRetained(index, db', limit) <==>
                          id in index && exists e :: e in EventsOf(db'.journal) && e.id == id)
                      && (id in KeepRetained(index, db', limit) ==> KeepRetained(index, db', limit)[id] == index[id]))
  {
    hide Chain, EventsOf, PruneIn;
    if Consistent(db) { RetentionChains(db, before, now, at); }
  }

  /** Pruning drops a prefix of the recorded events and records none. */
  lemma PruneDropsPrefix(db: Db, before: int, now: int, at: int) returns (gone: seq<SecurityEvent>)
    requires PruneIn(db, before, now, at).Ok?
    ensures EventsOf(db.journal) == gone + EventsOf(PruneIn(db, before, now, at).value.journal)
  {
    var db', k := PruneIn(db, before, now, at).value, PrefixLength(db.journal, before);
    if k == 0 {
      gone := [];
    } else {
      var row := NewRow(Cut(db, before), Retention(k, Head(db)), at);
      EventsAppend(db.journal[k..], row);
      assert db'.journal == db.journal[k..] + [row];
      EventsConcat(db.journal[..k], db.journal[k..]);
      assert db.journal[..k] + db.journal[k..] == db.journal;
      gone := EventsOf(db.journal[..k]);
    }
  }

  lemma SameIdSameEvent(events: seq<SecurityEvent>, a: SecurityEvent, b: SecurityEvent)
    requires DistinctIds(events) && a in events && b in events && a.id == b.id
    ensures a == b
  {
    var i :| 0 <= i < |events| && events[i] == a;
    var j :| 0 <= j < |events| && events[j] == b;
    assert i == j;
  }

  /** Sorting does not change which event an ID finds. */
  lemma FindSorted(events: seq<SecurityEvent>, id: string)
    requires DistinctIds(events)
    ensures Find(Sort(KEY, events), id) == Find(events, id)
  {
    var sorted := Sort(KEY, events);
    var a, b := Find(sorted, id), Find(events, id);
    assert forall e :: e in sorted <==> e in events;
    if a.Some? && b.Some? { SameIdSameEvent(events, a.value, b.value); }
  }

  /** The verdict when no event with this ID is recorded. */
  function JudgeNew(db: Db, index: Index, limit: nat): Verdict {
    if |index| >= limit then IndexFull
    else if |db.journal| >= db.limit then JournalRefused(CapacityReached)
    else Recorded
  }

  /** With a backed index the verdict is the journal's: the recorded event with this
      ID decides, and without one the event is new. */
  lemma VerdictFromJournal(limit: nat, db: Db, index: Index, e: SecurityEvent)
    requires Consistent(db) && DistinctIds(EventsOf(db.journal)) && IndexBacked(index, EventsOf(db.journal))
    requires |EventsOf(db.journal)| <= limit
    ensures var known := Find(EventsOf(db.journal), e.id);
            Judge(db, index, limit, e) == if known.Some? then Compare(known.value, e) else JudgeNew(db, index, limit)
  {
    var events := EventsOf(db.journal);
    FindSorted(events, e.id);
    if e.id in index {
      assert index[e.id] in events;
      SameIdSameEvent(events, Find(events, e.id).value, index[e.id]);
    }
  }

  /** Only an event with an unrecorded ID is recorded. */
  lemma RecordedIsNew(limit: nat, db: Db, index: Index, e: SecurityEvent)
    requires Judge(db, index, limit, e).Recorded?
    ensures Consistent(db) && |db.journal| < db.limit && AppendTo(db, Security(e), 0).Ok?
    ensures forall f :: f in EventsOf(db.journal) ==> f.id != e.id
  {
    var events := EventsOf(db.journal);
    var sorted := Sort(KEY, events);
    assert Find(sorted, e.id).None?;
    assert forall f :: f in events ==> f in sorted;
  }

  lemma RecordKeeps(w: Repo, e: SecurityEvent, at: int)
    requires JournalOk(w) && |w.db.journal| < w.db.limit
    requires forall f :: f in EventsOf(w.db.journal) ==> f.id != e.id
    ensures JournalOk(Repo(RecordIn(w.db, e, at), w.index[e.id := e], at, w.accepted + [e], w.dropped))
    ensures EventsOf(RecordIn(w.db, e, at).journal) == EventsOf(w.db.journal) + [e]
  {
    assert AppendTo(w.db, Security(e), at) == Ok(RecordIn(w.db, e, at));
    AppendStays(w.db, Security(e), at);
    EventsAppend(w.db.journal, NewRow(w.db, Security(e), at));
    var events := EventsOf(w.db.journal);
    forall i, j | 0 <= i < j < |events + [e]| ensures (events + [e])[i].id != (events + [e])[j].id {
      if j == |events| { assert events[i] in events; }
    }
  }

  lemma PruneResult(db: Db, before: int, now: int, at: int) returns (gone: seq<SecurityEvent>)
    requires |db.journal| <= db.limit && PruneDb(db, before, Head(db), now, at).Ok?
    ensures var db' := PruneDb(db, before, Head(db), now, at).value;
            Consistent(db') && |db'.journal| <= db'.limit && EventsOf(db.journal) == gone + EventsOf(db'.journal)
  {
    RetentionChains(db, before, now, at);
    gone := PruneDropsPrefix(db, before, now, at);
  }

  /** A cut of the journal drops a prefix of the events. */
  lemma CutKeeps(w: Repo, before: int, delay: nat)
    requires JournalOk(w)
    ensures JournalOk(DoCut(w, before, delay))
    ensures forall e :: e in EventsOf(DoCut(w, before, delay).db.journal) ==> e in EventsOf(w.db.journal)
    ensures |EventsOf(DoCut(w, before, delay).db.journal)| <= |EventsOf(w.db.journal)|
  {
    hide Consistent, PruneDb;
    var r := PruneDb(w.db, before, Head(w.db), w.clock, w.clock + delay);
    if r.Ok? {
      var gone := PruneResult(w.db, before, w.clock, w.clock + delay);
      SuffixStaysDistinct(EventsOf(w.db.journal), gone, EventsOf(r.value.journal));
      assert w.accepted[w.dropped..][|gone|..] == w.accepted[w.dropped + |gone|..];
    }
  }

  lemma SuffixStaysDistinct(events: seq<SecurityEvent>, gone: seq<SecurityEvent>, rest: seq<SecurityEvent>)
    requires DistinctIds(events) && events == gone + rest
    ensures DistinctIds(rest) && forall e :: e in rest ==> e in events
  {
    forall i, j | 0 <= i < j < |rest| ensures rest[i].id != rest[j].id {
      assert events[|gone| + i] == rest[i] && events[|gone| + j] == rest[j];
    }
  }

  lemma KeptIndexBacked(index: Index, events: seq<SecurityEvent>, rest: seq<SecurityEvent>)
    requires DistinctIds(events) && IndexBacked(index, events)
    requires forall e :: e in rest ==> e in events
    ensures IndexBacked(map id | id in index && id in Ids(rest) :: index[id], rest)
  {
    forall id | id in index && id in Ids(rest) ensures index[id] in rest && index[id].id == id {
      var f :| f in rest && f.id == id;
      SameIdSameEvent(events, f, index[id]);
    }
  }

  lemma QuietKeeps(limit: nat, w: Repo, act: Act)
    requires JournalOk(w) && (act.Forget? || act.Background?)
    ensures JournalOk(DoOther(limit, w, act)) && EventsOf(DoOther(limit, w, act).db.journal) == EventsOf(w.db.journal)
  {
    if act.Background? && AppendTo(w.db, act.entry, w.clock + act.delay).Ok? && !act.entry.Security? {
      AppendStays(w.db, act.entry, w.clock + act.delay);
      EventsAppend(w.db.journal, NewRow(w.db, act.entry, w.clock + act.delay));
    }
  }

  lemma ActKeepsJournal(limit: nat, w: Repo, act: Act)
    requires JournalOk(w)
    ensures JournalOk(Do(limit, w, act))
  {
    hide JournalOk, Judge, PruneDb, EventsOf, RecordIn, AppendTo, Consistent;
    match act
    case Ingest(e, delay) =>
      if Judge(w.db, w.index, limit, e).Recorded? {
        RecordedIsNew(limit, w.db, w.index, e);
        RecordKeeps(w, e, w.clock + delay);
      } else {
        LaterOk(w, w.clock + delay);
      }
    case Prune(before, delay) =>
      CutKeeps(w, before, delay);
      OtherIndexOk(DoCut(w, before, delay), DoPrune(limit, w, before, delay).index);
    case JournalPrune(before, delay) => CutKeeps(w, before, delay);
    case _ => QuietKeeps(limit, w, act);
  }

  lemma LaterOk(w: Repo, clock: int)
    requires JournalOk(w)
    ensures JournalOk(w.(clock := clock))
  {
  }

  lemma OtherIndexOk(w: Repo, index: Index)
    requires JournalOk(w)
    ensures JournalOk(w.(index := index))
  {
  }

  lemma {:induction false} RunJournalOk(limit: nat, rows: nat, acts: seq<Act>)
    ensures JournalOk(Run(limit, Start(rows), acts))
  {
    hide Do;
    if acts != [] {
      RunJournalOk(limit, rows, acts[..|acts| - 1]);
      ActKeepsJournal(limit, Run(limit, Start(rows), acts[..|acts| - 1]), acts[|acts| - 1]);
    }
  }

  /** By time, and at the same time by identifier. */
  ghost predicate ListedByTime(events: seq<SecurityEvent>) {
    forall i, j :: 0 <= i < j < |events| ==>
      || events[i].at < events[j].at
      || (events[i].at == events[j].at && TextLess(events[i].id, events[j].id))
  }

  /** In every run, whatever index rows vanish or go stale, reading succeeds exactly while
      the recorded events that were not pruned are no more than the limit, and then yields
      each of them exactly once, strictly ordered by time and ID. */
  lemma ReadExactlyOnce(limit: nat, rows: nat, acts: seq<Act>)
    ensures var w := Run(limit, Start(rows), acts);
            && w.dropped <= |w.accepted|
            && (ReadIn(w.db, limit).Ok? <==> |w.accepted| - w.dropped <= limit)
            && (ReadIn(w.db, limit).Ok? ==>
                  && multiset(ReadIn(w.db, limit).value) == multiset(w.accepted[w.dropped..])
                  && ListedByTime(ReadIn(w.db, limit).value))
  {
    hide TextLess;
    RunJournalOk(limit, rows, acts);
    var events := EventsOf(Run(limit, Start(rows), acts).db.journal);
    forall i, j | 0 <= i < j < |events| ensures KEY(events[i]) != KEY(events[j]) {
      assert events[i].id != events[j].id;
    }
    SortStrict(KEY, events);
    SortPermutes(KEY, events);
  }

  // ---- the index ------------------------------------------------------------------------

  function IdsAt(events: seq<SecurityEvent>): seq<string> {
    seq(|events|, i requires 0 <= i < |events| => events[i].id)
  }

  lemma IdsCounted(events: seq<SecurityEvent>)
    requires DistinctIds(events)
    ensures |Elements(IdsAt(events))| == |events|
    ensures forall id :: id in Elements(IdsAt(events)) <==> id in Ids(events)
  {
    var ids := IdsAt(events);
    LengthIsCardinality(ids);
    forall e | e in events ensures e.id in Elements(ids) {
      var i :| 0 <= i < |events| && events[i] == e;
      assert ids[i] == e.id;
    }
    forall id | id in Elements(ids) ensures id in Ids(events) {
      var i :| 0 <= i < |ids| && ids[i] == id;
      assert events[i] in events;
    }
  }

  /** A backed index is no larger than the events, a covering one no smaller. */
  lemma IndexSize(index: Index, events: seq<SecurityEvent>)
    requires DistinctIds(events)
    ensures IndexBacked(index, events) ==> |index| <= |events|
    ensures IndexCovers(index, events) ==> |index| >= |events|
  {
    IdsCounted(events);
    assert |index| == |index.Keys|;
    if IndexBacked(index, events) { Smaller(index.Keys, Elements(IdsAt(events))); }
    if IndexCovers(index, events) {
      assert Elements(IdsAt(events)) <= index.Keys;
      Smaller(Elements(IdsAt(events)), index.Keys);
    }
  }

  /** Acts other than losses of index rows keep the index covering and the events within
      the limit. */
  lemma IngestCovers(limit: nat, w: Repo, e: SecurityEvent, delay: nat)
    requires JournalOk(w) && IndexCovers(w.index, EventsOf(w.db.journal)) && |EventsOf(w.db.journal)| <= limit
    requires Judge(w.db, w.index, limit, e).Recorded?
    ensures var w' := DoIngest(limit, w, e, delay);
            IndexCovers(w'.index, EventsOf(w'.db.journal)) && |EventsOf(w'.db.journal)| <= limit
  {
    assert |w.index| < limit;
    hide Judge, Consistent, RecordIn, EventsOf;
    RecordedIsNew(limit, w.db, w.index, e);
    RecordKeeps(w, e, w.clock + delay);
    IndexSize(w.index, EventsOf(w.db.journal));
  }

  lemma ActCovers(limit: nat, w: Repo, act: Act)
    requires JournalOk(w) && IndexCovers(w.index, EventsOf(w.db.journal)) && |EventsOf(w.db.journal)| <= limit
    requires !act.Forget?
    ensures var w' := Do(limit, w, act);
            IndexCovers(w'.index, EventsOf(w'.db.journal)) && |EventsOf(w'.db.journal)| <= limit
  {
    hide Consistent, PruneDb, Judge, RecordIn;
    match act
    case Ingest(e, delay) =>
      if Judge(w.db, w.index, limit, e).Recorded? { IngestCovers(limit, w, e, delay); }
    case Prune(before, delay) => CutKeeps(w, before, delay);
    case JournalPrune(before, delay) => CutKeeps(w, before, delay);
    case Background(_, _) => QuietKeeps(limit, w, act);
  }

  predicate NeverForgets(acts: seq<Act>) {
    forall i :: 0 <= i < |acts| ==> !acts[i].Forget?
  }

  lemma {:induction false} RunCovers(limit: nat, rows: nat, acts: seq<Act>)
    requires NeverForgets(acts)
    ensures var w := Run(limit, Start(rows), acts);
            IndexCovers(w.index, EventsOf(w.db.journal)) && |EventsOf(w.db.journal)| <= limit
  {
    hide Do;
    if acts != [] {
      var init := acts[..|acts| - 1];
      RunCovers(limit, rows, init);
      RunJournalOk(limit, rows, init);
      ActCovers(limit, Run(limit, Start(rows), init), acts[|acts| - 1]);
    }
  }

  /** A run that loses no index row can always be read back. */
  lemma LosslessReads(limit: nat, rows: nat, acts: seq<Act>)
    requires NeverForgets(acts)
    ensures ReadIn(Run(limit, Start(rows), acts).db, limit).Ok?
  {
    RunCovers(limit, rows, acts);
    RunJournalOk(limit, rows, acts);
  }

  /** Acts other than cuts that pass the index by leave no stale index row. */
  lemma ActBacks(limit: nat, w: Repo, act: Act)
    requires JournalOk(w) && IndexBacked(w.index, EventsOf(w.db.journal)) && |EventsOf(w.db.journal)| <= limit
    requires !act.JournalPrune?
    ensures var w' := Do(limit, w, act); IndexBacked(w'.index, EventsOf(w'.db.journal))
  {
    hide Consistent, PruneDb, Judge, EventsOf, RecordIn, PruneIn, AppendTo, Ids;
    match act
    case Ingest(e, delay) =>
      if Judge(w.db, w.index, limit, e).Recorded? {
        RecordedIsNew(limit, w.db, w.index, e);
        RecordKeeps(w, e, w.clock + delay);
      }
    case Prune(before, delay) =>
      CutKeeps(w, before, delay);
      if PruneDb(w.db, before, Head(w.db), w.clock, w.clock + delay).Ok? {
        KeptIndexBacked(w.index, EventsOf(w.db.journal), EventsOf(DoCut(w, before, delay).db.journal));
      }
    case Forget(_) =>
    case Background(_, _) => QuietKeeps(limit, w, act);
  }

  /** The verdict on an event while the journal can be read: seen if this event is recorded,
      conflicting if another one has its identifier, and else recorded if there is room. */
  lemma VerdictExactly(limit: nat, w: Repo, e: SecurityEvent)
    requires JournalOk(w) && IndexBacked(w.index, EventsOf(w.db.journal)) && |EventsOf(w.db.journal)| <= limit
    ensures var events, verdict := EventsOf(w.db.journal), Judge(w.db, w.index, limit, e);
            && (verdict == AlreadySeen <==> e in events)
            && (verdict == Conflicting <==> exists f :: f in events && f.id == e.id && f != e)
            && (verdict == IndexFull <==> (forall f :: f in events ==> f.id != e.id) && |w.index| >= limit)
            && (verdict == Recorded <==> (forall f :: f in events ==> f.id != e.id) && |w.index| < limit
                                         && |w.db.journal| < w.db.limit)
  {
    hide Consistent, EventsOf, Judge;
    var events := EventsOf(w.db.journal);
    VerdictFromJournal(limit, w.db, w.index, e);
    var known := Find(events, e.id);
    if known.Some? {
      forall f | f in events && f.id == e.id ensures f == known.value {
        SameIdSameEvent(events, f, known.value);
      }
    }
  }

  lemma VerdictWithin(limit: nat, db: Db, index: Index, ids: set<string>, e: SecurityEvent)
    requires Consistent(db) && DistinctIds(EventsOf(db.journal)) && IndexBacked(index, EventsOf(db.journal))
    requires |EventsOf(db.journal)| <= limit
    ensures Judge(db, index, limit, e) != Judge(db, index - ids, limit, e) <==>
              e.id !in Ids(EventsOf(db.journal)) && |index - ids| < limit <= |index|
  {
    hide Judge, Consistent, EventsOf, DistinctIds;
    Smaller((index - ids).Keys, index.Keys);
    VerdictFromJournal(limit, db, index, e);
    VerdictFromJournal(limit, db, index - ids, e);
  }

  lemma VerdictBeyond(limit: nat, db: Db, index: Index, ids: set<string>, e: SecurityEvent)
    requires Consistent(db) && |EventsOf(db.journal)| > limit
    ensures Judge(db, index, limit, e) != Judge(db, index - ids, limit, e) <==> e.id in index && e.id in ids
  {
    hide Consistent, EventsOf, Sort, Find;
  }

  /** Losing index rows changes a verdict exactly when the event is new and the loss makes
      room in a full index, or, once the journal cannot be read, when the event's own row is
      lost. */
  lemma VerdictIgnoresIndex(limit: nat, w: Repo, ids: set<string>, e: SecurityEvent)
    requires JournalOk(w) && IndexBacked(w.index, EventsOf(w.db.journal))
    ensures Judge(w.db, w.index, limit, e) != Judge(w.db, w.index - ids, limit, e) <==>
              if |EventsOf(w.db.journal)| <= limit
              then e.id !in Ids(EventsOf(w.db.journal)) && |w.index - ids| < limit <= |w.index|
              else e.id in w.index && e.id in ids
  {
    hide Judge, Consistent, IndexBacked, DistinctIds, EventsOf;
    if |EventsOf(w.db.journal)| <= limit {
      VerdictWithin(limit, w.db, w.index, ids, e);
    } else {
      VerdictBeyond(limit, w.db, w.index, ids, e);
    }
  }

  function WithoutForget(acts: seq<Act>): seq<Act> {
    if acts == [] then []
    else WithoutForget(acts[..|acts| - 1]) + if acts[|acts| - 1].Forget? then [] else [acts[|acts| - 1]]
  }

  lemma {:induction false} LosslessIsLossless(acts: seq<Act>)
    ensures NeverForgets(WithoutForget(acts))
  {
    if acts != [] { LosslessIsLossless(acts[..|acts| - 1]); }
  }

  /** Everything but the cached index agrees. */
  ghost predicate SameButIndex(a: Repo, b: Repo) {
    a.db == b.db && a.clock == b.clock && a.accepted == b.accepted && a.dropped == b.dropped
  }

  /** A new event comes when the journal already holds as many events as the limit, an
      index row is missing, and there is a journal row to spare. */
  predicate Overruns(limit: nat, w: Repo, act: Act) {
    && act.Ingest? && act.e.id !in Ids(EventsOf(w.db.journal))
    && |w.index| < limit <= |EventsOf(w.db.journal)| && |w.db.journal| < w.db.limit
  }

  /** A repository and what it would be without the losses. */
  ghost predicate Twins(limit: nat, a: Repo, b: Repo) {
    && SameButIndex(a, b) && JournalOk(a) && |EventsOf(a.db.journal)| <= limit
    && IndexBacked(a.index, EventsOf(a.db.journal)) && IndexBacked(b.index, EventsOf(a.db.journal))
    && IndexCovers(b.index, EventsOf(a.db.journal))
  }

  lemma TwinVerdicts(limit: nat, a: Repo, b: Repo, e: SecurityEvent, delay: nat)
    requires Twins(limit, a, b)
    ensures var recorded := Judge(a.db, a.index, limit, e).Recorded?;
            var lossless := Judge(b.db, b.index, limit, e).Recorded?;
            if Overruns(limit, a, Ingest(e, delay)) then recorded && !lossless else recorded == lossless
  {
    hide Consistent, DistinctIds, Judge;
    var events := EventsOf(a.db.journal);
    IndexSize(a.index, events);
    IndexSize(b.index, events);
    VerdictFromJournal(limit, a.db, a.index, e);
    VerdictFromJournal(limit, a.db, b.index, e);
    assert Find(events, e.id).Some? <==> e.id in Ids(events);
  }

  lemma TwinIngest(limit: nat, a: Repo, b: Repo, act: Act)
    requires Twins(limit, a, b) && act.Ingest?
    ensures SameButIndex(Do(limit, a, act), Do(limit, b, act)) <==> !Overruns(limit, a, act)
  {
    hide JournalOk, Judge, Overruns, IndexBacked, IndexCovers, EventsOf;
    TwinVerdicts(limit, a, b, act.e, act.delay);
    if Overruns(limit, a, act) {
      assert |Do(limit, a, act).accepted| == |a.accepted| + 1 && Do(limit, b, act).accepted == a.accepted;
    }
  }

  lemma TwinOther(limit: nat, a: Repo, b: Repo, act: Act)
    requires SameButIndex(a, b) && !act.Ingest?
    ensures SameButIndex(Do(limit, a, act), if act.Forget? then b else Do(limit, b, act))
  {
    hide PruneDb, EventsOf, Consistent;
    assert b == a.(index := b.index);
  }

  predicate ThroughRepository(acts: seq<Act>) {
    forall i :: 0 <= i < |acts| ==> !acts[i].JournalPrune?
  }

  /** As long as nothing overruns, the run and its lossless twin stay twins. */
  lemma {:induction false} StayTwins(limit: nat, rows: nat, acts: seq<Act>)
    requires ThroughRepository(acts)
    requires forall n :: 0 <= n < |acts| ==> !Overruns(limit, Run(limit, Start(rows), acts[..n]), acts[n])
    ensures Twins(limit, Run(limit, Start(rows), acts), Run(limit, Start(rows), WithoutForget(acts)))
  {
    hide Do, Overruns, JournalOk, IndexBacked, IndexCovers;
    if acts == [] {
      EmptyTwins(limit, rows);
    } else {
      var init, act := acts[..|acts| - 1], acts[|acts| - 1];
      assert forall n :: 0 <= n < |init| ==> init[..n] == acts[..n];
      StayTwins(limit, rows, init);
      var a, b := Run(limit, Start(rows), init), Run(limit, Start(rows), WithoutForget(init));
      assert !Overruns(limit, a, act);
      if act.Ingest? { TwinIngest(limit, a, b, act); } else { TwinOther(limit, a, b, act); }
      RunJournalOk(limit, rows, acts);
      ActBacks(limit, a, act);
      LosslessIsLossless(acts);
      RunCovers(limit, rows, WithoutForget(acts));
      if !act.Forget? {
        assert b == a.(index := b.index);
        OtherIndexOk(a, b.index);
        ActBacks(limit, b, act);
        assert (WithoutForget(init) + [act])[..|WithoutForget(init)|] == WithoutForget(init);
      } else {
        ForgetBacks(a, act.ids, b, limit);
        assert WithoutForget(acts) == WithoutForget(init);
      }
    }
  }

  lemma EmptyTwins(limit: nat, rows: nat)
    ensures Twins(limit, Start(rows), Start(rows))
  {
  }

  lemma ForgetBacks(a: Repo, ids: set<string>, b: Repo, limit: nat)
    requires Twins(limit, a, b)
    ensures Twins(limit, Do(limit, a, Forget(ids)), b)
  {
  }

  lemma TwinsAgree(limit: nat, a: Repo, b: Repo)
    requires Twins(limit, a, b)
    ensures SameButIndex(a, b)
  {
  }

  lemma OverrunIngests(limit: nat, w: Repo, act: Act)
    requires Overruns(limit, w, act)
    ensures act.Ingest?
  {
  }

  lemma {:induction false} FirstOverrun(limit: nat, rows: nat, acts: seq<Act>) returns (n: nat)
    requires exists k :: 0 <= k < |acts| && Overruns(limit, Run(limit, Start(rows), acts[..k]), acts[k])
    ensures n < |acts| && Overruns(limit, Run(limit, Start(rows), acts[..n]), acts[n])
    ensures forall k :: 0 <= k < n ==> !Overruns(limit, Run(limit, Start(rows), acts[..k]), acts[k])
  {
    hide Overruns, Run;
    var init := acts[..|acts| - 1];
    assert forall k :: 0 <= k < |init| ==> init[..k] == acts[..k] && init[k] == acts[k];
    if exists k :: 0 <= k < |init| && Overruns(limit, Run(limit, Start(rows), init[..k]), init[k]) {
      n := FirstOverrun(limit, rows, init);
    } else {
      n := |acts| - 1;
    }
  }

  /** The first overrun records an event that the run without the losses refuses. */
  lemma OverrunParts(limit: nat, rows: nat, acts: seq<Act>, n: nat)
    requires ThroughRepository(acts) && n < |acts| && Overruns(limit, Run(limit, Start(rows), acts[..n]), acts[n])
    requires forall k :: 0 <= k < n ==> !Overruns(limit, Run(limit, Start(rows), acts[..k]), acts[k])
    ensures !SameButIndex(Run(limit, Start(rows), acts[..n + 1]),
                          Run(limit, Start(rows), WithoutForget(acts[..n + 1])))
  {
    hide Do, Overruns, Twins;
    assert forall k :: 0 <= k < n ==> acts[..n][..k] == acts[..k];
    StayTwins(limit, rows, acts[..n]);
    var a, b := Run(limit, Start(rows), acts[..n]), Run(limit, Start(rows), WithoutForget(acts[..n]));
    OverrunIngests(limit, a, acts[n]);
    TwinIngest(limit, a, b, acts[n]);
    var lossless := WithoutForget(acts[..n]);
    assert acts[..n + 1][..n] == acts[..n];
    assert (lossless + [acts[n]])[..|lossless|] == lossless;
  }

  /** The index is only a cache: a run through the repository in which index rows vanish at
      any moments keeps, at every moment, the journal and the recorded events of that run
      without the losses, exactly when no new event comes at capacity while an index row is
      missing. */
  lemma IndexIsOnlyACache(limit: nat, rows: nat, acts: seq<Act>)
    requires ThroughRepository(acts)
    ensures (forall n :: 0 <= n <= |acts| ==>
               SameButIndex(Run(limit, Start(rows), acts[..n]), Run(limit, Start(rows), WithoutForget(acts[..n])))) <==>
            (forall n :: 0 <= n < |acts| ==> !Overruns(limit, Run(limit, Start(rows), acts[..n]), acts[n]))
  {
    hide Do, Overruns, Twins;
    if forall n :: 0 <= n < |acts| ==> !Overruns(limit, Run(limit, Start(rows), acts[..n]), acts[n]) {
      forall n | 0 <= n <= |acts|
        ensures SameButIndex(Run(limit, Start(rows), acts[..n]), Run(limit, Start(rows), WithoutForget(acts[..n])))
      {
        assert forall k :: 0 <= k < n ==> acts[..n][..k] == acts[..k];
        StayTwins(limit, rows, acts[..n]);
        TwinsAgree(limit, Run(limit, Start(rows), acts[..n]), Run(limit, Start(rows), WithoutForget(acts[..n])));
      }
    } else {
      var n := FirstOverrun(limit, rows, acts);
      OverrunParts(limit, rows, acts, n);
    }
  }

  // ---- where the cache does matter -----------------------------------------------------

  lemma {:induction false} EventAt(rows: seq<Row>, k: nat)
    requires k < |rows| && rows[k].payload.Security?
    ensures rows[k].payload.event in EventsOf(rows)
  {
    if k < |rows| - 1 { EventAt(rows[..|rows| - 1], k); }
  }

  /** An event in a row that is cut is recorded no longer. */
  lemma CutEventIsGone(w: Repo, before: int, delay: nat, k: nat)
    requires JournalOk(w) && 0 <= before <= w.clock - RETENTION_FLOOR && k < PrefixLength(w.db.journal, before)
    requires w.db.journal[k].payload.Security?
    ensures PruneDb(w.db, before, Head(w.db), w.clock, w.clock + delay).Ok?
    ensures forall f :: f in EventsOf(DoCut(w, before, delay).db.journal) ==> f.id != w.db.journal[k].payload.event.id
  {
    hide Consistent, PrefixLength, PruneIn;
    var e, at := w.db.journal[k].payload.event, w.clock + delay;
    RetentionChains(w.db, before, w.clock, at);
    var gone := PruneKeepsSuffix(w.db, before, w.clock, at, k);
    var left := EventsOf(DoCut(w, before, delay).db.journal);
    PartsDiffer(gone, left, e);
  }

  lemma PartsDiffer(gone: seq<SecurityEvent>, left: seq<SecurityEvent>, e: SecurityEvent)
    requires DistinctIds(gone + left) && e in gone
    ensures forall f :: f in left ==> f.id != e.id
  {
    var i :| 0 <= i < |gone| && gone[i] == e;
    forall f | f in left ensures f.id != e.id {
      var j :| 0 <= j < |left| && left[j] == f;
      assert (gone + left)[i] == e && (gone + left)[|gone| + j] == f;
    }
  }

  /** Cutting the journal past the index leaves the index row of every event that was cut:
      the event is then answered as a duplicate though no row records it, while the
      repository's own prune forgets it with its row. */
  lemma DirectPruneHidesEvent(limit: nat, w: Repo, before: int, delay: nat, k: nat)
    requires JournalOk(w) && IndexBacked(w.index, EventsOf(w.db.journal)) && |EventsOf(w.db.journal)| <= limit
    requires 0 <= before <= w.clock - RETENTION_FLOOR && k < PrefixLength(w.db.journal, before)
    requires w.db.journal[k].payload.Security? && w.db.journal[k].payload.event.id in w.index
    ensures var e := w.db.journal[k].payload.event;
            var cut, pruned := DoCut(w, before, delay), DoPrune(limit, w, before, delay);
            && e !in EventsOf(cut.db.journal) && cut.db == pruned.db
            && Judge(cut.db, cut.index, limit, e) == AlreadySeen
            && e.id !in pruned.index && Judge(pruned.db, pruned.index, limit, e) != AlreadySeen
  {
    hide PrefixLength, PruneDb, DistinctIds;
    var e := w.db.journal[k].payload.event;
    EventAt(w.db.journal, k);
    SameIdSameEvent(EventsOf(w.db.journal), e, w.index[e.id]);
    CutKeeps(w, before, delay);
    CutEventIsGone(w, before, delay, k);
    NewAfterPrune(limit, DoCut(w, before, delay).db, DoPrune(limit, w, before, delay).index, e);
  }

  lemma NewAfterPrune(limit: nat, db: Db, index: Index, e: SecurityEvent)
    requires e.id !in index && forall f :: f in EventsOf(db.journal) ==> f.id != e.id
    ensures Judge(db, index, limit, e) != AlreadySeen
  {
    assert Find(Sort(KEY, EventsOf(db.journal)), e.id).None?;
  }

  /** The events of the rows cut come first. */
  lemma PruneKeepsSuffix(db: Db, before: int, now: int, at: int, k: nat) returns (gone: seq<SecurityEvent>)
    requires PruneIn(db, before, now, at).Ok? && k < PrefixLength(db.journal, before) && db.journal[k].payload.Security?
    ensures EventsOf(db.journal) == gone + EventsOf(PruneIn(db, before, now, at).value.journal)
    ensures db.journal[k].payload.event in gone
  {
    hide Chain, Consistent;
    var n := PrefixLength(db.journal, before);
    EventsAppend(db.journal[n..], NewRow(Cut(db, before), Retention(n, Head(db)), at));
    EventsConcat(db.journal[..n], db.journal[n..]);
    assert db.journal[..n] + db.journal[n..] == db.journal;
    gone := EventsOf(db.journal[..n]);
    EventAt(db.journal[..n], k);
  }

  predicate NoCut(acts: seq<Act>) { forall act: Act :: act in acts ==> !act.Prune? && !act.JournalPrune? }

  /** Nothing can be read while the journal holds too many events, and only a cut changes
      that. */
  lemma {:induction false} BlockedUntilCut(limit: nat, w: Repo, acts: seq<Act>)
    requires JournalOk(w) && |EventsOf(w.db.journal)| > limit
    requires NoCut(acts)
    ensures ReadIn(Run(limit, w, acts).db, limit) == Err(ReadLimit)
    ensures JournalOk(Run(limit, w, acts)) && EventsOf(Run(limit, w, acts).db.journal) == EventsOf(w.db.journal)
  {
    if acts != [] {
      var init, act := acts[..|acts| - 1], acts[|acts| - 1];
      BlockedUntilCut(limit, w, init);
      var before := Run(limit, w, init);
      ActKeepsJournal(limit, before, act);
      if !act.Ingest? { QuietKeeps(limit, before, act); }
    }
  }

  lemma OverrunRecords(limit: nat, w: Repo, act: Act)
    requires JournalOk(w) && IndexBacked(w.index, EventsOf(w.db.journal)) && |EventsOf(w.db.journal)| <= limit
    requires Overruns(limit, w, act)
    ensures Judge(w.db, w.index, limit, act.e) == Recorded
    ensures JournalOk(Do(limit, w, act)) && |EventsOf(Do(limit, w, act).db.journal)| > limit
  {
    hide Consistent, EventsOf, Judge;
    VerdictFromJournal(limit, w.db, w.index, act.e);
    assert Find(EventsOf(w.db.journal), act.e.id).None?;
    RecordedIsNew(limit, w.db, w.index, act.e);
    RecordKeeps(w, act.e, w.clock + act.delay);
  }

  /** An overrun records one event too many, after which nothing can be read until the
      journal is cut. */
  lemma LossAtCapacityBlocksReading(limit: nat, w: Repo, act: Act)
    requires JournalOk(w) && IndexBacked(w.index, EventsOf(w.db.journal)) && |EventsOf(w.db.journal)| <= limit
    requires Overruns(limit, w, act)
    ensures Judge(w.db, w.index, limit, act.e) == Recorded
    ensures forall acts :: NoCut(acts) ==> ReadIn(Run(limit, Do(limit, w, act), acts).db, limit) == Err(ReadLimit)
  {
    hide JournalOk, Judge, Run, NoCut, ReadIn, Do;
    OverrunRecords(limit, w, act);
    var after := Do(limit, w, act);
    forall acts | NoCut(acts)
      ensures ReadIn(Run(limit, after, acts).db, limit) == Err(ReadLimit)
    {
      BlockedUntilCut(limit, after, acts);
    }
  }

  /** It does occur: record one event, lose its index row, record another. */
  lemma OverrunHappens(e: SecurityEvent, f: SecurityEvent)
    requires e.id != f.id
    ensures var acts := [Ingest(e, 0), Forget({e.id})];
            Overruns(1, Run(1, Start(3), acts), Ingest(f, 0)) && JournalOk(Run(1, Start(3), acts))
            && IndexBacked(Run(1, Start(3), acts).index, EventsOf(Run(1, Start(3), acts).db.journal))
  {
    hide Do;
    var w0, acts := Start(3), [Ingest(e, 0), Forget({e.id})];
    var one := acts[..|acts| - 1];
    assert one == [Ingest(e, 0)] && one[..|one| - 1] == [];
    FirstRecorded(e);
    var w1 := Do(1, w0, Ingest(e, 0));
    assert Run(1, w0, one) == w1 && Run(1, w0, acts) == Do(1, w1, Forget({e.id}));
    RunJournalOk(1, 3, acts);
    FirstForgotten(w1, e);
  }

  lemma FirstRecorded(e: SecurityEvent)
    ensures var w := Do(1, Start(3), Ingest(e, 0));
            EventsOf(w.db.journal) == [e] && w.index == map[e.id := e] && |w.db.journal| == 1 && w.db.limit == 3
  {
    var w := Start(3);
    VerdictFromJournal(1, w.db, w.index, e);
    RecordKeeps(w, e, 0);
  }

  lemma FirstForgotten(w: Repo, e: SecurityEvent)
    requires w.index == map[e.id := e]
    ensures Do(1, w, Forget({e.id})) == w.(index := map[])
  {
    assert w.index - {e.id} == map[];
  }
}
