/** The authenticated journal and the dispatch reservations (aisecure/gateway.py,
    class Evidence).

    A committed database is a value of type `Db`; the class `Evidence` holds the
    same tables in fields and updates them in place. HMAC (section 2 of RFC 2104)
    is modelled as the datatype constructor `Tag`, hence injective; `Forged` stands
    for any stored text that no key holder produced. Encryption is the identity,
    except that a payload remembers the sequence number it was sealed for. */
module Journal {
  import opened Common

  type RequestId = nat

  datatype Kind = TextRequest | BundleRequest | ResponseRequest | Observation

  datatype ExecState =
    | NoState | DispatchPending | PreventedInGateway | DemoReceived | ProviderCompleted
    | DeliveryUnknown | PreconditionFailed | Verified

  /** A normalized collector event; `body` stands for its remaining fields. */
  datatype SecurityEvent = SecurityEvent(id: string, at: int, body: nat)

  datatype Checkpoint = Checkpoint(number: int, mac: Mac)

  datatype Entry =
    | Report(kind: Kind, requestId: RequestId, state: ExecState)
    | Retention(pruned: nat, previous: Checkpoint)
    | Security(event: SecurityEvent)
    | Other(text: string)

  datatype Mac =
    | Genesis
    | Tag(number: int, at: int, payload: Entry, sealedFor: int, prev: Mac)
    | Forged(bits: nat)

  datatype Row = Row(number: int, at: int, payload: Entry, sealedFor: int, prev: Mac, mac: Mac)

  datatype Receipt = Receipt(fingerprint: nat, report: Entry, at: int)

  datatype Db = Db(limit: nat, anchorSeq: int, anchor: Mac, journal: seq<Row>, receipts: map<RequestId, Receipt>)

  datatype Error = Inconsistent | CapacityReached | IdRebound | PriorReservation | TooRecent

  const RETENTION_FLOOR := 86400

  // ---- chain -------------------------------------------------------------

  function PrevMac(rows: seq<Row>, anchor: Mac, i: nat): Mac
    requires i <= |rows|
  {
    if i == 0 then anchor else rows[i - 1].mac
  }

  predicate RowOk(row: Row, number: int, prev: Mac) {
    && row.number == number + 1
    && row.prev == prev
    && row.mac == Tag(row.number, row.at, row.payload, row.sealedFor, prev)
    && row.sealedFor == row.number
  }

  predicate LinkOk(rows: seq<Row>, anchorSeq: int, anchor: Mac, i: nat)
    requires i < |rows|
  {
    RowOk(rows[i], anchorSeq + i, PrevMac(rows, anchor, i))
  }

  predicate Chain(rows: seq<Row>, anchorSeq: int, anchor: Mac) {
    forall i :: 0 <= i < |rows| ==> LinkOk(rows, anchorSeq, anchor, i)
  }

  predicate Consistent(db: Db) {
    Chain(db.journal, db.anchorSeq, db.anchor)
  }

  /** What `verify()` returns when the chain is consistent. */
  function Head(db: Db): Checkpoint {
    Checkpoint(db.anchorSeq + |db.journal|, PrevMac(db.journal, db.anchor, |db.journal|))
  }

  // ---- reservations ------------------------------------------------------

  predicate IsRequest(e: Entry) {
    e.Report? && !e.kind.Observation?
  }

  predicate HasRequest(rows: seq<Row>, id: RequestId) {
    exists i :: 0 <= i < |rows| && IsRequest(rows[i].payload) && rows[i].payload.requestId == id
  }

  predicate IsPending(r: Receipt) {
    r.report.Report? && r.report.state == DispatchPending
  }

  function PendingIds(receipts: map<RequestId, Receipt>): set<RequestId> {
    set id | id in receipts && IsPending(receipts[id])
  }

  // ---- one committed transaction each --------------------------------------

  function NewRow(db: Db, entry: Entry, at: int): Row {
    var head := Head(db);
    Row(head.number + 1, at, entry, head.number + 1, head.mac,
        Tag(head.number + 1, at, entry, head.number + 1, head.mac))
  }

  function AppendTo(db: Db, entry: Entry, at: int): Result<Db, Error> {
    if !Consistent(db) then Err(Inconsistent)
    else if |db.journal| >= db.limit then Err(CapacityReached)
    else Ok(db.(journal := db.journal + [NewRow(db, entry, at)]))
  }

  /** `Fresh`: the reservation was made. `Replayed`: an earlier receipt answers. */
  datatype Outcome = Fresh | Replayed(report: Entry) | Refused(error: Error)

  function ReserveIn(db: Db, id: RequestId, fingerprint: nat, initial: Entry, receiptAt: int,
                     rowAt: int): (Outcome, Db) {
    if !Consistent(db) then (Refused(Inconsistent), db)
    else if id in db.receipts then
      if db.receipts[id].fingerprint != fingerprint then (Refused(IdRebound), db)
      else (Replayed(db.receipts[id].report), db)
    else if HasRequest(db.journal, id) then (Refused(PriorReservation), db)
    else if |db.journal| + |PendingIds(db.receipts)| + 2 > db.limit then (Refused(CapacityReached), db)
    else
      (Fresh, db.(journal := db.journal + [NewRow(db, initial, rowAt)],
                  receipts := db.receipts[id := Receipt(fingerprint, initial, receiptAt)]))
  }

  function UpdateReceipt(receipts: map<RequestId, Receipt>, id: RequestId, report: Entry): map<RequestId, Receipt> {
    if id in receipts then receipts[id := receipts[id].(report := report)] else receipts
  }

  function FinishIn(db: Db, id: RequestId, report: Entry, at: int): Result<Db, Error> {
    match AppendTo(db, report, at)
    case Err(e) => Err(e)
    case Ok(db') => Ok(db'.(receipts := UpdateReceipt(db.receipts, id, report)))
  }

  /** The number of leading rows older than the cut. */
  function PrefixLength(rows: seq<Row>, before: int): (k: nat)
    ensures k <= |rows|
    ensures forall i :: 0 <= i < k ==> rows[i].at < before
    ensures k < |rows| ==> rows[k].at >= before
  {
    if rows == [] || rows[0].at >= before then 0 else 1 + PrefixLength(rows[1..], before)
  }

  function Cut(db: Db, before: int): Db {
    var k := PrefixLength(db.journal, before);
    if k == 0 then db
    else db.(anchorSeq := db.journal[k - 1].number, anchor := db.journal[k - 1].mac, journal := db.journal[k..],
             receipts := map id | id in db.receipts && db.receipts[id].at >= before :: db.receipts[id])
  }

  function PruneIn(db: Db, before: int, now: int, at: int): Result<Db, Error> {
    var k := PrefixLength(db.journal, before);
    if before > now - RETENTION_FLOOR then Err(TooRecent)
    else if !Consistent(db) then Err(Inconsistent)
    else if k == 0 then Ok(db)
    else AppendTo(Cut(db, before), Retention(k, Head(db)), at)
  }

  // ---- what every transaction keeps -----------------------------------------

  lemma AppendKeepsChain(rows: seq<Row>, anchorSeq: int, anchor: Mac, row: Row)
    requires Chain(rows, anchorSeq, anchor)
    requires RowOk(row, anchorSeq + |rows|, PrevMac(rows, anchor, |rows|))
    ensures Chain(rows + [row], anchorSeq, anchor)
  {
    var rows' := rows + [row];
    forall i | 0 <= i < |rows'| ensures LinkOk(rows', anchorSeq, anchor, i) {
      if i < |rows| { assert LinkOk(rows, anchorSeq, anchor, i); }
    }
  }

  lemma SuffixKeepsChain(rows: seq<Row>, anchorSeq: int, anchor: Mac, k: nat)
    requires Chain(rows, anchorSeq, anchor) && 0 < k <= |rows|
    ensures Chain(rows[k..], rows[k - 1].number, rows[k - 1].mac)
    ensures rows[k - 1].number == anchorSeq + k
    ensures PrevMac(rows[k..], rows[k - 1].mac, |rows| - k) == PrevMac(rows, anchor, |rows|)
  {
    assert LinkOk(rows, anchorSeq, anchor, k - 1);
    var kept, number, mac := rows[k..], rows[k - 1].number, rows[k - 1].mac;
    forall i | 0 <= i < |kept| ensures LinkOk(kept, number, mac, i) {
      assert LinkOk(rows, anchorSeq, anchor, k + i);
    }
  }

  /** A consistent journal stays consistent under each transaction, its sequence
      numbers stay contiguous, and a row is only ever added at the head. */
  lemma AppendStays(db: Db, entry: Entry, at: int)
    requires AppendTo(db, entry, at).Ok?
    ensures var db' := AppendTo(db, entry, at).value;
            && Consistent(db') && |db'.journal| <= db'.limit
            && Head(db').number == Head(db).number + 1
            && db'.journal[|db.journal|].prev == Head(db).mac
  {
    AppendKeepsChain(db.journal, db.anchorSeq, db.anchor, NewRow(db, entry, at));
  }

  lemma ReserveStays(db: Db, id: RequestId, fingerprint: nat, initial: Entry, receiptAt: int, rowAt: int)
    requires Consistent(db) && |db.journal| <= db.limit
    ensures var (_, db') := ReserveIn(db, id, fingerprint, initial, receiptAt, rowAt);
            Consistent(db') && |db'.journal| <= db'.limit
  {
    AppendKeepsChain(db.journal, db.anchorSeq, db.anchor, NewRow(db, initial, rowAt));
  }

  lemma CutStays(db: Db, before: int)
    requires Consistent(db)
    ensures Consistent(Cut(db, before)) && Head(Cut(db, before)) == Head(db)
  {
    var k := PrefixLength(db.journal, before);
    if k > 0 { SuffixKeepsChain(db.journal, db.anchorSeq, db.anchor, k); }
  }

  lemma RetentionStays(db: Db, before: int, entry: Entry, at: int)
    requires Consistent(db) && AppendTo(Cut(db, before), entry, at).Ok?
    ensures Consistent(AppendTo(Cut(db, before), entry, at).value)
  {
    CutStays(db, before);
    AppendStays(Cut(db, before), entry, at);
  }

  /** Pruning a consistent journal within its limit fails only inside the retention floor. It
      takes away the leading rows older than the cut and the receipts older than it, and
      nothing else; the journal stays consistent, and the retention row chains directly from
      the checkpoint it records, the head of the journal before the cut. */
  lemma RetentionChains(db: Db, before: int, now: int, at: int)
    requires Consistent(db) && |db.journal| <= db.limit
    ensures PruneIn(db, before, now, at).Ok? <==> before <= now - RETENTION_FLOOR
    ensures PruneIn(db, before, now, at).Ok? ==>
              var db' := PruneIn(db, before, now, at).value;
              && Consistent(db') && |db'.journal| <= db'.limit == db.limit
              && (forall id :: id in db'.receipts ==> id in db.receipts && db'.receipts[id] == db.receipts[id])
              && (if db.journal == [] || db.journal[0].at >= before then db' == db
                  else
                    var k, last := PrefixLength(db.journal, before), db'.journal[|db'.journal| - 1];
                    && 0 < k <= |db.journal| && (forall i :: 0 <= i < k ==> db.journal[i].at < before)
                    && (k < |db.journal| ==> db.journal[k].at >= before)
                    && db'.journal[..|db'.journal| - 1] == db.journal[k..]
                    && (db'.anchorSeq, db'.anchor) == (db.journal[k - 1].number, db.journal[k - 1].mac)
                    && (forall id :: id in db.receipts ==> (id in db'.receipts <==> db.receipts[id].at >= before))
                    && last.at == at && last.payload == Retention(k, Head(db))
                    && Checkpoint(last.number - 1, last.prev) == Head(db))
  {
    CutStays(db, before);
    if PrefixLength(db.journal, before) > 0 {
      AppendStays(Cut(db, before), Retention(PrefixLength(db.journal, before), Head(db)), at);
    }
  }

  // ---- the chain determines the journal --------------------------------------

  function Depth(m: Mac): nat {
    if m.Tag? then 1 + Depth(m.prev) else 0
  }

  lemma {:induction false} TipDepth(rows: seq<Row>, anchorSeq: int, anchor: Mac)
    requires Chain(rows, anchorSeq, anchor)
    ensures Depth(PrevMac(rows, anchor, |rows|)) == Depth(anchor) + |rows|
  {
    if rows != [] {
      PrefixChain(rows, anchorSeq, anchor, |rows| - 1);
      TipDepth(rows[..|rows| - 1], anchorSeq, anchor);
      assert LinkOk(rows, anchorSeq, anchor, |rows| - 1);
    }
  }

  lemma PrefixChain(rows: seq<Row>, anchorSeq: int, anchor: Mac, k: nat)
    requires Chain(rows, anchorSeq, anchor) && k <= |rows|
    ensures Chain(rows[..k], anchorSeq, anchor)
    ensures PrevMac(rows[..k], anchor, k) == PrevMac(rows, anchor, k)
  {
    forall i | 0 <= i < k ensures LinkOk(rows[..k], anchorSeq, anchor, i) {
      assert LinkOk(rows, anchorSeq, anchor, i);
    }
  }

  /** Two journals that verify over the same anchor and end in the same tip are
      equal row for row. */
  lemma {:induction false} TipDeterminesJournal(a: seq<Row>, b: seq<Row>, anchorSeq: int, anchor: Mac)
    requires Chain(a, anchorSeq, anchor) && Chain(b, anchorSeq, anchor)
    requires PrevMac(a, anchor, |a|) == PrevMac(b, anchor, |b|)
    ensures a == b
  {
    TipDepth(a, anchorSeq, anchor);
    TipDepth(b, anchorSeq, anchor);
    if a != [] {
      var k := |a| - 1;
      assert LinkOk(a, anchorSeq, anchor, k);
      assert LinkOk(b, anchorSeq, anchor, k);
      PrefixChain(a, anchorSeq, anchor, k);
      PrefixChain(b, anchorSeq, anchor, k);
      TipDeterminesJournal(a[..k], b[..k], anchorSeq, anchor);
      assert a == a[..k] + [a[k]] && b == b[..k] + [b[k]];
    }
  }

  /** The rows that these entries leave behind, appended one after the other to an anchor. */
  function Sealed(entries: seq<(int, Entry)>, anchorSeq: int, anchor: Mac): seq<Row> {
    if entries == [] then []
    else
      var before, (at, entry) := Sealed(entries[..|entries| - 1], anchorSeq, anchor), entries[|entries| - 1];
      var prev, number := if before == [] then anchor else before[|before| - 1].mac, anchorSeq + |entries|;
      before + [Row(number, at, entry, number, prev, Tag(number, at, entry, number, prev))]
  }

  /** A consistent journal is exactly one whose rows were appended so. */
  lemma ConsistentExactly(db: Db)
    ensures Consistent(db) <==> exists entries :: db.journal == Sealed(entries, db.anchorSeq, db.anchor)
  {
    if Consistent(db) { var entries := EntriesOf(db.journal, db.anchorSeq, db.anchor); }
    forall entries | db.journal == Sealed(entries, db.anchorSeq, db.anchor) ensures Consistent(db) {
      SealedConsistent(entries, db.anchorSeq, db.anchor);
    }
  }

  lemma LastLink(rows: seq<Row>, anchorSeq: int, anchor: Mac)
    requires Chain(rows, anchorSeq, anchor) && rows != []
    ensures LinkOk(rows, anchorSeq, anchor, |rows| - 1)
  {
  }

  lemma {:induction false} EntriesOf(rows: seq<Row>, anchorSeq: int, anchor: Mac)
    returns (entries: seq<(int, Entry)>)
    requires Chain(rows, anchorSeq, anchor)
    ensures rows == Sealed(entries, anchorSeq, anchor) && |entries| == |rows|
  {
    hide Chain;
    if rows == [] {
      entries := [];
    } else {
      var n := |rows| - 1;
      PrefixChain(rows, anchorSeq, anchor, n);
      var before := EntriesOf(rows[..n], anchorSeq, anchor);
      LastLink(rows, anchorSeq, anchor);
      entries := before + [(rows[n].at, rows[n].payload)];
      assert entries[..n] == before;
    }
  }

  lemma {:induction false} SealedConsistent(entries: seq<(int, Entry)>, anchorSeq: int, anchor: Mac)
    ensures Chain(Sealed(entries, anchorSeq, anchor), anchorSeq, anchor)
    ensures |Sealed(entries, anchorSeq, anchor)| == |entries|
  {
    if entries != [] {
      var before := entries[..|entries| - 1];
      var (at, entry) := entries[|entries| - 1];
      SealedConsistent(before, anchorSeq, anchor);
      var db := Db(0, anchorSeq, anchor, Sealed(before, anchorSeq, anchor), map[]);
      AppendKeepsChain(db.journal, anchorSeq, anchor, NewRow(db, entry, at));
      assert Sealed(entries, anchorSeq, anchor) == db.journal + [NewRow(db, entry, at)];
    }
  }

  /** A head kept outside the store exposes every later journal that verifies over
      the same anchor, reaches that sequence number, and has other rows below it. */
  lemma HeadFixesHistory(db: Db, later: Db, n: nat)
    requires Consistent(db) && Consistent(later)
    requires db.anchorSeq == later.anchorSeq && db.anchor == later.anchor && n == |db.journal| <= |later.journal|
    ensures PrevMac(later.journal, later.anchor, n) == Head(db).mac <==> later.journal[..n] == db.journal
  {
    PrefixChain(later.journal, later.anchorSeq, later.anchor, n);
    if PrevMac(later.journal, later.anchor, n) == Head(db).mac {
      TipDeterminesJournal(later.journal[..n], db.journal, db.anchorSeq, db.anchor);
    }
  }

  // ---- the store ----------------------------------------------------------------

  /** How many rows were pruned, and the head of the journal afterwards. */
  datatype Pruned = Pruned(count: nat, checkpoint: Checkpoint)

  class Evidence {
    const limit: nat
    var anchorSeq: int
    var anchor: Mac
    var journal: seq<Row>
    var receipts: map<RequestId, Receipt>

    ghost function Tables(): Db
      reads this
    {
      Db(limit, anchorSeq, anchor, journal, receipts)
    }

    constructor (limit: nat)
      ensures Tables() == Db(limit, 0, Genesis, [], map[]) && Consistent(Tables())
    {
      this.limit := limit;
      anchorSeq, anchor, journal, receipts := 0, Genesis, [], map[];
    }

    method Verify() returns (r: Result<Checkpoint, Error>)
      ensures r == if Consistent(Tables()) then Ok(Head(Tables())) else Err(Inconsistent)
    {
      var prev, number := anchor, anchorSeq;
      var i := 0;
      while i < |journal|
        invariant 0 <= i <= |journal|
        invariant number == anchorSeq + i && prev == PrevMac(journal, anchor, i)
        invariant forall j :: 0 <= j < i ==> LinkOk(journal, anchorSeq, anchor, j)
      {
        var row := journal[i];
        if row.number != number + 1 || row.prev != prev
           || row.mac != Tag(row.number, row.at, row.payload, row.sealedFor, prev)
           || row.sealedFor != row.number {
          assert !LinkOk(journal, anchorSeq, anchor, i);
          return Err(Inconsistent);
        }
        number, prev := row.number, row.mac;
        i := i + 1;
      }
      return Ok(Checkpoint(number, prev));
    }

    /** `_append`: runs inside a transaction the caller opened. */
    method AppendRow(entry: Entry, at: int) returns (r: Result<(), Error>)
      modifies this`journal
      ensures AppendTo(old(Tables()), entry, at).Err? ==>
                r == Err(AppendTo(old(Tables()), entry, at).error) && Tables() == old(Tables())
      ensures AppendTo(old(Tables()), entry, at).Ok? ==>
                r == Ok(()) && Tables() == AppendTo(old(Tables()), entry, at).value
    {
      var v := Verify();
      if v.Err? { return Err(v.error); }
      if |journal| >= limit { return Err(CapacityReached); }
      var number, prev := v.value.number + 1, v.value.mac;
      journal := journal + [Row(number, at, entry, number, prev, Tag(number, at, entry, number, prev))];
      return Ok(());
    }

    method HasPrior(id: RequestId) returns (found: bool)
      ensures found == HasRequest(journal, id)
    {
      var i := 0;
      while i < |journal|
        invariant 0 <= i <= |journal|
        invariant forall j :: 0 <= j < i ==> !(IsRequest(journal[j].payload) && journal[j].payload.requestId == id)
      {
        if IsRequest(journal[i].payload) && journal[i].payload.requestId == id { return true; }
        i := i + 1;
      }
      return false;
    }

    method CountPending() returns (n: nat)
      ensures n == |PendingIds(receipts)|
    {
      n := 0;
      var left := receipts.Keys;
      ghost var counted: set<RequestId> := {};
      while left != {}
        invariant left <= receipts.Keys
        invariant counted == (set id | id in receipts && id !in left && IsPending(receipts[id]))
        invariant n == |counted|
        decreases left
      {
        var id :| id in left;
        left := left - {id};
        if IsPending(receipts[id]) {
          n := n + 1;
          counted := counted + {id};
        }
      }
      assert counted == PendingIds(receipts);
    }

    method Reserve(id: RequestId, fingerprint: nat, initial: Entry, receiptAt: int, rowAt: int) returns (r: Outcome)
      modifies this`journal, this`receipts
      ensures (r, Tables()) == ReserveIn(old(Tables()), id, fingerprint, initial, receiptAt, rowAt)
      ensures r.Replayed? <==> Consistent(old(Tables())) && id in old(receipts)
                               && old(receipts)[id].fingerprint == fingerprint
      ensures r.Replayed? ==> r.report == old(receipts)[id].report
      ensures !r.Fresh? ==> Tables() == old(Tables())
    {
      var v := Verify();
      if v.Err? { return Refused(v.error); }
      if id in receipts {
        if receipts[id].fingerprint != fingerprint { return Refused(IdRebound); }
        return Replayed(receipts[id].report);
      }
      var prior := HasPrior(id);
      if prior { return Refused(PriorReservation); }
      // Room for this row and its result, beside one result for each reservation still open.
      var pending := CountPending();
      if |journal| + pending + 2 > limit { return Refused(CapacityReached); }
      receipts := receipts[id := Receipt(fingerprint, initial, receiptAt)];
      // Two rows are free and the chain verified, so this append cannot be refused.
      var a := AppendRow(initial, rowAt);
      if a.Err? { assert false; }
      return Fresh;
    }

    method Finish(id: RequestId, report: Entry, at: int) returns (r: Result<(), Error>)
      modifies this`journal, this`receipts
      ensures FinishIn(old(Tables()), id, report, at).Err? ==>
                r == Err(FinishIn(old(Tables()), id, report, at).error) && Tables() == old(Tables())
      ensures FinishIn(old(Tables()), id, report, at).Ok? ==>
                r == Ok(()) && Tables() == FinishIn(old(Tables()), id, report, at).value
    {
      r := AppendRow(report, at);
      if r.Ok? && id in receipts {
        receipts := receipts[id := receipts[id].(report := report)];
      }
    }

    method Prune(before: int, now: int, at: int) returns (r: Result<Pruned, Error>)
      modifies this
      ensures PruneIn(old(Tables()), before, now, at).Err? ==>
                r == Err(PruneIn(old(Tables()), before, now, at).error) && Tables() == old(Tables())
      ensures PruneIn(old(Tables()), before, now, at).Ok? ==>
                && r == Ok(Pruned(PrefixLength(old(journal), before), Head(Tables())))
                && Tables() == PruneIn(old(Tables()), before, now, at).value
    {
      hide Chain;
      if before > now - RETENTION_FLOOR { return Err(TooRecent); }
      var checkpoint := Verify();
      if checkpoint.Err? { return Err(checkpoint.error); }
      var k := 0;
      while k < |journal| && journal[k].at < before
        invariant 0 <= k <= |journal|
        invariant PrefixLength(journal, before) == k + PrefixLength(journal[k..], before)
      {
        assert journal[k..][1..] == journal[k + 1..];
        k := k + 1;
      }
      if k == 0 { return Ok(Pruned(0, checkpoint.value)); }
      var rows, kept, a, s := journal, receipts, anchor, anchorSeq;
      anchor, anchorSeq := rows[k - 1].mac, rows[k - 1].number;
      journal := rows[k..];
      receipts := map id | id in kept && kept[id].at >= before :: kept[id];
      var added := AppendRow(Retention(k, checkpoint.value), at);
      if added.Err? {
        journal, receipts, anchor, anchorSeq := rows, kept, a, s;
        return Err(added.error);
      }
      RetentionStays(old(Tables()), before, Retention(k, checkpoint.value), at);
      var after := Verify();
      return Ok(Pruned(k, after.value));
    }
  }
}
