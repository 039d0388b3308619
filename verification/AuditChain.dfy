/** The store's audit chain and its external checkpoints (aisecure/store.py,
    `_audit` and `verify_audit`). HMAC is the injective constructor `Tag`. */
module AuditChain {
  import opened Common

  type ProposalId = nat
  type Operator = string
  type Target = string

  /** A normalized snapshot; `body` stands for its content, and `plans` for what the
      fixed analysis and the fixed response policy make of it, finding by finding.
      The snapshot ID is the digest of the content, so it is the value itself. */
  datatype Doc = Doc(body: nat, plans: map<nat, Plan>)

  datatype Plan = Plan(action: nat, finding: nat)

  datatype Payload =
    | Ingested(doc: Doc)
    | Proposed(proposal: ProposalId, doc: Doc)
    | SimulationApproved(proposal: ProposalId)
    | Simulated(proposal: ProposalId)
    | RealApproved(proposal: ProposalId, primary: Operator, secondary: Operator, target: Target)
    | Started(proposal: ProposalId)
    | ExecutionFailed(proposal: ProposalId)
    | ExecutionVerified(proposal: ProposalId)
    | Note(text: string)

  /** A stored payload, or one that no longer decrypts and parses. */
  datatype Stored = Readable(payload: Payload) | Unreadable(bits: nat)

  datatype Mac = Zero | Tag(number: int, at: int, stored: Stored, prev: Mac) | Forged(bits: nat)

  datatype Row = Row(number: int, at: int, stored: Stored, prev: Mac, mac: Mac)

  /** An externally kept checkpoint: how many rows there were, and the last MAC. */
  datatype Anchor = Anchor(count: int, tip: Mac)

  datatype Report = Report(valid: bool, count: nat, tip: Mac, anchorValid: bool)

  function MacAt(rows: seq<Row>, i: nat): Mac
    requires i <= |rows|
  {
    if i == 0 then Zero else rows[i - 1].mac
  }

  predicate LinkOk(rows: seq<Row>, i: nat)
    requires i < |rows|
  {
    var row := rows[i];
    row.number == i + 1 && row.prev == MacAt(rows, i)
    && row.mac == Tag(row.number, row.at, row.stored, row.prev) && row.stored.Readable?
  }

  predicate ValidChain(rows: seq<Row>) {
    forall i :: 0 <= i < |rows| ==> LinkOk(rows, i)
  }

  predicate AnchorMatches(rows: seq<Row>, anchor: Anchor) {
    0 <= anchor.count <= |rows| && MacAt(rows, anchor.count) == anchor.tip
  }

  function Checkpoint(rows: seq<Row>): Anchor {
    Anchor(|rows|, MacAt(rows, |rows|))
  }

  /** `verify_audit`: the loop goes on past a broken row and remembers every MAC. */
  method VerifyAudit(rows: seq<Row>, anchor: Option<Anchor>) returns (r: Report)
    ensures r.count == |rows| && r.tip == MacAt(rows, |rows|)
    ensures r.valid <==> ValidChain(rows) && (anchor.Some? ==> AnchorMatches(rows, anchor.value))
    ensures r.anchorValid <==> anchor.Some? && AnchorMatches(rows, anchor.value)
  {
    var previous, valid, seen := Zero, true, map[0 := Zero];
    var index := 0;
    while index < |rows|
      invariant 0 <= index <= |rows|
      invariant previous == MacAt(rows, index)
      invariant valid <==> forall i :: 0 <= i < index ==> LinkOk(rows, i)
      invariant forall k :: k in seen <==> 0 <= k <= index
      invariant forall k :: 0 <= k <= index ==> seen[k] == MacAt(rows, k)
    {
      var row := rows[index];
      var expected := Tag(row.number, row.at, row.stored, row.prev);
      if row.number != index + 1 || row.prev != previous || expected != row.mac || !row.stored.Readable? {
        assert !LinkOk(rows, index);
        valid := false;
      }
      index := index + 1;
      previous := row.mac;
      seen := seen[index := previous];
    }
    var anchored := false;
    if anchor.Some? {
      anchored := anchor.value.count in seen && seen[anchor.value.count] == anchor.value.tip;
      valid := valid && anchored;
    }
    return Report(valid, |rows|, previous, anchored);
  }

  function NewRow(rows: seq<Row>, at: int, payload: Payload): Row {
    var prev := MacAt(rows, |rows|);
    Row(|rows| + 1, at, Readable(payload), prev, Tag(|rows| + 1, at, Readable(payload), prev))
  }

  function Append(rows: seq<Row>, at: int, payload: Payload): seq<Row> {
    rows + [NewRow(rows, at, payload)]
  }

  lemma AppendValid(rows: seq<Row>, at: int, payload: Payload)
    requires ValidChain(rows)
    ensures ValidChain(Append(rows, at, payload))
  {
    var rows' := Append(rows, at, payload);
    forall i | 0 <= i < |rows'| ensures LinkOk(rows', i) {
      if i < |rows| { assert LinkOk(rows, i); }
    }
  }

  lemma PrefixValid(rows: seq<Row>, k: nat)
    requires ValidChain(rows) && k <= |rows|
    ensures ValidChain(rows[..k]) && MacAt(rows[..k], k) == MacAt(rows, k)
  {
    forall i | 0 <= i < k ensures LinkOk(rows[..k], i) {
      assert LinkOk(rows, i);
    }
  }

  /** Equal tips after the same number of rows mean equal rows. */
  lemma {:induction false} TipFixesRows(a: seq<Row>, b: seq<Row>, n: nat)
    requires ValidChain(a) && ValidChain(b) && n <= |a| && n <= |b|
    requires MacAt(a, n) == MacAt(b, n)
    ensures a[..n] == b[..n]
  {
    if n > 0 {
      assert LinkOk(a, n - 1) && LinkOk(b, n - 1);
      TipFixesRows(a, b, n - 1);
      assert a[..n] == a[..n - 1] + [a[n - 1]] && b[..n] == b[..n - 1] + [b[n - 1]];
    }
  }

  /** The table that these entries leave behind, written one after the other from the start. */
  function Written(entries: seq<(int, Payload)>): seq<Row> {
    if entries == [] then []
    else
      var before, (at, payload) := Written(entries[..|entries| - 1]), entries[|entries| - 1];
      var prev := if before == [] then Zero else before[|before| - 1].mac;
      before + [Row(|entries|, at, Readable(payload), prev, Tag(|entries|, at, Readable(payload), prev))]
  }

  /** A valid chain is exactly a table written so. */
  lemma ValidExactly(rows: seq<Row>)
    ensures ValidChain(rows) <==> exists entries :: rows == Written(entries)
  {
    if ValidChain(rows) { var entries := EntriesOf(rows); }
    forall entries ensures ValidChain(Written(entries)) { WrittenValid(entries); }
  }

  lemma {:induction false} EntriesOf(rows: seq<Row>) returns (entries: seq<(int, Payload)>)
    requires ValidChain(rows)
    ensures rows == Written(entries) && |entries| == |rows|
  {
    if rows == [] {
      entries := [];
    } else {
      var n := |rows| - 1;
      PrefixValid(rows, n);
      var before := EntriesOf(rows[..n]);
      assert LinkOk(rows, n);
      entries := before + [(rows[n].at, rows[n].stored.payload)];
      assert entries[..n] == before;
    }
  }

  lemma {:induction false} WrittenValid(entries: seq<(int, Payload)>)
    ensures ValidChain(Written(entries)) && |Written(entries)| == |entries|
  {
    if entries != [] {
      var before := entries[..|entries| - 1];
      var (at, payload) := entries[|entries| - 1];
      WrittenValid(before);
      AppendValid(Written(before), at, payload);
      assert Written(entries) == Append(Written(before), at, payload);
    }
  }

  /** A checkpoint taken from a valid chain validates a later audit table exactly
      when that table is a valid chain whose first rows are those of the time the
      checkpoint was taken. */
  lemma CheckpointExact(earlier: seq<Row>, later: seq<Row>)
    requires ValidChain(earlier)
    ensures ValidChain(later) && AnchorMatches(later, Checkpoint(earlier)) <==>
              ValidChain(later) && earlier <= later
  {
    if ValidChain(later) && |earlier| <= |later| && MacAt(later, |earlier|) == MacAt(earlier, |earlier|) {
      TipFixesRows(earlier, later, |earlier|);
    }
  }

  /** Appending rows never invalidates a checkpoint; cutting the table below it
      always does, and cutting at or above it never does. */
  lemma TruncationCaughtBelowCheckpoint(earlier: seq<Row>, later: seq<Row>, k: nat)
    requires ValidChain(earlier) && ValidChain(later) && earlier <= later && k <= |later|
    ensures AnchorMatches(later, Checkpoint(earlier))
    ensures ValidChain(later[..k]) && AnchorMatches(later[..k], Checkpoint(earlier)) <==> |earlier| <= k
  {
    PrefixValid(later, k);
    CheckpointExact(earlier, later);
    CheckpointExact(earlier, later[..k]);
    if |earlier| <= k {
      assert later[..k][..|earlier|] == later[..|earlier|];
    }
  }

  /** Without a checkpoint a cut tail goes unnoticed. */
  lemma TruncationUnseenWithoutCheckpoint(rows: seq<Row>, k: nat)
    requires ValidChain(rows) && k <= |rows|
    ensures ValidChain(rows[..k])
  {
    PrefixValid(rows, k);
  }
}
