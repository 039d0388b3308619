/** Safety over every run of the dispatch protocol: at most one call per
    reservation epoch, truthful receipts, and a consistent bounded journal. */
module DispatchSafety {
  import opened Common
  import opened Journal
  import opened Dispatch

  // ---- each step keeps the invariant --------------------------------------------

  lemma ClockOnly(w: World, w': World)
    requires SendersOk(w) && w'.clock >= w.clock && w'.senders == w.senders
    ensures SendersOk(w')
  {
    forall n | n in w'.senders ensures SenderOk(w'.senders[n], w'.clock) {
      assert SenderOk(w.senders[n], w.clock);
    }
  }

  lemma NewSenderKeeps(w: World, n: nat, s: Sender)
    requires Inv(w) && n !in w.senders && SenderOk(s, w.clock) && !s.won && !s.called
    ensures Inv(w.(senders := w.senders[n := s]))
  {
    hide Consistent, Winners, Callers, HasRequest, CallsFor;
    var w' := w.(senders := w.senders[n := s]);
    forall m | m in w'.senders ensures SenderOk(w'.senders[m], w'.clock) {
      if m != n { assert SenderOk(w.senders[m], w.clock); }
    }
    forall id
      ensures Winners(w'.senders, id) == Winners(w.senders, id) && Callers(w'.senders, id) == Callers(w.senders, id)
    {
      ChangeSender(w.senders, n, s, id);
    }
    forall i | 0 <= i < |w'.calls| ensures CallOk(w'.senders, w'.calls[i]) {
      assert CallOk(w.senders, w.calls[i]);
    }
    ReceiptsStay(w, w');
  }

  lemma PrepareKeeps(w: World, step: Step)
    requires Inv(w) && step.Prepare?
    ensures Inv(Apply(w, step))
  {
    hide Inv;
    var w' := Apply(w, step);
    if w' != w {
      NewSenderKeeps(w, step.n, w'.senders[step.n]);
    }
  }

  /** Receipts stay explained when they, their winners and those winners stay. */
  lemma ReceiptsStay(w: World, w': World)
    requires ReceiptsExplained(w) && w'.cleared >= w.cleared
    requires forall id :: id in w'.db.receipts ==> id in w.db.receipts && w'.db.receipts[id] == w.db.receipts[id]
    requires forall n :: n in w.senders && w.senders[n].won ==>
               && n in w'.senders && w'.senders[n].won && w'.senders[n].id == w.senders[n].id
               && w'.senders[n].called == w.senders[n].called
               && (Active(w'.senders[n]) ==> Active(w.senders[n]))
    ensures ReceiptsExplained(w')
  {
    forall id | id in w'.db.receipts ensures ReceiptExplained(w', id) {
      assert ReceiptExplained(w, id);
      var report := w.db.receipts[id].report;
      if IsRequest(report) && w'.cleared[id] == 0 {
        var n :| n in Winners(w.senders, id) && Explains(w.senders[n], report.state);
        assert n in Winners(w'.senders, id) && Explains(w'.senders[n], report.state);
      }
    }
  }

  lemma PhaseOnlySenders(w: World, step: Step)
    requires SendersOk(w) && (step.Crash? || step.Reopen? || step.Tick? || step.LoseReceipts?)
    ensures SendersOk(Apply(w, step))
  {
    hide ReserveIn, FinishIn, PruneIn, AppendTo, PrepareAccepted;
    var w' := Apply(w, step);
    forall n | n in w'.senders ensures SenderOk(w'.senders[n], w'.clock) {
      assert SenderOk(w.senders[n], w.clock);
    }
  }

  lemma PhaseOnlyKeeps(w: World, step: Step)
    requires Inv(w) && (step.Crash? || step.Reopen? || step.Tick? || step.LoseReceipts?)
    ensures Inv(Apply(w, step))
  {
    hide ReserveIn, FinishIn, PruneIn, AppendTo, PrepareAccepted, SenderOk, Chain;
    var w' := Apply(w, step);
    PhaseOnlySenders(w, step);
    SameHistory(w, w');
    ReceiptsStay(w, w');
  }

  lemma AppendStepKeeps(w: World, step: Step)
    requires Inv(w) && step.Append?
    ensures Inv(Apply(w, step))
  {
    var w', at := Apply(w, step), w.clock + step.delay;
    if AppendTo(w.db, step.entry, at).Ok? {
      AppendStays(w.db, step.entry, at);
    }
    ClockOnly(w, w');
    forall id ensures HasRequest(w.db.journal, id) ==> HasRequest(w'.db.journal, id) {
      AppendKeepsRequests(w.db.journal, NewRow(w.db, step.entry, at), id);
    }
    ReceiptsStay(w, w');
  }

  lemma PruneKeeps(w: World, step: Step)
    requires Inv(w) && step.Prune?
    ensures Inv(Apply(w, step))
  {
    hide PruneIn;
    var w', at := Apply(w, step), w.clock + step.delay;
    RetentionChains(w.db, step.before, w.clock, at);
    ClockOnly(w, w');
    PruneWinners(w, w');
    ReceiptsStay(w, w');
  }

  lemma PruneWinners(w: World, w': World)
    requires WinnersBounded(w) && w'.senders == w.senders
    requires w'.cleared == w.cleared + multiset(ClearedBy(w.db.journal, w'.db.journal))
    ensures WinnersBounded(w')
  {
    var gone := ClearedBy(w.db.journal, w'.db.journal);
    forall id ensures |Winners(w'.senders, id)| <= w'.cleared[id] + Bit(HasRequest(w'.db.journal, id)) {
      assert |Winners(w.senders, id)| <= w.cleared[id] + Bit(HasRequest(w.db.journal, id));
      if HasRequest(w.db.journal, id) && !HasRequest(w'.db.journal, id) {
        var i :| 0 <= i < |w.db.journal| && IsRequest(w.db.journal[i].payload) &&
                 w.db.journal[i].payload.requestId == id;
        assert id in gone;
      }
    }
  }

  /** One sender changed: the others keep what was known of them. */
  lemma OneSenderOk(w: World, w': World, n: nat)
    requires SendersOk(w) && n in w'.senders && w'.senders == w.senders[n := w'.senders[n]]
    requires w'.clock >= w.clock && SenderOk(w'.senders[n], w'.clock)
    ensures SendersOk(w')
  {
    forall m | m in w'.senders ensures SenderOk(w'.senders[m], w'.clock) {
      if m != n { assert SenderOk(w.senders[m], w.clock); }
    }
  }

  lemma OneSenderCalls(w: World, w': World, n: nat)
    requires CallsCounted(w) && w'.calls == w.calls
    requires n in w.senders && n in w'.senders && w'.senders == w.senders[n := w'.senders[n]]
    requires w'.senders[n].id == w.senders[n].id && w'.senders[n].claim == w.senders[n].claim
    requires w'.senders[n].called == w.senders[n].called && (w.senders[n].won ==> w'.senders[n].won)
    ensures CallsCounted(w')
  {
    forall id ensures Callers(w'.senders, id) == Callers(w.senders, id) {
      ChangeSender(w.senders, n, w'.senders[n], id);
    }
    forall i | 0 <= i < |w'.calls| ensures CallOk(w'.senders, w'.calls[i]) {
      assert CallOk(w.senders, w.calls[i]);
    }
  }

  lemma NoNewWinner(w: World, w': World, n: nat)
    requires WinnersBounded(w) && w'.cleared == w.cleared
    requires n in w.senders && n in w'.senders && w'.senders == w.senders[n := w'.senders[n]]
    requires w'.senders[n].id == w.senders[n].id && w'.senders[n].won == w.senders[n].won
    requires w.senders[n].called ==> w'.senders[n].called
    requires forall id :: HasRequest(w.db.journal, id) ==> HasRequest(w'.db.journal, id)
    ensures WinnersBounded(w')
  {
    forall id ensures |Winners(w'.senders, id)| <= w'.cleared[id] + Bit(HasRequest(w'.db.journal, id)) {
      ChangeSender(w.senders, n, w'.senders[n], id);
      assert Winners(w'.senders, id) == Winners(w.senders, id);
      assert |Winners(w.senders, id)| <= w.cleared[id] + Bit(HasRequest(w.db.journal, id));
    }
  }

  /** A fresh reservation appended its row and wrote its receipt; anything else
      left the tables alone. */
  lemma ReserveShape(db: Db, id: RequestId, fingerprint: nat, initial: Entry, receiptAt: int, rowAt: int)
    ensures var (outcome, db') := ReserveIn(db, id, fingerprint, initial, receiptAt, rowAt);
            if outcome.Fresh? then
              && id !in db.receipts && !HasRequest(db.journal, id) && db'.limit == db.limit
              && |db.journal| + |PendingIds(db.receipts)| + 2 <= db.limit
              && db'.journal == db.journal + [NewRow(db, initial, rowAt)]
              && db'.receipts == db.receipts[id := Receipt(fingerprint, initial, receiptAt)]
            else db' == db
  {
  }

  lemma ReserveKeeps(w: World, step: Step)
    requires Inv(w) && step.Reserve?
    ensures Inv(Apply(w, step))
  {
    if step.n in w.senders && w.senders[step.n].phase == Prepared {
      var w', s := Apply(w, step), w.senders[step.n];
      var receiptAt, rowAt := w.clock + step.receiptDelay, w.clock + step.receiptDelay + step.rowDelay;
      assert SenderOk(s, w.clock);
      ReserveStays(w.db, s.id, s.fingerprint, InitialReport(s), receiptAt, rowAt);
      OneSenderOk(w, w', step.n);
      OneSenderCalls(w, w', step.n);
      ReserveWinners(w, step);
      ReserveReceipts(w, step);
    }
  }

  lemma ReserveWinners(w: World, step: Step)
    requires Inv(w) && step.Reserve? && step.n in w.senders && w.senders[step.n].phase == Prepared
    ensures WinnersBounded(Apply(w, step))
  {
    hide Winners, Consistent, ReserveIn, CallsCounted, ReceiptsExplained;
    var w', s := Apply(w, step), w.senders[step.n];
    var receiptAt, rowAt := w.clock + step.receiptDelay, w.clock + step.receiptDelay + step.rowDelay;
    ReserveShape(w.db, s.id, s.fingerprint, InitialReport(s), receiptAt, rowAt);
    assert SenderOk(s, w.clock);
    forall id ensures |Winners(w'.senders, id)| <= w'.cleared[id] + Bit(HasRequest(w'.db.journal, id)) {
      ChangeSender(w.senders, step.n, w'.senders[step.n], id);
      AppendKeepsRequests(w.db.journal, NewRow(w.db, InitialReport(s), rowAt), id);
      assert |Winners(w.senders, id)| <= w.cleared[id] + Bit(HasRequest(w.db.journal, id));
    }
  }

  lemma ReserveReceipts(w: World, step: Step)
    requires Inv(w) && step.Reserve? && step.n in w.senders && w.senders[step.n].phase == Prepared
    ensures ReceiptsExplained(Apply(w, step))
  {
    var w', s := Apply(w, step), w.senders[step.n];
    var receiptAt, rowAt := w.clock + step.receiptDelay, w.clock + step.receiptDelay + step.rowDelay;
    ReserveShape(w.db, s.id, s.fingerprint, InitialReport(s), receiptAt, rowAt);
    assert SenderOk(s, w.clock);
    forall id | id in w'.db.receipts ensures ReceiptExplained(w', id) {
      if id == s.id && id !in w.db.receipts {
        var s' := w'.senders[step.n];
        assert s'.won ==> step.n in Winners(w'.senders, id) && Explains(s', w'.db.receipts[id].report.state);
      } else {
        CarryExplanation(w, w', id, step.n);
      }
    }
  }

  /** An unchanged receipt stays explained when only sender `n`, who does not
      explain it or explains it as before, changed. */
  lemma CarryExplanation(w: World, w': World, id: RequestId, n: nat)
    requires ReceiptsExplained(w) && id in w.db.receipts && id in w'.db.receipts && w'.cleared == w.cleared
    requires w'.db.receipts[id] == w.db.receipts[id]
    requires n in w.senders && n in w'.senders && w'.senders == w.senders[n := w'.senders[n]]
    requires w.db.receipts[id].report.Report? && w.senders[n].won && w.senders[n].id == id
             && Explains(w.senders[n], w.db.receipts[id].report.state) ==>
               && w'.senders[n].won && w'.senders[n].id == id
               && Explains(w'.senders[n], w.db.receipts[id].report.state)
    ensures ReceiptExplained(w', id)
  {
    assert ReceiptExplained(w, id);
    var report := w.db.receipts[id].report;
    if IsRequest(report) && w.cleared[id] == 0 {
      var m :| m in Winners(w.senders, id) && Explains(w.senders[m], report.state);
      assert m in Winners(w'.senders, id) && Explains(w'.senders[m], report.state);
    }
  }

  /** Where the ID was never cleared, a winner is the only winner. */
  lemma OnlyWinner(w: World, n: nat, m: nat)
    requires WinnersBounded(w) && n in w.senders && m in w.senders
    requires w.senders[n].won && w.senders[m].won && w.senders[n].id == w.senders[m].id
    requires w.cleared[w.senders[n].id] == 0
    ensures n == m
  {
    var id := w.senders[n].id;
    assert |Winners(w.senders, id)| <= 1;
    if n != m {
      assert {n, m} <= Winners(w.senders, id);
      Smaller({n, m}, Winners(w.senders, id));
    }
  }

  lemma TransportKeeps(w: World, step: Step)
    requires Inv(w) && step.Transport?
    ensures Inv(Apply(w, step))
  {
    if step.n in w.senders && w.senders[step.n].phase == Reserved {
      var w', s := Apply(w, step), w.senders[step.n];
      assert SenderOk(s, w.clock);
      OneSenderOk(w, w', step.n);
      CallsStay(w, step);
      NoNewWinner(w, w', step.n);
      forall id | id in w'.db.receipts ensures ReceiptExplained(w', id) {
        CarryExplanation(w, w', id, step.n);
      }
    }
  }

  lemma CountStays(w: World, step: Step, id: RequestId)
    requires Inv(w) && step.Transport? && step.n in w.senders && w.senders[step.n].phase == Reserved
    ensures CallsFor(Apply(w, step).calls, id) == |Callers(Apply(w, step).senders, id)|
  {
    hide Consistent, WinnersBounded, ReceiptsExplained, FinalState;
    var w', s := Apply(w, step), w.senders[step.n];
    assert SenderOk(s, w.clock);
    ChangeSender(w.senders, step.n, w'.senders[step.n], id);
    assert CallsFor(w.calls, id) == |Callers(w.senders, id)|;
    assert step.n !in Callers(w.senders, id);
    if Invokes(s, step.attempt) { assert w'.calls[..|w'.calls| - 1] == w.calls; }
  }

  lemma CallsStay(w: World, step: Step)
    requires Inv(w) && step.Transport? && step.n in w.senders && w.senders[step.n].phase == Reserved
    ensures CallsCounted(Apply(w, step))
  {
    hide Consistent, WinnersBounded, ReceiptsExplained, FinalState, CallsFor, Callers;
    var w' := Apply(w, step);
    assert SenderOk(w.senders[step.n], w.clock);
    forall id { CountStays(w, step, id); }
    forall i | 0 <= i < |w'.calls| ensures CallOk(w'.senders, w'.calls[i]) {
      if i < |w.calls| { assert CallOk(w.senders, w.calls[i]); }
    }
    forall i, j | 0 <= i < j < |w'.calls| ensures w'.calls[i].sender != w'.calls[j].sender {
      assert CallOk(w.senders, w.calls[i]);
    }
  }

  lemma FinishKeeps(w: World, step: Step)
    requires Inv(w) && step.Finish?
    ensures Inv(Apply(w, step))
  {
    if step.n in w.senders && w.senders[step.n].phase.Returned? {
      var w', s := Apply(w, step), w.senders[step.n];
      assert SenderOk(s, w.clock);
      OneSenderOk(w, w', step.n);
      OneSenderCalls(w, w', step.n);
      FinishWinners(w, step);
      FinishReceipts(w, step);
    }
  }

  lemma FinishShape(db: Db, id: RequestId, report: Entry, at: int)
    ensures var r := FinishIn(db, id, report, at);
            r.Ok? ==>
              && Consistent(r.value) && |r.value.journal| <= r.value.limit
              && r.value.journal == db.journal + [NewRow(db, report, at)]
              && r.value.receipts == UpdateReceipt(db.receipts, id, report)
  {
    if AppendTo(db, report, at).Ok? { AppendStays(db, report, at); }
  }

  lemma FinishWinners(w: World, step: Step)
    requires Inv(w) && step.Finish? && step.n in w.senders && w.senders[step.n].phase.Returned?
    ensures WinnersBounded(Apply(w, step)) && Consistent(Apply(w, step).db)
    ensures |Apply(w, step).db.journal| <= Apply(w, step).db.limit
  {
    var w', s, at := Apply(w, step), w.senders[step.n], w.clock + step.delay;
    var report := Report(s.kind, s.id, s.phase.final);
    FinishShape(w.db, s.id, report, at);
    forall id ensures HasRequest(w.db.journal, id) ==> HasRequest(w'.db.journal, id) {
      AppendKeepsRequests(w.db.journal, NewRow(w.db, report, at), id);
    }
    NoNewWinner(w, w', step.n);
  }

  lemma FinishReceipts(w: World, step: Step)
    requires Inv(w) && step.Finish? && step.n in w.senders && w.senders[step.n].phase.Returned?
    ensures ReceiptsExplained(Apply(w, step))
  {
    var w', s, at := Apply(w, step), w.senders[step.n], w.clock + step.delay;
    var report := Report(s.kind, s.id, s.phase.final);
    assert SenderOk(s, w.clock);
    FinishShape(w.db, s.id, report, at);
    forall id | id in w'.db.receipts ensures ReceiptExplained(w', id) {
      if id == s.id && FinishIn(w.db, s.id, report, at).Ok? {
        assert step.n in Winners(w'.senders, id) && Explains(w'.senders[step.n], report.state);
      } else {
        CarryExplanation(w, w', id, step.n);
      }
    }
  }

  lemma ExecStep(w: World, steps: seq<Step>, step: Step)
    ensures Exec(w, steps + [step]) == Apply(Exec(w, steps), step)
  {
    assert (steps + [step])[..|steps|] == steps;
  }

  /** A reservation in a new, empty store. */
  lemma FirstReserve(limit: nat, id: RequestId, fingerprint: nat, initial: Entry)
    requires limit >= 2
    ensures var (outcome, db') := ReserveIn(Init(limit).db, id, fingerprint, initial, 0, 0);
            && outcome == Fresh && db'.limit == limit
            && db'.receipts == map[id := Receipt(fingerprint, initial, 0)]
            && Consistent(db') && |db'.journal| == 1 && db'.journal[0].at == 0
  {
    var db := Init(limit).db;
    assert PendingIds(db.receipts) == {};
    assert !HasRequest(db.journal, id);
    ReserveStays(db, id, fingerprint, initial, 0, 0);
  }

  /** A prune of a one-row journal, one day and a second later. */
  lemma PruneWhole(db: Db, now: int)
    requires Consistent(db) && |db.journal| == 1 <= db.limit && db.journal[0].at == 0 && now == 86401
    requires forall id :: id in db.receipts ==> db.receipts[id].at == 0
    ensures PruneIn(db, 1, now, now).Ok?
    ensures var db' := PruneIn(db, 1, now, now).value;
            && db'.limit == db.limit && db'.receipts == map[]
            && Consistent(db') && |db'.journal| == 1 && !IsRequest(db'.journal[0].payload)
  {
    assert PrefixLength(db.journal, 1) == 1;
    RetentionChains(db, 1, now, now);
  }

  lemma StepKeeps(w: World, step: Step)
    requires Inv(w)
    ensures Inv(Apply(w, step))
  {
    match step
    case Prepare(_, _, _, _, _, _, _, _) => PrepareKeeps(w, step);
    case Reserve(_, _, _) => ReserveKeeps(w, step);
    case Transport(_, _) => TransportKeeps(w, step);
    case Finish(_, _) => FinishKeeps(w, step);
    case Append(_, _) => AppendStepKeeps(w, step);
    case Prune(_, _) => PruneKeeps(w, step);
    case _ => PhaseOnlyKeeps(w, step);
  }

  lemma {:induction false} RunKeeps(limit: nat, steps: seq<Step>)
    ensures Inv(Exec(Init(limit), steps))
  {
    if steps != [] {
      RunKeeps(limit, steps[..|steps| - 1]);
      StepKeeps(Exec(Init(limit), steps[..|steps| - 1]), steps[|steps| - 1]);
    }
  }

  // ---- the theorems --------------------------------------------------------------------

  /** In every run the transport is invoked for one request ID at most once more
      than the number of prunes that removed that ID's last request row; no loss of
      receipt rows, crash or reopening changes that. */
  lemma DispatchedAtMostOnce(limit: nat, steps: seq<Step>, id: RequestId)
    ensures var w := Exec(Init(limit), steps);
            CallsFor(w.calls, id) <= w.cleared[id] + Bit(HasRequest(w.db.journal, id))
  {
    RunKeeps(limit, steps);
    var w := Exec(Init(limit), steps);
    assert CallsFor(w.calls, id) == |Callers(w.senders, id)|;
    assert |Winners(w.senders, id)| <= w.cleared[id] + Bit(HasRequest(w.db.journal, id));
    CallersWon(w, id);
    Smaller(Callers(w.senders, id), Winners(w.senders, id));
  }

  lemma CallersWon(w: World, id: RequestId)
    requires SendersOk(w)
    ensures Callers(w.senders, id) <= Winners(w.senders, id)
  {
    forall n | n in Callers(w.senders, id) ensures n in Winners(w.senders, id) {
      assert SenderOk(w.senders[n], w.clock);
    }
  }

  /** Receipts are truthful: until the journal rows of an ID are pruned, what its
      receipt says bounds the number of dispatches for that ID, and every call made
      for a verified response was made on the approved state and confirmed. */
  lemma ReceiptsTruthful(limit: nat, steps: seq<Step>, id: RequestId)
    requires var w := Exec(Init(limit), steps);
             id in w.db.receipts && IsRequest(w.db.receipts[id].report) && w.cleared[id] == 0
    ensures var w := Exec(Init(limit), steps);
            Truthful(w.db.receipts[id].report.state, CallsFor(w.calls, id))
  {
    RunKeeps(limit, steps);
    var w := Exec(Init(limit), steps);
    assert ReceiptExplained(w, id);
    var n :| n in Winners(w.senders, id) && Explains(w.senders[n], w.db.receipts[id].report.state);
    forall m | m in Callers(w.senders, id) ensures m == n {
      CallersWon(w, id);
      OnlyWinner(w, n, m);
    }
    assert CallsFor(w.calls, id) == |Callers(w.senders, id)|;
    assert Callers(w.senders, id) == if w.senders[n].called then {n} else {};
  }

  /** Every run keeps the chain verifiable, contiguous and within its limit. */
  lemma JournalAlwaysVerifies(limit: nat, steps: seq<Step>)
    ensures var db := Exec(Init(limit), steps).db;
            && Consistent(db) && |db.journal| <= limit
            && forall i :: 0 <= i < |db.journal| ==> db.journal[i].number == db.anchorSeq + 1 + i
  {
    RunKeeps(limit, steps);
    LimitStays(limit, steps);
    var db := Exec(Init(limit), steps).db;
    forall i | 0 <= i < |db.journal| ensures db.journal[i].number == db.anchorSeq + 1 + i {
      assert LinkOk(db.journal, db.anchorSeq, db.anchor, i);
    }
  }

  lemma StepLimit(w: World, step: Step)
    ensures Apply(w, step).db.limit == w.db.limit
  {
    hide PrepareAccepted, AfterReserve, FinalState, Invokes, ClearedBy, Consistent, HasRequest, NewRow;
  }

  lemma {:induction false} LimitStays(limit: nat, steps: seq<Step>)
    ensures Exec(Init(limit), steps).db.limit == limit
  {
    hide Apply;
    if steps != [] {
      LimitStays(limit, steps[..|steps| - 1]);
      StepLimit(Exec(Init(limit), steps[..|steps| - 1]), steps[|steps| - 1]);
    }
  }
}
