/** Capacity reserved ahead: a reservation keeps room for its result, so recording
    the result of a held reservation is never refused; and what a verified response
    proves about the calls made. */
module DispatchBudget {
  import opened Common
  import opened Journal
  import opened Dispatch
  import opened DispatchSafety

  function Pending(db: Db): nat { |PendingIds(db.receipts)| }

  /** Rows, plus one row for every reservation without a result. */
  function Committed(db: Db): nat { |db.journal| + Pending(db) }

  predicate Holds(db: Db, s: Sender) {
    s.id in db.receipts && IsPending(db.receipts[s.id])
  }

  ghost predicate Budget(w: World) {
    && Committed(w.db) <= w.db.limit
    && (forall n :: n in w.senders && Active(w.senders[n]) ==> Holds(w.db, w.senders[n]))
    && (forall m, n :: m in w.senders && n in w.senders && m != n && Active(w.senders[m]) && Active(w.senders[n]) ==>
          w.senders[m].id != w.senders[n].id)
  }

  /** The step leaves room for the results of held reservations: a plain append finds no
      room at all or room beyond what is committed, and no receipt of a held reservation
      is lost or pruned. */
  predicate Harmless(w: World, step: Step) {
    match step
    case Append(_, _) => |w.db.journal| >= w.db.limit || Committed(w.db) < w.db.limit
    case LoseReceipts(ids) => forall n :: n in w.senders && Active(w.senders[n]) ==> w.senders[n].id !in ids
    case Prune(before, _) =>
      before <= w.clock - RETENTION_FLOOR && PrefixLength(w.db.journal, before) > 0 ==>
        forall n :: n in w.senders && Active(w.senders[n]) && w.senders[n].id in w.db.receipts ==>
                      w.db.receipts[w.senders[n].id].at >= before
    case _ => true
  }

  predicate Guarded(w: World, steps: seq<Step>) {
    steps == [] || (Guarded(w, steps[..|steps| - 1]) && Harmless(Exec(w, steps[..|steps| - 1]), steps[|steps| - 1]))
  }

  lemma PendingAfterInsert(receipts: map<RequestId, Receipt>, id: RequestId, r: Receipt)
    requires id !in receipts
    ensures |PendingIds(receipts[id := r])| == |PendingIds(receipts)| + if IsPending(r) then 1 else 0
  {
    assert PendingIds(receipts[id := r]) == PendingIds(receipts) + if IsPending(r) then {id} else {};
  }

  lemma PendingAfterResult(receipts: map<RequestId, Receipt>, id: RequestId, r: Receipt)
    requires id in receipts && IsPending(receipts[id]) && !IsPending(r)
    ensures |PendingIds(receipts[id := r])| == |PendingIds(receipts)| - 1
  {
    assert PendingIds(receipts) == PendingIds(receipts[id := r]) + {id};
  }

  lemma PendingAfterLoss(receipts: map<RequestId, Receipt>, kept: map<RequestId, Receipt>)
    requires forall id :: id in kept ==> id in receipts && kept[id] == receipts[id]
    ensures |PendingIds(kept)| <= |PendingIds(receipts)|
  {
    Smaller(PendingIds(kept), PendingIds(receipts));
  }

  lemma ReserveBudget(w: World, step: Step)
    requires Inv(w) && Budget(w) && step.Reserve?
    ensures Budget(Apply(w, step))
  {
    hide Inv, ReserveIn, Chain;
    var w' := Apply(w, step);
    if step.n in w.senders && w.senders[step.n].phase == Prepared {
      var s, receiptAt := w.senders[step.n], w.clock + step.receiptDelay;
      var rowAt := receiptAt + step.rowDelay;
      ReserveShape(w.db, s.id, s.fingerprint, InitialReport(s), receiptAt, rowAt);
      if s.id !in w.db.receipts {
        PendingAfterInsert(w.db.receipts, s.id, Receipt(s.fingerprint, InitialReport(s), receiptAt));
      }
      forall n | n in w'.senders && Active(w'.senders[n]) ensures Holds(w'.db, w'.senders[n]) {
        if n != step.n { assert Holds(w.db, w.senders[n]); }
      }
    }
  }

  lemma FinishBudget(w: World, step: Step)
    requires Inv(w) && Budget(w) && step.Finish?
    ensures Budget(Apply(w, step))
    ensures step.n in w.senders && w.senders[step.n].phase.Returned? ==>
              var s := w.senders[step.n];
              FinishIn(w.db, s.id, Report(s.kind, s.id, s.phase.final), w.clock + step.delay).Ok?
  {
    var w' := Apply(w, step);
    if step.n in w.senders && w.senders[step.n].phase.Returned? {
      var s := w.senders[step.n];
      var report := Report(s.kind, s.id, s.phase.final);
      assert Holds(w.db, s) && SenderOk(s, w.clock);
      assert s.id in PendingIds(w.db.receipts);
      FinishShape(w.db, s.id, report, w.clock + step.delay);
      PendingAfterResult(w.db.receipts, s.id, w.db.receipts[s.id].(report := report));
      forall n | n in w'.senders && Active(w'.senders[n]) ensures Holds(w'.db, w'.senders[n]) {
        assert n != step.n && Holds(w.db, w.senders[n]);
      }
    }
  }

  /** The journal did not outgrow what was committed, and the senders that are active now
      were active before: then the budget holds exactly if they still hold receipts. */
  lemma StillHeld(w: World, w': World)
    requires Budget(w) && Committed(w'.db) <= w'.db.limit
    requires forall n :: n in w'.senders && Active(w'.senders[n]) ==>
               n in w.senders && Active(w.senders[n]) && w.senders[n].id == w'.senders[n].id
    ensures Budget(w') <==> forall n :: n in w'.senders && Active(w'.senders[n]) ==> Holds(w'.db, w'.senders[n])
  {
  }

  lemma QuietBudget(w: World, step: Step)
    requires Budget(w) && (step.Tick? || step.Prepare? || step.Transport? || step.Crash? || step.Reopen?)
    ensures Budget(Apply(w, step))
  {
    hide Committed, PrepareAccepted, FinalState, ReserveIn, FinishIn, PruneIn, AppendTo;
    var w' := Apply(w, step);
    forall n | n in w'.senders && Active(w'.senders[n]) ensures Holds(w'.db, w'.senders[n]) {
      assert Holds(w.db, w.senders[n]);
    }
  }

  /** A plain append breaks the budget exactly when it takes the last committed room. */
  lemma AppendBudget(w: World, step: Step)
    requires Inv(w) && Budget(w) && step.Append?
    ensures Budget(Apply(w, step)) <==> |w.db.journal| >= w.db.limit || Committed(w.db) < w.db.limit
  {
    var w' := Apply(w, step);
    forall n | n in w'.senders && Active(w'.senders[n]) ensures Holds(w'.db, w'.senders[n]) {
      assert Holds(w.db, w.senders[n]);
    }
  }

  /** Losing receipts breaks the budget exactly when a held reservation is among them. */
  lemma LossBudget(w: World, step: Step)
    requires Budget(w) && step.LoseReceipts?
    ensures Budget(Apply(w, step)) <==>
              forall n :: n in w.senders && Active(w.senders[n]) ==> w.senders[n].id !in step.ids
  {
    var w' := Apply(w, step);
    PendingAfterLoss(w.db.receipts, w'.db.receipts);
    StillHeld(w, w');
    forall n | n in w.senders && Active(w.senders[n])
      ensures Holds(w'.db, w.senders[n]) <==> w.senders[n].id !in step.ids
    {
      assert Holds(w.db, w.senders[n]);
    }
  }

  lemma PruneShape(db: Db, before: int, now: int, at: int)
    requires Consistent(db) && |db.journal| <= db.limit
    ensures var r, k := PruneIn(db, before, now, at), PrefixLength(db.journal, before);
            && (r.Ok? <==> before <= now - RETENTION_FLOOR)
            && (r.Ok? && k == 0 ==> r.value == db)
            && (r.Ok? && k > 0 ==>
                  && r.value.limit == db.limit && |r.value.journal| == |db.journal| - k + 1
                  && r.value.receipts == map id | id in db.receipts && db.receipts[id].at >= before :: db.receipts[id])
  {
    RetentionChains(db, before, now, at);
  }

  /** A prune breaks the budget exactly when it removes rows and, with them, the receipt
      of a held reservation. */
  lemma PruneBudget(w: World, step: Step)
    requires Inv(w) && Budget(w) && step.Prune?
    ensures Budget(Apply(w, step)) <==> Harmless(w, step)
  {
    hide PruneIn, Inv, Chain;
    var w', at := Apply(w, step), w.clock + step.delay;
    assert Consistent(w.db) && |w.db.journal| <= w.db.limit by { InvTables(w); }
    PruneShape(w.db, step.before, w.clock, at);
    PendingAfterLoss(w.db.receipts, w'.db.receipts);
    StillHeld(w, w');
    forall n | n in w.senders && Active(w.senders[n])
      ensures w.senders[n].id in w.db.receipts && IsPending(w.db.receipts[w.senders[n].id])
    {
      assert Holds(w.db, w.senders[n]);
    }
  }

  lemma InvTables(w: World)
    requires Inv(w)
    ensures Consistent(w.db) && |w.db.journal| <= w.db.limit
  {
  }

  /** One step keeps the budget if and only if it is harmless. */
  lemma StepBudget(w: World, step: Step)
    requires Inv(w) && Budget(w)
    ensures Budget(Apply(w, step)) <==> Harmless(w, step)
  {
    hide Inv, Budget, Apply, PrefixLength;
    match step
    case Reserve(_, _, _) => ReserveBudget(w, step);
    case Finish(_, _) => FinishBudget(w, step);
    case Append(_, _) => AppendBudget(w, step);
    case LoseReceipts(_) => LossBudget(w, step);
    case Prune(_, _) => PruneBudget(w, step);
    case _ => QuietBudget(w, step);
  }

  /** In every run, the budget holds at every moment exactly when every step is harmless. */
  lemma {:induction false} BudgetExactly(limit: nat, steps: seq<Step>)
    ensures (forall n :: 0 <= n <= |steps| ==> Budget(Exec(Init(limit), steps[..n]))) <==> Guarded(Init(limit), steps)
  {
    hide Budget, Apply, Harmless;
    if steps == [] {
      StartBudget(limit);
      assert steps[..0] == [];
    } else {
      var init := steps[..|steps| - 1];
      BudgetExactly(limit, init);
      assert forall n :: 0 <= n <= |init| ==> init[..n] == steps[..n];
      assert init[..|init|] == init && steps[..|steps|] == steps;
      if Guarded(Init(limit), init) {
        assert Budget(Exec(Init(limit), init[..|init|]));
        RunKeeps(limit, init);
        StepBudget(Exec(Init(limit), init), steps[|steps| - 1]);
      }
    }
  }

  lemma StartBudget(limit: nat)
    ensures Budget(Init(limit))
  {
    assert PendingIds(Init(limit).db.receipts) == {};
  }

  /** The results of these senders, recorded one after another, all find room. */
  predicate AllRecorded(w: World, ns: seq<nat>)
    requires forall n :: n in ns ==> n in w.senders && w.senders[n].phase.Returned?
    requires NoDuplicates(ns)
    decreases |ns|
  {
    if ns == [] then true
    else
      var n := ns[|ns| - 1];
      var s := w.senders[n];
      NoDuplicatesInit(ns);
      FinishIn(w.db, s.id, Report(s.kind, s.id, s.phase.final), w.clock).Ok? &&
        AllRecorded(Apply(w, Finish(n, 0)), ns[..|ns| - 1])
  }

  lemma NoDuplicatesInit(ns: seq<nat>)
    requires ns != [] && NoDuplicates(ns)
    ensures NoDuplicates(ns[..|ns| - 1]) && ns[|ns| - 1] !in ns[..|ns| - 1]
  {
  }

  /** Held results all find room, in any order, exactly when rows and held results
      together stay within the limit. */
  lemma {:induction false} RoomExactly(w: World, ns: seq<nat>)
    requires Inv(w) && NoDuplicates(ns) && forall n :: n in ns ==> n in w.senders && w.senders[n].phase.Returned?
    ensures AllRecorded(w, ns) <==> ns == [] || |w.db.journal| + |ns| <= w.db.limit
    decreases |ns|
  {
    if ns != [] {
      var n := ns[|ns| - 1];
      var s := w.senders[n];
      var report := Report(s.kind, s.id, s.phase.final);
      NoDuplicatesInit(ns);
      FinishShape(w.db, s.id, report, w.clock);
      StepKeeps(w, Finish(n, 0));
      RoomExactly(Apply(w, Finish(n, 0)), ns[..|ns| - 1]);
    }
  }

  /** Held reservations have pending receipts of their own. */
  lemma HeldCount(w: World, ns: seq<nat>)
    requires Budget(w) && NoDuplicates(ns) && forall n :: n in ns ==> n in w.senders && Active(w.senders[n])
    ensures |w.db.journal| + |ns| <= w.db.limit
  {
    var ids := seq(|ns|, i requires 0 <= i < |ns| && ns[i] in w.senders => w.senders[ns[i]].id);
    forall i, j | 0 <= i < j < |ids| ensures ids[i] != ids[j] {
      assert ns[i] != ns[j] && ns[i] in ns && ns[j] in ns;
    }
    forall id | id in ids ensures id in PendingIds(w.db.receipts) {
      var i :| 0 <= i < |ids| && ids[i] == id;
      assert ns[i] in ns && Holds(w.db, w.senders[ns[i]]);
    }
    LengthIsCardinality(ids);
    Smaller(Elements(ids), PendingIds(w.db.receipts));
  }

  lemma HeldFit(w: World, ns: seq<nat>)
    requires Inv(w) && Budget(w) && NoDuplicates(ns)
    requires forall n :: n in ns ==> n in w.senders && w.senders[n].phase.Returned?
    ensures AllRecorded(w, ns)
  {
    hide Inv, Budget, AllRecorded;
    HeldCount(w, ns);
    RoomExactly(w, ns);
  }

  /** In every run of harmless steps, rows plus pending receipts stay within the limit, and
      the results of all reservations held can be recorded, in any order. */
  lemma ResultsAlwaysFit(limit: nat, steps: seq<Step>, ns: seq<nat>)
    requires Guarded(Init(limit), steps) && NoDuplicates(ns)
    requires var w := Exec(Init(limit), steps); forall n :: n in ns ==> n in w.senders && w.senders[n].phase.Returned?
    ensures Committed(Exec(Init(limit), steps).db) <= limit
    ensures AllRecorded(Exec(Init(limit), steps), ns)
  {
    hide Apply, FinishIn, AllRecorded;
    RunKeeps(limit, steps);
    BudgetExactly(limit, steps);
    assert steps[..|steps|] == steps;
    LimitStays(limit, steps);
    HeldFit(Exec(Init(limit), steps), ns);
  }

  const STATE_CHANGE := Prepare(0, ResponseRequest, 5, 1, 1, Some(Plan(5, 9, 300, true)), true, true)

  lemma ExecThree(w: World, steps: seq<Step>, a: Step, b: Step, c: Step)
    ensures Exec(w, steps + [a] + [b] + [c]) == Apply(Apply(Apply(Exec(w, steps), a), b), c)
  {
    ExecStep(w, steps, a);
    ExecStep(w, steps + [a], b);
    ExecStep(w, steps + [a] + [b], c);
  }

  /** A reservation in a new store, attempted and not yet recorded. */
  lemma HeldChange(limit: nat) returns (w: World)
    requires limit >= 2
    ensures w == Apply(Apply(Apply(Init(limit), STATE_CHANGE), Reserve(0, 0, 0)),
                       Transport(0, Attempted(9, true, true)))
    ensures w.senders.Keys == {0} && w.senders[0].phase == Returned(Verified) && w.senders[0].id == 5
            && w.senders[0].kind == ResponseRequest
    ensures w.clock == 0 && w.db.limit == limit && Consistent(w.db) && |w.db.journal| == 1 && w.db.journal[0].at == 0
    ensures w.db.receipts.Keys == {5} && IsPending(w.db.receipts[5]) && w.db.receipts[5].at == 0
  {
    hide Chain;
    var w1 := Apply(Init(limit), STATE_CHANGE);
    FirstReserve(limit, 5, 1, InitialReport(w1.senders[0]));
    var w2 := Apply(w1, Reserve(0, 0, 0));
    assert w2.senders[0].phase == Reserved;
    w := Apply(w2, Transport(0, Attempted(9, true, true)));
  }

  lemma AppendAfterReserve(w: World)
    requires Consistent(w.db) && |w.db.journal| == 1 && w.db.limit == 2
    ensures var w' := Apply(w, Append(Other("inspection"), 0));
            && w'.senders == w.senders && w'.db.receipts == w.db.receipts
            && forall report :: FinishIn(w'.db, 5, report, w'.clock) == Err(CapacityReached)
  {
    AppendStays(w.db, Other("inspection"), w.clock);
  }

  /** Harmful steps do occur. One plain append, which looks only at the row count, takes the
      room kept for a result: in this run the sender holds its reservation and its result
      is refused... */
  lemma AppendTakesReservedRoom() returns (steps: seq<Step>)
    ensures var w := Exec(Init(2), steps);
            && 0 in w.senders && w.senders[0].phase == Returned(Verified) && Holds(w.db, w.senders[0])
            && FinishIn(w.db, 5, Report(ResponseRequest, 5, Verified), w.clock) == Err(CapacityReached)
  {
    hide Apply, FinishIn;
    var t, append := Attempted(9, true, true), Append(Other("inspection"), 0);
    ExecThree(Init(2), [], STATE_CHANGE, Reserve(0, 0, 0), Transport(0, t));
    steps := [] + [STATE_CHANGE] + [Reserve(0, 0, 0)] + [Transport(0, t)];
    ExecStep(Init(2), steps, append);
    var w := HeldChange(2);
    AppendAfterReserve(w);
    steps := steps + [append];
  }

  /** ... and so does the late result of a sender whose own pending receipt a prune
      already dropped: recording it uses a row without releasing one. */
  lemma LateResult(w: World, lost: nat, held: nat)
    requires Inv(w) && |w.db.journal| + 1 == w.db.limit && lost != held && lost in w.senders && held in w.senders
    requires w.senders[lost].phase == Returned(Verified) && w.senders[held].phase == Returned(Verified)
    requires w.senders[lost].id !in w.db.receipts && w.senders[held].id in w.db.receipts
    ensures var w', s := Apply(w, Finish(lost, 0)), w.senders[held];
            && w'.senders == w.senders[lost := w.senders[lost].(phase := Done)]
            && w'.db.receipts == w.db.receipts
            && FinishIn(w'.db, s.id, Report(s.kind, s.id, Verified), w'.clock) == Err(CapacityReached)
  {
    var s := w.senders[lost];
    FinishShape(w.db, s.id, Report(s.kind, s.id, Verified), w.clock);
  }

  const SECOND_CHANGE := Prepare(1, ResponseRequest, 6, 1, 1, Some(Plan(6, 9, 86701, true)), true, true)

  /** The first sender's journal row and receipt are pruned while it waits. */
  lemma PrunedWhileHeld() returns (w: World)
    ensures w == Apply(Apply(Apply(Apply(Apply(Init(3), STATE_CHANGE), Reserve(0, 0, 0)),
                                   Transport(0, Attempted(9, true, true))),
                             Tick(86401)), Prune(1, 0))
    ensures w.db.limit == 3 && w.db.receipts == map[] && |w.db.journal| == 1 && Consistent(w.db) && w.clock == 86401
    ensures !IsRequest(w.db.journal[0].payload)
    ensures w.senders.Keys == {0} && w.senders[0].phase == Returned(Verified) && w.senders[0].id == 5
            && w.senders[0].kind == ResponseRequest
  {
    hide Chain, PruneIn, ReserveIn, FinishIn, ClearedBy;
    var w3 := HeldChange(3);
    PruneWhole(w3.db, 86401);
    w := Apply(Apply(w3, Tick(86401)), Prune(1, 0));
  }

  /** The second sender then reserves the last room. */
  lemma ReservedAfterPrune(w: World) returns (w': World)
    requires w.db.limit == 3 && w.db.receipts == map[] && |w.db.journal| == 1 && Consistent(w.db) && w.clock == 86401
    requires w.senders.Keys == {0} && !IsRequest(w.db.journal[0].payload)
    ensures w' == Apply(Apply(Apply(w, SECOND_CHANGE), Reserve(1, 0, 0)), Transport(1, Attempted(9, true, true)))
    ensures |w'.db.journal| == 2 && w'.db.limit == 3 && w'.db.receipts.Keys == {6} && IsPending(w'.db.receipts[6])
    ensures 0 in w'.senders && w'.senders[0] == w.senders[0]
    ensures 1 in w'.senders && w'.senders[1].phase == Returned(Verified) && w'.senders[1].id == 6
            && w'.senders[1].kind == ResponseRequest
  {
    hide Chain;
    var w1 := Apply(w, SECOND_CHANGE);
    assert PendingIds(w.db.receipts) == {};
    assert !HasRequest(w.db.journal, 6);
    ReserveShape(w.db, 6, 1, InitialReport(w1.senders[1]), 86401, 86401);
    var w2 := Apply(w1, Reserve(1, 0, 0));
    assert w2.senders[1].phase == Reserved;
    w' := Apply(w2, Transport(1, Attempted(9, true, true)));
  }

  lemma PrunedReceiptTakesReservedRoom() returns (steps: seq<Step>)
    ensures var w := Exec(Init(3), steps);
            && 1 in w.senders && w.senders[1].phase == Returned(Verified) && Holds(w.db, w.senders[1])
            && FinishIn(w.db, 6, Report(ResponseRequest, 6, Verified), w.clock) == Err(CapacityReached)
  {
    hide Apply, FinishIn, Inv;
    var t := Attempted(9, true, true);
    ExecThree(Init(3), [], STATE_CHANGE, Reserve(0, 0, 0), Transport(0, t));
    steps := [] + [STATE_CHANGE] + [Reserve(0, 0, 0)] + [Transport(0, t)];
    ExecStep(Init(3), steps, Tick(86401));
    ExecStep(Init(3), steps + [Tick(86401)], Prune(1, 0));
    var w5 := PrunedWhileHeld();
    steps := steps + [Tick(86401)] + [Prune(1, 0)];
    var w8 := ReservedAfterPrune(w5);
    ExecThree(Init(3), steps, SECOND_CHANGE, Reserve(1, 0, 0), Transport(1, t));
    steps := steps + [SECOND_CHANGE] + [Reserve(1, 0, 0)] + [Transport(1, t)];
    RunKeeps(3, steps);
    LateResult(w8, 0, 1);
    ExecStep(Init(3), steps, Finish(0, 0));
    steps := steps + [Finish(0, 0)];
  }

  // ---- verified responses ------------------------------------------------------------

  /** A response call for this ID found exactly the approved state, returned, and
      the state read back was the expected one. */
  predicate ConfirmedCall(w: World, id: RequestId) {
    exists i :: 0 <= i < |w.calls| && ConfirmsAt(w, i, id)
  }

  predicate ConfirmsAt(w: World, i: nat, id: RequestId)
    requires i < |w.calls|
  {
    var c := w.calls[i];
    c.id == id && c.confirmed && c.sender in w.senders
    && w.senders[c.sender].kind.ResponseRequest? && w.senders[c.sender].approved == c.observed
  }

  ghost predicate VerifiedBacked(w: World) {
    && (forall n :: n in w.senders && w.senders[n].phase == Returned(Verified) ==> ConfirmedCall(w, w.senders[n].id))
    && (forall id :: id in w.db.receipts && IsVerified(w.db.receipts[id].report) ==> ConfirmedCall(w, id))
  }

  predicate IsVerified(e: Entry) { e.Report? && e.state == Verified }

  lemma ConfirmedStays(w: World, w': World, id: RequestId)
    requires ConfirmedCall(w, id) && w.calls <= w'.calls
    requires forall n :: n in w.senders ==>
               && n in w'.senders && w'.senders[n].kind == w.senders[n].kind
               && w'.senders[n].approved == w.senders[n].approved
    ensures ConfirmedCall(w', id)
  {
    var i :| 0 <= i < |w.calls| && ConfirmsAt(w, i, id);
    assert w'.calls[i] == w.calls[i];
    assert ConfirmsAt(w', i, id);
  }

  lemma SendersPersist(w: World, step: Step)
    ensures w.calls <= Apply(w, step).calls
    ensures forall n :: n in w.senders ==>
              && n in Apply(w, step).senders
              && Apply(w, step).senders[n].kind == w.senders[n].kind
              && Apply(w, step).senders[n].approved == w.senders[n].approved
              && Apply(w, step).senders[n].id == w.senders[n].id
  {
    hide ReserveIn, FinishIn, PruneIn, AppendTo, PrepareAccepted, ClearedBy, FinalState;
  }

  /** Receipts only ever change by a reservation, a result, or by vanishing. */
  lemma ReceiptOrigin(w: World, step: Step, id: RequestId)
    requires id in Apply(w, step).db.receipts && IsVerified(Apply(w, step).db.receipts[id].report)
    requires step.Finish? ==>
               !(step.n in w.senders && w.senders[step.n].phase == Returned(Verified) && w.senders[step.n].id == id)
    ensures id in w.db.receipts && IsVerified(w.db.receipts[id].report)
  {
  }

  lemma SenderVerified(w: World, step: Step, n: nat)
    requires VerifiedBacked(w) && n in Apply(w, step).senders && Apply(w, step).senders[n].phase == Returned(Verified)
    ensures ConfirmedCall(Apply(w, step), Apply(w, step).senders[n].id)
  {
    hide ReserveIn, FinishIn, PruneIn, PrepareAccepted, ClearedBy, AppendTo;
    var w' := Apply(w, step);
    SendersPersist(w, step);
    if n in w.senders && w.senders[n].phase == Returned(Verified) {
      ConfirmedStays(w, w', w.senders[n].id);
    } else {
      assert ConfirmsAt(w', |w.calls|, w'.senders[n].id);
    }
  }

  lemma StepVerified(w: World, step: Step)
    requires VerifiedBacked(w)
    ensures VerifiedBacked(Apply(w, step))
  {
    hide Apply;
    var w' := Apply(w, step);
    SendersPersist(w, step);
    forall n | n in w'.senders && w'.senders[n].phase == Returned(Verified) { SenderVerified(w, step, n); }
    forall id | id in w'.db.receipts && IsVerified(w'.db.receipts[id].report) ensures ConfirmedCall(w', id) {
      if step.Finish? && step.n in w.senders && w.senders[step.n].phase == Returned(Verified) &&
         w.senders[step.n].id == id {
        ConfirmedStays(w, w', id);
      } else {
        ReceiptOrigin(w, step, id);
        ConfirmedStays(w, w', id);
      }
    }
  }

  /** In every run, a receipt that says `verified` is backed by a call made on
      exactly the approved state hash whose read-back matched; while the ID's rows
      were never pruned that call is the only one, and a receipt that says
      `precondition_failed` means there was none. */
  lemma {:induction false} VerifiedResponses(limit: nat, steps: seq<Step>)
    ensures VerifiedBacked(Exec(Init(limit), steps))
    ensures var w := Exec(Init(limit), steps);
            forall id :: id in w.db.receipts && IsRequest(w.db.receipts[id].report) && w.cleared[id] == 0 ==>
              && (w.db.receipts[id].report.state == Verified ==> CallsFor(w.calls, id) == 1 && ConfirmedCall(w, id))
              && (w.db.receipts[id].report.state == PreconditionFailed ==> CallsFor(w.calls, id) == 0)
  {
    if steps != [] {
      VerifiedResponses(limit, steps[..|steps| - 1]);
      StepVerified(Exec(Init(limit), steps[..|steps| - 1]), steps[|steps| - 1]);
    }
    var w := Exec(Init(limit), steps);
    forall id | id in w.db.receipts && IsRequest(w.db.receipts[id].report) && w.cleared[id] == 0
      ensures Truthful(w.db.receipts[id].report.state, CallsFor(w.calls, id))
    {
      ReceiptsTruthful(limit, steps, id);
    }
  }
}
