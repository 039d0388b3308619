/** One signed label, one dispatch; one approved plan, one application: how the windows in
    which a permit passes its check and the one-day retention floor together bound what one
    permit can cause, even across prunes. */
module DispatchPermits {
  import opened Common
  import opened Approvals
  import opened Journal
  import opened Dispatch
  import opened DispatchSafety

  /** The longest delay between the check of a permit and the reservation that is still
      safe: a label passes during 315 s, a plan during 300 s. */
  function SafeWait(plan: bool): int { if plan then 86101 else 86086 }

  predicate OwnRow(rows: seq<Row>, id: RequestId, at: int) {
    exists i :: 0 <= i < |rows| && IsRequest(rows[i].payload) && rows[i].payload.requestId == id && rows[i].at == at
  }

  /** The reservation row of a winner is in the journal, or a prune removed it,
      and a prune leaves one full day of rows. */
  predicate RowTraced(w: World, s: Sender) {
    OwnRow(w.db.journal, s.id, s.reservedAt) || w.clock > s.reservedAt + RETENTION_FLOOR
  }

  ghost predicate RowsTraced(w: World) {
    forall n :: n in w.senders && w.senders[n].won ==> RowTraced(w, w.senders[n])
  }

  function Wait(s: Sender): int { s.reservedAt - s.verifiedAt }

  predicate SamePermit(a: Sender, b: Sender) {
    a.won && b.won && a.claim.Some? && a.claim == b.claim
  }

  predicate TooLate(s: Sender) {
    s.claim.Some? && Wait(s) > SafeWait(s.claim.value.Plan?)
  }

  ghost predicate PermitsSpaced(w: World) {
    forall m, n :: m in w.senders && n in w.senders && m != n && SamePermit(w.senders[m], w.senders[n]) ==>
      TooLate(w.senders[m]) || TooLate(w.senders[n])
  }

  lemma GrowRows(rows: seq<Row>, row: Row, id: RequestId, at: int)
    ensures OwnRow(rows, id, at) ==> OwnRow(rows + [row], id, at)
    ensures IsRequest(row.payload) && row.payload.requestId == id && row.at == at ==> OwnRow(rows + [row], id, at)
  {
    var rows' := rows + [row];
    if OwnRow(rows, id, at) {
      var i :| 0 <= i < |rows| && IsRequest(rows[i].payload) && rows[i].payload.requestId == id && rows[i].at == at;
      assert rows'[i] == rows[i];
    }
    assert rows'[|rows|] == row;
  }

  lemma OwnRowIsRequest(rows: seq<Row>, id: RequestId, at: int)
    requires OwnRow(rows, id, at)
    ensures HasRequest(rows, id)
  {
  }

  /** The journal grew or stayed, time went on, and the winners are the same. */
  lemma TraceStays(w: World, w': World)
    requires RowsTraced(w) && w'.clock >= w.clock
    requires w'.db.journal == w.db.journal || exists row :: w'.db.journal == w.db.journal + [row]
    requires forall n :: n in w'.senders && w'.senders[n].won ==>
               && n in w.senders && w.senders[n].won && w.senders[n].id == w'.senders[n].id
               && w.senders[n].reservedAt == w'.senders[n].reservedAt
    ensures RowsTraced(w')
  {
    forall n | n in w'.senders && w'.senders[n].won ensures RowTraced(w', w'.senders[n]) {
      assert RowTraced(w, w.senders[n]);
      if w'.db.journal != w.db.journal {
        var row :| w'.db.journal == w.db.journal + [row];
        GrowRows(w.db.journal, row, w.senders[n].id, w.senders[n].reservedAt);
      }
    }
  }

  lemma SpacingStays(w: World, w': World)
    requires PermitsSpaced(w)
    requires forall n :: n in w'.senders && w'.senders[n].won ==>
               && n in w.senders && w.senders[n].won && w.senders[n].claim == w'.senders[n].claim
               && Wait(w.senders[n]) == Wait(w'.senders[n])
    ensures PermitsSpaced(w')
  {
    forall m, n | m in w'.senders && n in w'.senders && m != n && SamePermit(w'.senders[m], w'.senders[n])
      ensures TooLate(w'.senders[m]) || TooLate(w'.senders[n])
    {
      assert SamePermit(w.senders[m], w.senders[n]);
    }
  }

  /** A row is cut only if it is older than the cut. */
  lemma CutRows(rows: seq<Row>, k: nat, row: Row, id: RequestId, at: int, before: int)
    requires k <= |rows| && OwnRow(rows, id, at) && forall i :: 0 <= i < k ==> rows[i].at < before
    ensures OwnRow(rows[k..] + [row], id, at) || at < before
  {
    var i :| 0 <= i < |rows| && IsRequest(rows[i].payload) && rows[i].payload.requestId == id && rows[i].at == at;
    if i >= k {
      assert rows[k..][i - k] == rows[i];
      GrowRows(rows[k..], row, id, at);
    }
  }

  lemma PruneTrace(w: World, step: Step)
    requires Inv(w) && RowsTraced(w) && step.Prune?
    ensures RowsTraced(Apply(w, step))
  {
    hide Chain, HasRequest, PrefixLength, ReserveIn, FinishIn, PendingIds, PermitsSpaced, SenderOk, OwnRow;
    var w', at := Apply(w, step), w.clock + step.delay;
    var k := PrefixLength(w.db.journal, step.before);
    if step.before <= w.clock - RETENTION_FLOOR && k > 0 {
      RetentionChains(w.db, step.before, w.clock, at);
      forall n | n in w'.senders && w'.senders[n].won ensures RowTraced(w', w'.senders[n]) {
        var s := w.senders[n];
        assert RowTraced(w, s);
        if OwnRow(w.db.journal, s.id, s.reservedAt) {
          CutRows(w.db.journal, k, NewRow(Cut(w.db, step.before), Retention(k, Head(w.db)), at), s.id, s.reservedAt,
                  step.before);
        }
      }
    } else {
      TraceStays(w, w');
    }
  }

  lemma WinnerTraced(w: World, w': World, n: nat, row: Row)
    requires RowsTraced(w) && w'.clock >= w.clock && w'.db.journal == w.db.journal + [row]
    requires n in w.senders && n in w'.senders && w'.senders == w.senders[n := w'.senders[n]]
    requires IsRequest(row.payload) && row.payload.requestId == w'.senders[n].id && row.at == w'.senders[n].reservedAt
    ensures RowsTraced(w')
  {
    forall m | m in w'.senders && w'.senders[m].won ensures RowTraced(w', w'.senders[m]) {
      GrowRows(w.db.journal, row, w'.senders[m].id, w'.senders[m].reservedAt);
      if m != n { assert RowTraced(w, w.senders[m]); }
    }
  }

  /** A second reservation under the same label finds the first one's row gone, so
      a whole retention day has passed since the label was valid. */
  lemma WinnerSpaced(w: World, w': World, n: nat)
    requires SendersOk(w) && SendersOk(w') && RowsTraced(w) && PermitsSpaced(w)
    requires n in w.senders && n in w'.senders && !w.senders[n].won && w'.senders == w.senders[n := w'.senders[n]]
    requires w'.senders[n].won && w'.senders[n].reservedAt >= w.clock && !HasRequest(w.db.journal, w'.senders[n].id)
    ensures PermitsSpaced(w')
  {
    var s := w'.senders[n];
    assert SenderOk(s, w'.clock);
    forall m | m in w.senders && m != n && SamePermit(w.senders[m], s) ensures TooLate(s) {
      var first := w.senders[m];
      assert RowTraced(w, first) && SenderOk(first, w.clock);
      if OwnRow(w.db.journal, first.id, first.reservedAt) {
        OwnRowIsRequest(w.db.journal, first.id, first.reservedAt);
      }
    }
    forall l, m | l in w'.senders && m in w'.senders && l != m && SamePermit(w'.senders[l], w'.senders[m])
      ensures TooLate(w'.senders[l]) || TooLate(w'.senders[m])
    {
      if l != n && m != n { assert SamePermit(w.senders[l], w.senders[m]); }
    }
  }

  lemma ReserveSpacing(w: World, step: Step)
    requires Inv(w) && RowsTraced(w) && PermitsSpaced(w) && step.Reserve?
    ensures RowsTraced(Apply(w, step)) && PermitsSpaced(Apply(w, step))
  {
    hide RowsTraced, PermitsSpaced;
    var w' := Apply(w, step);
    if step.n in w.senders && w.senders[step.n].phase == Prepared {
      var s, receiptAt := w.senders[step.n], w.clock + step.receiptDelay;
      var rowAt := receiptAt + step.rowDelay;
      ReserveShape(w.db, s.id, s.fingerprint, InitialReport(s), receiptAt, rowAt);
      assert SenderOk(s, w.clock);
      if w'.senders[step.n].won {
        OneSenderOk(w, w', step.n);
        WinnerTraced(w, w', step.n, NewRow(w.db, InitialReport(s), rowAt));
        WinnerSpaced(w, w', step.n);
      } else {
        TraceStays(w, w');
        SpacingStays(w, w');
      }
    }
  }

  lemma FinishSpacing(w: World, step: Step)
    requires RowsTraced(w) && PermitsSpaced(w) && step.Finish?
    ensures RowsTraced(Apply(w, step)) && PermitsSpaced(Apply(w, step))
  {
    if step.n in w.senders && w.senders[step.n].phase.Returned? {
      var s := w.senders[step.n];
      FinishShape(w.db, s.id, Report(s.kind, s.id, s.phase.final), w.clock + step.delay);
      TraceStays(w, Apply(w, step));
      SpacingStays(w, Apply(w, step));
    }
  }

  /** Steps that only append, or leave the journal alone, and reserve nothing. */
  lemma QuietSpacing(w: World, step: Step)
    requires RowsTraced(w) && PermitsSpaced(w)
    requires !step.Reserve? && !step.Prune? && !step.Finish?
    ensures RowsTraced(Apply(w, step)) && PermitsSpaced(Apply(w, step))
  {
    hide RowsTraced, PermitsSpaced;
    TraceStays(w, Apply(w, step));
    SpacingStays(w, Apply(w, step));
  }

  lemma StepSpacing(w: World, step: Step)
    requires Inv(w) && RowsTraced(w) && PermitsSpaced(w)
    ensures RowsTraced(Apply(w, step)) && PermitsSpaced(Apply(w, step))
  {
    if step.Reserve? {
      ReserveSpacing(w, step);
    } else if step.Prune? {
      PruneTrace(w, step);
      SpacingStays(w, Apply(w, step));
    } else if step.Finish? {
      FinishSpacing(w, step);
    } else {
      QuietSpacing(w, step);
    }
  }

  lemma {:induction false} RunSpacing(limit: nat, steps: seq<Step>)
    ensures RowsTraced(Exec(Init(limit), steps)) && PermitsSpaced(Exec(Init(limit), steps))
  {
    if steps != [] {
      RunKeeps(limit, steps[..|steps| - 1]);
      RunSpacing(limit, steps[..|steps| - 1]);
      StepSpacing(Exec(Init(limit), steps[..|steps| - 1]), steps[|steps| - 1]);
    }
  }

  /** No label was dispatched twice, or no plan applied twice. */
  predicate UsedOnce(w: World, plan: bool) {
    forall i, j :: 0 <= i < j < |w.calls| && w.calls[i].claim.Some? && w.calls[i].claim.value.Plan? == plan ==>
      w.calls[i].claim != w.calls[j].claim
  }

  predicate WaitsWithin(w: World, bound: int) {
    forall n :: n in w.senders && w.senders[n].won ==> Wait(w.senders[n]) <= bound
  }

  /** Whenever every reservation follows its check within `bound` seconds, no label is
      dispatched, or no plan applied, twice, in any run. */
  ghost predicate SafeBound(bound: int, plan: bool) {
    forall limit: nat, steps: seq<Step> ::
      WaitsWithin(Exec(Init(limit), steps), bound) ==> UsedOnce(Exec(Init(limit), steps), plan)
  }

  lemma PermitUsedOnce(limit: nat, steps: seq<Step>, plan: bool)
    requires WaitsWithin(Exec(Init(limit), steps), SafeWait(plan))
    ensures UsedOnce(Exec(Init(limit), steps), plan)
  {
    hide Apply, Exec;
    var w := Exec(Init(limit), steps);
    RunKeeps(limit, steps);
    RunSpacing(limit, steps);
    forall i, j | 0 <= i < j < |w.calls| && w.calls[i].claim.Some? && w.calls[i].claim.value.Plan? == plan
      ensures w.calls[i].claim != w.calls[j].claim
    {
      var m, n := w.calls[i].sender, w.calls[j].sender;
      assert CallOk(w.senders, w.calls[i]) && CallOk(w.senders, w.calls[j]) && m != n;
      assert SenderOk(w.senders[m], w.clock) && SenderOk(w.senders[n], w.clock);
      assert !SamePermit(w.senders[m], w.senders[n]);
    }
  }

  // ---- one second more is too long --------------------------------------------------

  /** The first second in which this permit passes is 0, the last one `LastSecond`. */
  function LatePermit(plan: bool): Permit {
    if plan then Plan(7, 9, 300, true) else Label(7, 1, Public, 15, 315, true)
  }

  function LastSecond(plan: bool): nat { if plan then 299 else 314 }

  function LateKind(plan: bool): Kind { if plan then ResponseRequest else TextRequest }

  function PrepareLate(n: nat, plan: bool): Step {
    Prepare(n, LateKind(plan), 7, 1, 1, Some(LatePermit(plan)), true, true)
  }

  function LateCall(plan: bool): Call { Call(0, 7, Some(LatePermit(plan)), 9, false) }

  const UNANSWERED := Attempted(9, false, false)

  lemma LateFirstSteps(plan: bool) returns (w: World)
    ensures w == Apply(Apply(Apply(Init(4), PrepareLate(0, plan)), Reserve(0, 0, 0)), Transport(0, UNANSWERED))
    ensures w.clock == 0 && w.senders.Keys == {0} && w.senders[0].won && Wait(w.senders[0]) == 0
    ensures w.calls == [LateCall(plan)]
    ensures w.db.limit == 4 && (forall id :: id in w.db.receipts ==> w.db.receipts[id].at == 0)
    ensures Consistent(w.db) && |w.db.journal| == 1 && w.db.journal[0].at == 0
  {
    hide Chain, ReserveIn, PruneIn, FinishIn, ClearedBy, HasRequest, PendingIds;
    var w1 := Apply(Init(4), PrepareLate(0, plan));
    FirstReserve(4, 7, 1, InitialReport(w1.senders[0]));
    var w2 := Apply(w1, Reserve(0, 0, 0));
    assert w2.senders[0].won && w2.senders[0].phase == Reserved;
    w := Apply(w2, Transport(0, UNANSWERED));
  }

  /** A reservation in the permit's first valid second, dispatched and never finished. */
  lemma LateFirst(plan: bool) returns (steps: seq<Step>, w: World)
    ensures w == Exec(Init(4), steps)
    ensures w.clock == 0 && w.senders.Keys == {0} && w.senders[0].won && Wait(w.senders[0]) == 0
    ensures w.calls == [LateCall(plan)]
    ensures w.db.limit == 4 && (forall id :: id in w.db.receipts ==> w.db.receipts[id].at == 0)
    ensures Consistent(w.db) && |w.db.journal| == 1 && w.db.journal[0].at == 0
  {
    hide Apply;
    var s1, s2, s3 := PrepareLate(0, plan), Reserve(0, 0, 0), Transport(0, UNANSWERED);
    ExecStep(Init(4), [], s1);
    ExecStep(Init(4), [] + [s1], s2);
    ExecStep(Init(4), [] + [s1] + [s2], s3);
    w := LateFirstSteps(plan);
    steps := [] + [s1] + [s2] + [s3];
  }

  /** A second check in the permit's last valid second, and a wait until the first
      reservation's row can be pruned. */
  lemma LatePruned(steps: seq<Step>, w: World, plan: bool) returns (steps': seq<Step>, w': World)
    requires w == Exec(Init(4), steps) && w.clock == 0 && 1 !in w.senders
    requires forall id :: id in w.db.receipts ==> w.db.receipts[id].at == 0
    requires Consistent(w.db) && |w.db.journal| == 1 <= w.db.limit && w.db.journal[0].at == 0
    ensures w' == Exec(Init(4), steps')
    ensures w'.clock == 86401 && w'.calls == w.calls && w'.db.limit == w.db.limit && w'.db.receipts == map[]
    ensures w'.senders == w.senders[1 := SecondLate(plan)]
    ensures Consistent(w'.db) && |w'.db.journal| == 1 && !IsRequest(w'.db.journal[0].payload)
  {
    hide Chain, ReserveIn, PruneIn, FinishIn, ClearedBy, HasRequest, PendingIds;
    var s1, s2, s3, s4 :=
      Tick(LastSecond(plan)), PrepareLate(1, plan), Tick(86401 - LastSecond(plan)), Prune(1, 0);
    ExecStep(Init(4), steps, s1);
    var w1 := Apply(w, s1);
    ExecStep(Init(4), steps + [s1], s2);
    var w2 := Apply(w1, s2);
    ExecStep(Init(4), steps + [s1] + [s2], s3);
    var w3 := Apply(w2, s3);
    ExecStep(Init(4), steps + [s1] + [s2] + [s3], s4);
    PruneWhole(w3.db, w3.clock);
    w' := Apply(w3, s4);
    steps' := steps + [s1] + [s2] + [s3] + [s4];
  }

  function SecondLate(plan: bool): Sender {
    Sender(LateKind(plan), 7, 1, 1, Some(LatePermit(plan)), true, true, if plan then 9 else 0, LastSecond(plan),
           Prepared, false, 0, false)
  }

  /** The reservation after the prune succeeds and the same permit is used again. */
  lemma LateSecond(w: World, plan: bool) returns (w': World)
    requires w.clock == 86401 && w.calls == [LateCall(plan)] && w.db.limit == 4 && w.db.receipts == map[]
    requires w.senders.Keys == {0, 1} && w.senders[0].won && Wait(w.senders[0]) == 0
    requires w.senders[1] == SecondLate(plan)
    requires Consistent(w.db) && |w.db.journal| == 1 && !IsRequest(w.db.journal[0].payload)
    ensures w' == Apply(Apply(w, Reserve(1, 0, 0)), Transport(1, UNANSWERED))
    ensures WaitsWithin(w', SafeWait(plan) + 1) && !UsedOnce(w', plan)
  {
    hide Chain;
    assert PendingIds(w.db.receipts) == {};
    assert !HasRequest(w.db.journal, 7);
    var w9 := Apply(w, Reserve(1, 0, 0));
    assert w9.senders[1].won && w9.senders[1].phase == Reserved;
    w' := Apply(w9, Transport(1, UNANSWERED));
    assert |w'.calls| == 2 && w'.calls[0].claim == w'.calls[1].claim;
    assert Wait(w'.senders[1]) == SafeWait(plan) + 1;
  }

  /** With a wait of one second more, one label is dispatched, one plan applied, twice. */
  lemma LatePermitUsedTwice(plan: bool) returns (steps: seq<Step>)
    ensures var w := Exec(Init(4), steps);
            WaitsWithin(w, SafeWait(plan) + 1) && !UsedOnce(w, plan)
  {
    hide Apply, Exec;
    var steps4, w4 := LateFirst(plan);
    var steps8, w8 := LatePruned(steps4, w4, plan);
    var s9, s10 := Reserve(1, 0, 0), Transport(1, UNANSWERED);
    ExecStep(Init(4), steps8, s9);
    ExecStep(Init(4), steps8 + [s9], s10);
    var w10 := LateSecond(w8, plan);
    steps := steps8 + [s9] + [s10];
  }

  /** One signed label leads to at most one dispatch, across any prunes and in any run,
      exactly when reservations follow their check within 86,086 s, and one approved plan
      to at most one application exactly when they follow it within 86,101 s. */
  lemma PermitBoundExact(bound: int, plan: bool)
    ensures SafeBound(bound, plan) <==> bound <= SafeWait(plan)
  {
    if bound <= SafeWait(plan) {
      forall limit: nat, steps: seq<Step> | WaitsWithin(Exec(Init(limit), steps), bound)
        ensures UsedOnce(Exec(Init(limit), steps), plan)
      {
        PermitUsedOnce(limit, steps, plan);
      }
    } else {
      var steps := LatePermitUsedTwice(plan);
      assert WaitsWithin(Exec(Init(4), steps), bound);
    }
  }

  // ---- approved plans -------------------------------------------------------------------

  /** The permit of an approved plan: its request ID and state are codes of the plan's. */
  function PermitOf(p: Proposal, requestOf: string -> RequestId, stateOf: string -> nat): Permit {
    Plan(requestOf(p.id), stateOf(p.stateHash), p.expiresAt, true)
  }

  /** A plan that two operators approved enters a run, and by whatever later pair it is
      approved again, it enters as the same permit. */
  lemma ApprovedPlanEnters(p: Proposal, proofs: seq<Proof>, keys: map<string, string>, now: int, crypto: Crypto,
                           requestOf: string -> RequestId, stateOf: string -> nat)
    requires Independent(p, proofs, keys, now, crypto)
    ensures PrepareAccepted(ResponseRequest, Some(PermitOf(p, requestOf, stateOf)), requestOf(p.id), 0, now)
  {
  }
}
