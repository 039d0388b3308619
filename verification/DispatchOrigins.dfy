/** What each request of a run leads to, told by the step that prepared it: which requests go
    out, what is recorded of them, and which of them a stored receipt answers. */
module DispatchOrigins {
  import opened Common
  import opened Journal
  import opened Dispatch
  import opened DispatchSafety

  // ---- the step that prepared a sender -------------------------------------------------

  /** A clean text, or clean files, under a public label may go out, and an approved plan. */
  predicate MayGoOut(p: Step)
    requires p.Prepare?
  {
    || p.kind == ResponseRequest
    || ((p.kind == TextRequest || p.kind == BundleRequest)
        && p.clean && p.claim.Some? && p.claim.value.Label? && p.claim.value.dataClass == Public)
  }

  /** The permit is genuine, made for this very request, and of this moment. A text may come
      without one. */
  predicate PermitHolds(p: Step, now: int)
    requires p.Prepare?
  {
    match p.kind
    case ResponseRequest =>
      && p.claim.Some? && p.claim.value.Plan? && p.claim.value.paired && p.claim.value.requestId == p.id
      && now < p.claim.value.expiresAt <= now + 300
    case Observation => p.claim.None?
    case _ =>
      p.claim.Some? ==>
        var c := p.claim.value;
        && c.Label? && c.signed && c.requestId == p.id && c.content == p.content
        && now - 300 <= c.issuedAt <= now + 15 && now < c.expiresAt <= c.issuedAt + 300
        && (p.kind == BundleRequest ==> c.dataClass == Public && c.expiresAt == c.issuedAt + 300)
  }

  /** Step `k` of the run is the one that prepared sender `n`. */
  predicate PreparedAt(limit: nat, steps: seq<Step>, k: nat, n: nat) {
    && k < |steps| && steps[k].Prepare? && steps[k].n == n
    && n !in Exec(Init(limit), steps[..k]).senders && PermitHolds(steps[k], Exec(Init(limit), steps[..k]).clock)
  }

  function PlannedState(p: Step): nat
    requires p.Prepare?
  {
    if p.claim.Some? && p.claim.value.Plan? then p.claim.value.stateHash else 0
  }

  /** The sender carries the request that the step prepared. */
  predicate Carries(s: Sender, p: Step)
    requires p.Prepare?
  {
    && s.kind == p.kind && s.id == p.id && s.content == p.content && s.fingerprint == p.fingerprint
    && s.claim == p.claim && s.live == p.live && (s.allow <==> MayGoOut(p)) && s.approved == PlannedState(p)
  }

  /** A request enters exactly when its sender is new and its permit holds, or there is none
      and none is needed. */
  lemma PreparesExactly(w: World, p: Step)
    requires p.Prepare?
    ensures p.n in Apply(w, p).senders <==> p.n in w.senders || PermitHolds(p, w.clock)
    ensures p.n !in w.senders && PermitHolds(p, w.clock) ==>
              Carries(Apply(w, p).senders[p.n], p) && Apply(w, p).senders[p.n].phase == Prepared
    ensures Apply(w, p).db == w.db && Apply(w, p).calls == w.calls
  {
  }

  lemma StillCarries(w: World, step: Step, n: nat)
    requires n in w.senders
    ensures n in Apply(w, step).senders
    ensures forall p: Step :: p.Prepare? ==> (Carries(Apply(w, step).senders[n], p) <==> Carries(w.senders[n], p))
  {
    hide ReserveIn, FinishIn, PruneIn, AppendTo, PrepareAccepted, ClearedBy, FinalState;
  }

  lemma NewByPrepare(w: World, step: Step, n: nat)
    requires n !in w.senders && n in Apply(w, step).senders
    ensures step.Prepare? && step.n == n
  {
  }

  /** Every sender was prepared by some step of the run, and carries what that step says. */
  lemma {:induction false} Origin(limit: nat, steps: seq<Step>, n: nat) returns (k: nat)
    requires n in Exec(Init(limit), steps).senders
    ensures PreparedAt(limit, steps, k, n) && Carries(Exec(Init(limit), steps).senders[n], steps[k])
  {
    hide Apply, Carries, PermitHolds;
    var last := |steps| - 1;
    var w := Exec(Init(limit), steps[..last]);
    if n in w.senders {
      k := Origin(limit, steps[..last], n);
      assert steps[..last][..k] == steps[..k];
      StillCarries(w, steps[last], n);
    } else {
      NewByPrepare(w, steps[last], n);
      PreparesExactly(w, steps[last]);
      k := last;
    }
  }

  /** The same step is the only one that prepared the sender. */
  lemma OneOrigin(limit: nat, steps: seq<Step>, k: nat, n: nat)
    requires PreparedAt(limit, steps, k, n) && n in Exec(Init(limit), steps).senders
    ensures Carries(Exec(Init(limit), steps).senders[n], steps[k])
  {
    hide Apply, Carries, PermitHolds;
    var i := Origin(limit, steps, n);
    var first, second := if i <= k then i else k, if i <= k then k else i;
    if first < second {
      PreparesExactly(Exec(Init(limit), steps[..first]), steps[first]);
      assert steps[..first + 1][..first] == steps[..first];
      SendersStay(limit, steps, first + 1, second, n);
    }
  }

  lemma {:induction false} SendersStay(limit: nat, steps: seq<Step>, i: nat, j: nat, n: nat)
    requires i <= j <= |steps| && n in Exec(Init(limit), steps[..i]).senders
    ensures n in Exec(Init(limit), steps[..j]).senders
  {
    hide Apply, Carries;
    if i < j {
      SendersStay(limit, steps, i, j - 1, n);
      assert steps[..j][..j - 1] == steps[..j - 1];
      StillCarries(Exec(Init(limit), steps[..j - 1]), steps[j - 1], n);
    }
  }

  // ---- what goes out -------------------------------------------------------------------

  /** The call is that of a request which may go out; a plan is applied on its state. */
  predicate GoesOutBy(limit: nat, steps: seq<Step>, k: nat, c: Call) {
    && PreparedAt(limit, steps, k, c.sender) && MayGoOut(steps[k]) && c.id == steps[k].id && c.claim == steps[k].claim
    && (steps[k].kind == ResponseRequest ==> c.observed == PlannedState(steps[k]))
  }

  ghost predicate Released(limit: nat, steps: seq<Step>, c: Call) {
    exists k: nat :: GoesOutBy(limit, steps, k, c)
  }

  predicate OnState(w: World, c: Call) {
    && c.sender in w.senders
    && (w.senders[c.sender].kind == ResponseRequest ==> c.observed == w.senders[c.sender].approved)
  }

  lemma StepOnState(w: World, step: Step)
    requires forall i :: 0 <= i < |w.calls| ==> OnState(w, w.calls[i])
    ensures forall i :: 0 <= i < |Apply(w, step).calls| ==> OnState(Apply(w, step), Apply(w, step).calls[i])
  {
    hide ReserveIn, FinishIn, PruneIn, AppendTo, PrepareAccepted, ClearedBy, FinalState;
    var w' := Apply(w, step);
    forall i | 0 <= i < |w'.calls| ensures OnState(w', w'.calls[i]) {
      if i < |w.calls| {
        assert w'.calls[i] == w.calls[i] && OnState(w, w.calls[i]);
      }
    }
  }

  lemma {:induction false} CallsOnState(limit: nat, steps: seq<Step>)
    ensures forall i :: 0 <= i < |Exec(Init(limit), steps).calls| ==>
              OnState(Exec(Init(limit), steps), Exec(Init(limit), steps).calls[i])
  {
    hide Apply, OnState;
    if steps != [] {
      CallsOnState(limit, steps[..|steps| - 1]);
      StepOnState(Exec(Init(limit), steps[..|steps| - 1]), steps[|steps| - 1]);
    }
  }

  /** In every run, whatever goes out was prepared clean and under a genuine public label of
      its own text, or as an approved plan, and a plan is applied on the approved state. */
  lemma OnlyPublicGoesOut(limit: nat, steps: seq<Step>)
    ensures forall i :: 0 <= i < |Exec(Init(limit), steps).calls| ==>
              Released(limit, steps, Exec(Init(limit), steps).calls[i])
  {
    hide Apply, MayGoOut, PermitHolds, Exec;
    var w := Exec(Init(limit), steps);
    RunKeeps(limit, steps);
    CallsOnState(limit, steps);
    forall i | 0 <= i < |w.calls| ensures Released(limit, steps, w.calls[i]) {
      var c := w.calls[i];
      assert CallOk(w.senders, c) && SenderOk(w.senders[c.sender], w.clock);
      var k := Origin(limit, steps, c.sender);
      assert GoesOutBy(limit, steps, k, c);
    }
  }

  // ---- what a reservation does -----------------------------------------------------------

  /** No row of the journal reserves this ID. */
  predicate Unreserved(rows: seq<Row>, id: RequestId) {
    forall i :: 0 <= i < |rows| && rows[i].payload.Report? && rows[i].payload.requestId == id ==>
      rows[i].payload.kind == Observation
  }

  /** The IDs whose receipt still waits for a result. */
  function Waiting(receipts: map<RequestId, Receipt>): set<RequestId> {
    set id | id in receipts && receipts[id].report.Report? && receipts[id].report.state == DispatchPending
  }

  /** The ID is new to the store, and there is room for its rows beside all results awaited. */
  predicate Reservable(db: Db, id: RequestId) {
    id !in db.receipts && Unreserved(db.journal, id) && |db.journal| + |Waiting(db.receipts)| + 2 <= db.limit
  }

  /** The first report on a request. */
  function FirstReport(p: Step): Entry
    requires p.Prepare?
  {
    Report(p.kind, p.id,
           if p.kind == Observation then NoState else if MayGoOut(p) then DispatchPending else PreventedInGateway)
  }

  lemma SameFreshness(db: Db, id: RequestId)
    ensures HasRequest(db.journal, id) <==> !Unreserved(db.journal, id)
    ensures PendingIds(db.receipts) == Waiting(db.receipts)
  {
  }

  /** What a reservation makes of the tables and its sender. */
  ghost predicate Reserves(w: World, w': World, p: Step, n: nat, receiptAt: int)
    requires p.Prepare?
  {
    && w'.calls == w.calls && n in w'.senders
    && (if Reservable(w.db, p.id) then
          && |w'.db.journal| == |w.db.journal| + 1 && w'.db.journal[..|w.db.journal|] == w.db.journal
          && w'.db.journal[|w.db.journal|].payload == FirstReport(p)
          && w'.db.receipts == w.db.receipts[p.id := Receipt(p.fingerprint, FirstReport(p), receiptAt)]
          && (w'.senders[n].phase == if p.kind != Observation && MayGoOut(p) then Reserved else Done)
        else w'.db == w.db && w'.senders[n].phase == Done)
  }

  lemma ReserveMakes(w: World, p: Step, n: nat, receiptDelay: nat, rowDelay: nat)
    requires p.Prepare? && Consistent(w.db) && n in w.senders && w.senders[n].phase == Prepared
    requires Carries(w.senders[n], p)
    ensures Reserves(w, Apply(w, Reserve(n, receiptDelay, rowDelay)), p, n, w.clock + receiptDelay)
  {
    hide MayGoOut, PermitHolds, Chain, Unreserved, HasRequest, PendingIds, Waiting;
    hide FinishIn, PruneIn, AppendTo, Consistent, ClearedBy;
    SameFreshness(w.db, p.id);
  }

  /** A reservation in any run: made exactly when the ID is new and there is room; then its
      first report is recorded and stored, and the sender goes on exactly when its request
      may go out. Otherwise nothing changes but the clock. */
  lemma ReservesExactly(limit: nat, steps: seq<Step>, k: nat, n: nat, receiptDelay: nat, rowDelay: nat)
    requires PreparedAt(limit, steps, k, n) && n in Exec(Init(limit), steps).senders
    requires Exec(Init(limit), steps).senders[n].phase == Prepared
    ensures var w := Exec(Init(limit), steps);
            Reserves(w, Apply(w, Reserve(n, receiptDelay, rowDelay)), steps[k], n, w.clock + receiptDelay)
  {
    hide Apply, Carries, Reserves, Exec, Consistent;
    RunKeeps(limit, steps);
    OneOrigin(limit, steps, k, n);
    ReserveMakes(Exec(Init(limit), steps), steps[k], n, receiptDelay, rowDelay);
  }

  /** The final state of an attempt. */
  function ResultOf(p: Step, a: Attempt): ExecState
    requires p.Prepare?
  {
    if a == Halted then DeliveryUnknown
    else if p.kind == ResponseRequest && a.observed != PlannedState(p) then PreconditionFailed
    else if !a.returned then DeliveryUnknown
    else if p.kind == ResponseRequest then if a.confirmed then Verified else DeliveryUnknown
    else if p.live then ProviderCompleted else DemoReceived
  }

  /** A sender that holds a reservation is dispatched by its next attempt, unless that is
      halted or finds a plan's state changed; nothing else is dispatched. */
  lemma DispatchesExactly(limit: nat, steps: seq<Step>, k: nat, n: nat, a: Attempt)
    requires PreparedAt(limit, steps, k, n) && n in Exec(Init(limit), steps).senders
    ensures var w, p := Exec(Init(limit), steps), steps[k];
            var w' := Apply(w, Transport(n, a));
            && n in w'.senders && w'.db == w.db
            && (if w.senders[n].phase == Reserved then
                  && MayGoOut(p) && w'.senders[n].phase == Returned(ResultOf(p, a))
                  && w'.calls == w.calls
                     + if a.Attempted? && (p.kind == ResponseRequest ==> a.observed == PlannedState(p))
                       then [Call(n, p.id, p.claim, a.observed, a.returned && a.confirmed)] else []
                else w' == w)
  {
    hide MayGoOut, PermitHolds, Consistent;
    var w, p := Exec(Init(limit), steps), steps[k];
    RunKeeps(limit, steps);
    OneOrigin(limit, steps, k, n);
    assert SenderOk(w.senders[n], w.clock);
  }

  /** The result of an attempt is recorded exactly while the journal has a row to spare, in
      the journal and in the receipt if it is still there. */
  lemma FinishesExactly(limit: nat, steps: seq<Step>, k: nat, n: nat, delay: nat)
    requires PreparedAt(limit, steps, k, n) && n in Exec(Init(limit), steps).senders
    requires Exec(Init(limit), steps).senders[n].phase.Returned?
    ensures var w, p := Exec(Init(limit), steps), steps[k];
            var w', report := Apply(w, Finish(n, delay)), Report(p.kind, p.id, w.senders[n].phase.final);
            && w'.calls == w.calls && n in w'.senders && w'.senders[n].phase == Done
            && w'.db.receipts.Keys == w.db.receipts.Keys
            && (forall id :: id in w.db.receipts && id != p.id ==> w'.db.receipts[id] == w.db.receipts[id])
            && (if |w.db.journal| < limit then
                  && |w'.db.journal| == |w.db.journal| + 1 && w'.db.journal[..|w.db.journal|] == w.db.journal
                  && w'.db.journal[|w.db.journal|].payload == report
                  && (p.id in w.db.receipts ==>
                        w'.db.receipts[p.id] == Receipt(w.db.receipts[p.id].fingerprint, report,
                                                        w.db.receipts[p.id].at))
                else w'.db == w.db)
  {
    hide MayGoOut, PermitHolds, Chain;
    RunKeeps(limit, steps);
    LimitStays(limit, steps);
    OneOrigin(limit, steps, k, n);
  }

  // ---- which requests a receipt answers ----------------------------------------------------

  /** Whose reservation of this ID was made last, and what was recorded of it last. */
  datatype Story = Story(holder: nat, report: Entry)

  /** The step recorded a report for this ID: a reservation or a result. */
  predicate Records(w: World, step: Step, id: RequestId) {
    && (step.Reserve? || step.Finish?) && step.n in w.senders && w.senders[step.n].id == id
    && |Apply(w, step).db.journal| > |w.db.journal|
  }

  function StoryOf(limit: nat, steps: seq<Step>, id: RequestId): Option<Story> {
    if steps == [] then None
    else
      var init, step := steps[..|steps| - 1], steps[|steps| - 1];
      var w, before := Exec(Init(limit), init), StoryOf(limit, init, id);
      if !Records(w, step, id) then before
      else
        var rows := Apply(w, step).db.journal;
        if step.Reserve? then Some(Story(step.n, rows[|rows| - 1].payload))
        else if before.None? then None else Some(Story(before.value.holder, rows[|rows| - 1].payload))
  }

  /** The receipt is the holder's, and says what was recorded last. */
  predicate Told(w: World, story: Option<Story>, id: RequestId) {
    id in w.db.receipts ==>
      && story.Some? && story.value.holder in w.senders && w.senders[story.value.holder].id == id
      && w.db.receipts[id].fingerprint == w.senders[story.value.holder].fingerprint
      && w.db.receipts[id].report == story.value.report
  }

  lemma SameSender(w: World, step: Step, n: nat)
    requires n in w.senders
    ensures n in Apply(w, step).senders && Apply(w, step).senders[n].id == w.senders[n].id
    ensures Apply(w, step).senders[n].fingerprint == w.senders[n].fingerprint
  {
    hide ReserveIn, FinishIn, PruneIn, AppendTo, PrepareAccepted, ClearedBy, FinalState;
  }

  /** Only a reservation and a result write receipts; pruning and losses remove some. */
  lemma ReceiptsChange(w: World, step: Step, id: RequestId)
    ensures id in Apply(w, step).db.receipts && !Records(w, step, id) ==>
              id in w.db.receipts && Apply(w, step).db.receipts[id] == w.db.receipts[id]
    ensures id in w.db.receipts && !step.Prune? && !step.LoseReceipts? ==> id in Apply(w, step).db.receipts
    ensures id in w.db.receipts && step.Prune? && w.db.receipts[id].at >= step.before ==>
              id in Apply(w, step).db.receipts
    ensures id in w.db.receipts && step.LoseReceipts? ==>
              (id in Apply(w, step).db.receipts <==> id !in step.ids)
  {
    hide Chain, PrepareAccepted, ClearedBy, FinalState, HasRequest, PendingIds;
  }

  lemma ReserveTold(w: World, step: Step, id: RequestId)
    requires step.Reserve? && Records(w, step, id)
    ensures var w' := Apply(w, step);
            Told(w', Some(Story(step.n, w'.db.journal[|w'.db.journal| - 1].payload)), id)
  {
    hide Chain, HasRequest, PendingIds;
  }

  lemma FinishTold(w: World, step: Step, id: RequestId, story: Option<Story>)
    requires step.Finish? && Records(w, step, id) && Told(w, story, id)
    ensures var w' := Apply(w, step);
            Told(w', if story.None? then None
                     else Some(Story(story.value.holder, w'.db.journal[|w'.db.journal| - 1].payload)), id)
  {
    hide Chain;
  }

  lemma {:induction false} ReceiptsTold(limit: nat, steps: seq<Step>, id: RequestId)
    ensures Told(Exec(Init(limit), steps), StoryOf(limit, steps, id), id)
  {
    if steps != [] {
      hide Apply, Records;
      var init, step := steps[..|steps| - 1], steps[|steps| - 1];
      var w, before := Exec(Init(limit), init), StoryOf(limit, init, id);
      ReceiptsTold(limit, init, id);
      ReceiptsChange(w, step, id);
      if Records(w, step, id) {
        RecordsBy(w, step, id);
        if step.Reserve? { ReserveTold(w, step, id); } else { FinishTold(w, step, id, before); }
      } else if before.Some? && before.value.holder in w.senders {
        SameSender(w, step, before.value.holder);
      }
    }
  }

  lemma RecordsBy(w: World, step: Step, id: RequestId)
    requires Records(w, step, id)
    ensures step.Reserve? || step.Finish?
  {
  }

  /** In every run, while the receipt of an earlier reservation is there, a request with its
      ID is answered with the report recorded last if and only if it carries the fingerprint
      that the reservation was prepared with; any other is refused. The tables stay. */
  lemma ReplaysExactly(limit: nat, steps: seq<Step>, k: nat, n: nat, receiptAt: int, rowAt: int)
    requires PreparedAt(limit, steps, k, n) && steps[k].id in Exec(Init(limit), steps).db.receipts
    ensures StoryOf(limit, steps, steps[k].id).Some?
    ensures var story, db := StoryOf(limit, steps, steps[k].id).value, Exec(Init(limit), steps).db;
            exists h: nat :: && PreparedAt(limit, steps, h, story.holder) && steps[h].id == steps[k].id
                        && ReserveIn(db, steps[k].id, steps[k].fingerprint, FirstReport(steps[k]), receiptAt, rowAt) ==
                           (if steps[k].fingerprint == steps[h].fingerprint then Replayed(story.report)
                            else Refused(IdRebound), db)
  {
    hide Apply, MayGoOut, PermitHolds, Chain, StoryOf;
    var id := steps[k].id;
    RunKeeps(limit, steps);
    ReceiptsTold(limit, steps, id);
    var h := Origin(limit, steps, StoryOf(limit, steps, id).value.holder);
  }
}
