/** Gateway.send and BundleGateway.send as one sender runs them
    (aisecure/gateway.py, aisecure/control/bundles.py): the method is proved to be
    the four atomic steps of `Dispatch` taken in order. */
module Gateways {
  import opened Common
  import opened Journal
  import opened Dispatch
  import opened DispatchOrigins

  /** `Rejected`: an exception before any reservation. `Replayed`: the stored
      receipt of an earlier request. `Answered`: this call's own result.
      `Unrecorded`: the attempt was made but its result could not be written. */
  datatype Reply = Rejected | Replayed(report: Entry) | Answered(report: Entry) | Unrecorded

  /** What the caller and the outside world supply for one send. `stopped`: the operator's
      stop is set before the reservation; set later, it halts the attempt. `clean`: nothing
      was found in the text and its files and, for a bundle, delivery is enabled. */
  datatype Input = Input(n: nat, kind: Kind, id: RequestId, content: nat, fingerprint: nat, claim: Option<Permit>,
                         consent: bool, stopped: bool, clean: bool, attempt: Attempt,
                         receiptDelay: nat, rowDelay: nat, finishDelay: nat)

  function StepsOf(i: Input, live: bool): (Step, Step, Step, Step) {
    (Prepare(i.n, i.kind, i.id, i.content, i.fingerprint, i.claim, i.clean, live),
     Step.Reserve(i.n, i.receiptDelay, i.rowDelay), Transport(i.n, i.attempt), Step.Finish(i.n, i.finishDelay))
  }

  function RunAlone(db: Db, clock: int, calls: seq<Call>, i: Input, live: bool): World {
    var (a, b, c, d) := StepsOf(i, live);
    Apply(Apply(Apply(Apply(World(db, clock, map[], calls, multiset{}), a), b), c), d)
  }

  predicate LabelPasses(i: Input, clock: int) {
    i.claim.Some? ==> LabelAccepted(i.kind, i.claim.value, i.id, i.content, clock)
  }

  predicate Accepted(i: Input, clock: int) {
    i.consent && LabelPasses(i, clock) && !i.stopped
  }

  /** Consent was given, the stop is clear, nothing was found, and a genuine public label of
      this very text is valid now. */
  predicate Sendable(i: Input, clock: int) {
    && i.consent && !i.stopped && i.clean && i.claim.Some?
    && var c := i.claim.value;
       && c.Label? && c.signed && c.requestId == i.id && c.content == i.content && c.dataClass == Public
       && clock - 300 <= c.issuedAt <= clock + 15 && clock < c.expiresAt <= c.issuedAt + 300
       && (i.kind == BundleRequest ==> c.expiresAt == c.issuedAt + 300)
  }

  /** What became of an attempt. */
  function StateAfter(a: Attempt, live: bool): ExecState {
    if a == Halted || !a.returned then DeliveryUnknown else if live then ProviderCompleted else DemoReceived
  }

  /** The sender just after its reservation attempt. */
  function AsSender(i: Input, live: bool, clock: int): Sender {
    Sender(i.kind, i.id, i.content, i.fingerprint, i.claim, Allowed(i.kind, i.claim, i.clean), live,
           ApprovedState(i.claim), clock, Prepared, false, 0, false)
  }

  /** The tables and the transport log after one send, case by case. */
  function SendIn(db: Db, clock: int, calls: seq<Call>, i: Input, live: bool): (Db, seq<Call>) {
    var s, rowAt := AsSender(i, live, clock), clock + i.receiptDelay + i.rowDelay;
    if !Accepted(i, clock) then (db, calls)
    else
      var (outcome, db') := ReserveIn(db, i.id, i.fingerprint, InitialReport(s), clock + i.receiptDelay, rowAt);
      if !outcome.Fresh? || !s.allow then (db', calls)
      else
        var r := FinishIn(db', i.id, Report(i.kind, i.id, FinalState(s, i.attempt)), rowAt + i.finishDelay);
        (if r.Ok? then r.value else db',
         if i.attempt.Attempted?
         then calls + [Call(i.n, i.id, i.claim, i.attempt.observed, i.attempt.returned && i.attempt.confirmed)]
         else calls)
  }

  lemma AfterTransport(w: World, i: Input, s: Sender)
    requires w.senders == map[i.n := s] && s.phase == Reserved && !s.kind.ResponseRequest?
    ensures Apply(w, Transport(i.n, i.attempt)) ==
              w.(senders := map[i.n := s.(phase := Returned(FinalState(s, i.attempt)), called := i.attempt.Attempted?)],
                 calls := if i.attempt.Attempted?
                          then w.calls +
                            [Call(i.n, s.id, s.claim, i.attempt.observed, i.attempt.returned && i.attempt.confirmed)]
                          else w.calls)
  {
  }

  lemma AfterFinish(w: World, i: Input, s: Sender)
    requires w.senders == map[i.n := s] && s.phase.Returned?
    ensures var r := FinishIn(w.db, s.id, Report(s.kind, s.id, s.phase.final), w.clock + i.finishDelay);
            var w' := Apply(w, Step.Finish(i.n, i.finishDelay));
            w'.calls == w.calls && w'.db == if r.Ok? then r.value else w.db
  {
  }

  /** With no reservation held, the last two steps are not enabled. */
  lemma NothingLeft(w: World, i: Input)
    requires i.n !in w.senders || !(w.senders[i.n].phase.Reserved? || w.senders[i.n].phase.Returned?)
    ensures Apply(Apply(w, Transport(i.n, i.attempt)), Step.Finish(i.n, i.finishDelay)) == w
  {
  }

  /** One send is the four atomic steps in order, or nothing without consent or once
      stopped. */
  lemma SendIsFourSteps(db: Db, clock: int, calls: seq<Call>, i: Input, live: bool)
    requires i.kind.TextRequest? || i.kind.BundleRequest?
    ensures var w := RunAlone(db, clock, calls, i, live);
            SendIn(db, clock, calls, i, live) == if i.consent && !i.stopped then (w.db, w.calls) else (db, calls)
  {
    hide Consistent, HasRequest, PendingIds, LabelAccepted, FinishIn, NewRow, UpdateReceipt, ReserveIn;
    var (a, b, c, d) := StepsOf(i, live);
    var w1 := Apply(World(db, clock, map[], calls, multiset{}), a);
    var w2 := Apply(w1, b);
    if LabelPasses(i, clock) {
      var s, rowAt := AsSender(i, live, clock), clock + i.receiptDelay + i.rowDelay;
      assert w1.senders == map[i.n := s];
      var (outcome, db') := ReserveIn(db, i.id, i.fingerprint, InitialReport(s), clock + i.receiptDelay, rowAt);
      var s' := AfterReserve(s, outcome, rowAt);
      assert w2 == World(db', rowAt, map[i.n := s'], calls, multiset{});
      if s'.phase.Reserved? {
        AfterTransport(w2, i, s');
        var w3 := Apply(w2, c);
        AfterFinish(w3, i, w3.senders[i.n]);
      } else {
        NothingLeft(w2, i);
      }
    } else {
      NothingLeft(w2, i);
    }
  }

  class Gateway {
    const evidence: Evidence
    const live: bool
    /** The invocations the transport has seen. */
    var calls: seq<Call>

    constructor (evidence: Evidence, live: bool)
      ensures this.evidence == evidence && this.live == live && calls == []
    {
      this.evidence, this.live, calls := evidence, live, [];
    }

    method Send(i: Input, clock: int) returns (reply: Reply)
      requires i.kind.TextRequest? || i.kind.BundleRequest?
      modifies this`calls, evidence
      ensures (evidence.Tables(), calls) == SendIn(old(evidence.Tables()), clock, old(calls), i, live)
      ensures calls == old(calls) ||
              (Sendable(i, clock) && i.attempt.Attempted? &&
               calls == old(calls) + [Call(i.n, i.id, i.claim, i.attempt.observed,
                                           i.attempt.returned && i.attempt.confirmed)])
      ensures var db := old(evidence.Tables());
              Sendable(i, clock) && i.attempt.Attempted? && Consistent(db) && Reservable(db, i.id) ==>
                calls != old(calls)
      ensures reply.Answered? ==>
                reply.report == Report(i.kind, i.id,
                                       if Sendable(i, clock) then StateAfter(i.attempt, live) else PreventedInGateway)
      ensures reply.Rejected? || reply.Replayed? ==> calls == old(calls)
      ensures reply.Answered? ==>
                reply.report.Report? && Truthful(reply.report.state, |calls| - |old(calls)|)
      ensures reply.Replayed? ==>
                && i.id in old(evidence.receipts) && old(evidence.receipts)[i.id].fingerprint == i.fingerprint
                && reply.report == old(evidence.receipts)[i.id].report
    {
      SameFreshness(evidence.Tables(), i.id);
      if !i.consent { return Rejected; }
      if i.claim.Some? && !LabelAccepted(i.kind, i.claim.value, i.id, i.content, clock) { return Rejected; }
      if i.stopped { return Rejected; }
      var allow := i.clean && i.claim.Some? && i.claim.value.dataClass.Public?;
      var initial := Report(i.kind, i.id, if allow then DispatchPending else PreventedInGateway);
      var receiptAt := clock + i.receiptDelay;
      var rowAt := receiptAt + i.rowDelay;
      var prior := evidence.Reserve(i.id, i.fingerprint, initial, receiptAt, rowAt);
      if prior.Refused? { return Rejected; }
      if prior.Replayed? { return Reply.Replayed(prior.report); }
      if !allow { return Answered(initial); }
      var state := DeliveryUnknown;
      if i.attempt.Attempted? {
        calls := calls + [Call(i.n, i.id, i.claim, i.attempt.observed, i.attempt.returned && i.attempt.confirmed)];
        if i.attempt.returned { state := if live then ProviderCompleted else DemoReceived; }
      }
      var final := Report(i.kind, i.id, state);
      var recorded := evidence.Finish(i.id, final, rowAt + i.finishDelay);
      if recorded.Err? { return Unrecorded; }
      return Answered(final);
    }
  }
}
