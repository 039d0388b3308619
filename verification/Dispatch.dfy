/** Reserve, dispatch, finish: any number of senders sharing one journal.

    Each database transaction, each transport call and each claim check is one
    atomic step; senders interleave, crash, and the store is reopened in any order.
    A run is a list of steps; a step that is not enabled leaves the world alone.
    Clients: Gateway.send (aisecure/gateway.py), BundleGateway.send
    (aisecure/control/bundles.py), ResponseController.execute
    (aisecure/control/response.py) and the collector endpoint of
    aisecure/workbench.py, which reserves but never dispatches. */
module Dispatch {
  import opened Common
  import opened Journal

  datatype DataClass = Public | Internal | Confidential | Restricted

  /** What lets a request out: a signed classification of a text, or an approved response
      plan. `signed` and `paired` are the verdicts on the signature and on the two approvals;
      a plan's request ID is derived from its own. */
  datatype Permit =
    | Label(requestId: RequestId, content: nat, dataClass: DataClass, issuedAt: int, expiresAt: int, signed: bool)
    | Plan(requestId: RequestId, stateHash: nat, expiresAt: int, paired: bool)

  /** `Reserved`: holds a reservation, transport not called yet. `Returned`: the
      attempt is over, its result is not recorded yet. */
  datatype Phase = Prepared | Reserved | Returned(final: ExecState) | Done | Crashed

  datatype Sender = Sender(kind: Kind, id: RequestId, content: nat, fingerprint: nat, claim: Option<Permit>,
                           allow: bool, live: bool, approved: nat, verifiedAt: int,
                           phase: Phase, won: bool, reservedAt: int, called: bool)

  /** One invocation of a transport or of `adapter.apply`. */
  datatype Call = Call(sender: nat, id: RequestId, claim: Option<Permit>, observed: nat, confirmed: bool)

  datatype World = World(db: Db, clock: int, senders: map<nat, Sender>, calls: seq<Call>, cleared: multiset<RequestId>)

  /** `Halted`: the emergency stop or the first state read raised. Otherwise the
      state hash that was read, whether the call returned, and whether the state
      read back was the expected one. */
  datatype Attempt = Halted | Attempted(observed: nat, returned: bool, confirmed: bool)

  datatype Step =
    | Tick(dt: nat)
    | Prepare(n: nat, kind: Kind, id: RequestId, content: nat, fingerprint: nat, claim: Option<Permit>,
              clean: bool, live: bool)
    | Reserve(n: nat, receiptDelay: nat, rowDelay: nat)
    | Transport(n: nat, attempt: Attempt)
    | Finish(n: nat, delay: nat)
    | Append(entry: Entry, delay: nat)
    | Prune(before: int, delay: nat)
    | LoseReceipts(ids: set<RequestId>)
    | Crash(n: nat)
    | Reopen

  // ---- the steps ---------------------------------------------------------------

  /** `verify_label` and `verify_bundle`: false is an exception. */
  predicate LabelAccepted(kind: Kind, claim: Permit, id: RequestId, content: nat, now: int) {
    && claim.Label? && claim.requestId == id && claim.content == content && claim.signed
    && now - 300 <= claim.issuedAt <= now + 15
    && now < claim.expiresAt <= claim.issuedAt + 300
    && (kind.BundleRequest? ==> claim.dataClass.Public? && claim.expiresAt == claim.issuedAt + 300)
  }

  /** `verify_pair`: the plan is not expired, expires within 300 s, and two operators
      approved it. */
  predicate PlanAccepted(plan: Permit, id: RequestId, now: int) {
    plan.Plan? && plan.requestId == id && plan.paired && now + 1 <= plan.expiresAt <= now + 300
  }

  predicate PrepareAccepted(kind: Kind, claim: Option<Permit>, id: RequestId, content: nat, now: int) {
    match kind
    case ResponseRequest => claim.Some? && PlanAccepted(claim.value, id, now)
    case Observation => claim.None?
    case _ => claim.Some? ==> LabelAccepted(kind, claim.value, id, content, now)
  }

  /** Only a public label and a clean text are allowed out. */
  predicate Allowed(kind: Kind, claim: Option<Permit>, clean: bool) {
    match kind
    case ResponseRequest => true
    case Observation => false
    case _ => clean && claim.Some? && claim.value.Label? && claim.value.dataClass.Public?
  }

  /** The state a plan was made for. */
  function ApprovedState(claim: Option<Permit>): nat {
    if claim.Some? && claim.value.Plan? then claim.value.stateHash else 0
  }

  function InitialReport(s: Sender): Entry {
    Report(s.kind, s.id,
           if s.kind.Observation? then NoState else if s.allow then DispatchPending else PreventedInGateway)
  }

  predicate Invokes(s: Sender, a: Attempt) {
    a.Attempted? && (s.kind.ResponseRequest? ==> a.observed == s.approved)
  }

  function FinalState(s: Sender, a: Attempt): ExecState {
    if a.Halted? then DeliveryUnknown
    else if s.kind.ResponseRequest? then
      if a.observed != s.approved then PreconditionFailed
      else if a.returned && a.confirmed then Verified else DeliveryUnknown
    else if !a.returned then DeliveryUnknown
    else if s.live then ProviderCompleted else DemoReceived
  }

  /** Request IDs whose last request row left the journal. */
  function ClearedBy(rows: seq<Row>, rows': seq<Row>): set<RequestId> {
    set i | 0 <= i < |rows| && IsRequest(rows[i].payload) && !HasRequest(rows', rows[i].payload.requestId)
      :: rows[i].payload.requestId
  }

  function AfterReserve(s: Sender, outcome: Outcome, at: int): Sender {
    if outcome.Fresh? && !s.kind.Observation?
    then s.(phase := if s.allow then Reserved else Done, won := true, reservedAt := at)
    else s.(phase := Done)
  }

  function Apply(w: World, step: Step): World {
    match step
    case Tick(dt) => w.(clock := w.clock + dt)
    case Prepare(n, kind, id, content, fingerprint, claim, clean, live) =>
      if n in w.senders || !PrepareAccepted(kind, claim, id, content, w.clock) then w
      else w.(senders := w.senders[n := Sender(kind, id, content, fingerprint, claim, Allowed(kind, claim, clean), live,
                                               ApprovedState(claim), w.clock, Prepared, false, 0, false)])
    case Reserve(n, receiptDelay, rowDelay) =>
      if n !in w.senders || w.senders[n].phase != Prepared then w
      else
        var s, receiptAt, rowAt := w.senders[n], w.clock + receiptDelay, w.clock + receiptDelay + rowDelay;
        var (outcome, db') := ReserveIn(w.db, s.id, s.fingerprint, InitialReport(s), receiptAt, rowAt);
        w.(db := db', clock := rowAt, senders := w.senders[n := AfterReserve(s, outcome, rowAt)])
    case Transport(n, a) =>
      if n !in w.senders || w.senders[n].phase != Reserved then w
      else
        var s := w.senders[n];
        var w' := w.(senders := w.senders[n := s.(phase := Returned(FinalState(s, a)), called := Invokes(s, a))]);
        if Invokes(s, a) then w'.(calls := w.calls + [Call(n, s.id, s.claim, a.observed, a.returned && a.confirmed)])
        else w'
    case Finish(n, delay) =>
      if n !in w.senders || !w.senders[n].phase.Returned? then w
      else
        var s := w.senders[n];
        var r := FinishIn(w.db, s.id, Report(s.kind, s.id, s.phase.final), w.clock + delay);
        w.(db := if r.Ok? then r.value else w.db, clock := w.clock + delay,
           senders := w.senders[n := s.(phase := Done)])
    case Append(entry, delay) =>
      var r := AppendTo(w.db, entry, w.clock + delay);
      w.(db := if r.Ok? then r.value else w.db, clock := w.clock + delay)
    case Prune(before, delay) =>
      var r := PruneIn(w.db, before, w.clock, w.clock + delay);
      var db' := if r.Ok? then r.value else w.db;
      w.(db := db', clock := w.clock + delay,
         cleared := w.cleared + multiset(ClearedBy(w.db.journal, db'.journal)))
    case LoseReceipts(ids) => w.(db := w.db.(receipts := w.db.receipts - ids))
    case Crash(n) =>
      if n in w.senders then w.(senders := w.senders[n := w.senders[n].(phase := Crashed)]) else w
    case Reopen => w.(senders := map n | n in w.senders :: w.senders[n].(phase := Crashed))
  }

  function Init(limit: nat): World {
    World(Db(limit, 0, Genesis, [], map[]), 0, map[], [], multiset{})
  }

  function Exec(w: World, steps: seq<Step>): World {
    if steps == [] then w else Apply(Exec(w, steps[..|steps| - 1]), steps[|steps| - 1])
  }

  // ---- what is counted -----------------------------------------------------------

  function CallsFor(calls: seq<Call>, id: RequestId): nat {
    if calls == [] then 0
    else CallsFor(calls[..|calls| - 1], id) + if calls[|calls| - 1].id == id then 1 else 0
  }

  function Winners(senders: map<nat, Sender>, id: RequestId): set<nat> {
    set n | n in senders && senders[n].won && senders[n].id == id
  }

  function Callers(senders: map<nat, Sender>, id: RequestId): set<nat> {
    set n | n in senders && senders[n].called && senders[n].id == id
  }

  /** How many dispatches a receipt in this state admits. */
  predicate Truthful(state: ExecState, dispatches: nat) {
    match state
    case PreventedInGateway => dispatches == 0
    case PreconditionFailed => dispatches == 0
    case DemoReceived => dispatches == 1
    case ProviderCompleted => dispatches == 1
    case Verified => dispatches == 1
    case DispatchPending => dispatches <= 1
    case DeliveryUnknown => dispatches <= 1
    case NoState => true
  }

  function Own(s: Sender): nat { if s.called then 1 else 0 }

  predicate Active(s: Sender) { s.phase.Reserved? || s.phase.Returned? }

  // ---- the invariant ---------------------------------------------------------------

  /** A permit passes its check only from here... */
  function Opens(c: Permit): int { if c.Label? then c.issuedAt - 15 else c.expiresAt - 300 }

  /** ... to before here. */
  function Closes(c: Permit): int { if c.Label? then c.issuedAt + 300 else c.expiresAt }

  predicate SenderOk(s: Sender, clock: int) {
    && (Active(s) ==> s.won && s.allow)
    && (s.won ==> !s.phase.Prepared? && !s.kind.Observation?)
    && (s.called ==> s.won && s.allow && !s.phase.Reserved?)
    && (s.phase.Returned? ==> s.phase.final != DispatchPending && Truthful(s.phase.final, Own(s)))
    && s.verifiedAt <= clock
    && (s.claim.Some? ==> s.claim.value.requestId == s.id
                          && Opens(s.claim.value) <= s.verifiedAt < Closes(s.claim.value))
    && (s.won ==> s.verifiedAt <= s.reservedAt <= clock)
  }

  ghost predicate SendersOk(w: World) {
    forall n :: n in w.senders ==> SenderOk(w.senders[n], w.clock)
  }

  ghost predicate CallsCounted(w: World) {
    && (forall id :: CallsFor(w.calls, id) == |Callers(w.senders, id)|)
    && (forall i :: 0 <= i < |w.calls| ==> CallOk(w.senders, w.calls[i]))
    && (forall i, j :: 0 <= i < j < |w.calls| ==> w.calls[i].sender != w.calls[j].sender)
  }

  predicate CallOk(senders: map<nat, Sender>, c: Call) {
    c.sender in senders && senders[c.sender].called && senders[c.sender].id == c.id &&
      senders[c.sender].claim == c.claim
  }

  function Bit(b: bool): nat { if b then 1 else 0 }

  ghost predicate WinnersBounded(w: World) {
    forall id :: |Winners(w.senders, id)| <= w.cleared[id] + Bit(HasRequest(w.db.journal, id))
  }

  predicate Explains(s: Sender, state: ExecState) {
    Truthful(state, Own(s)) && (Active(s) ==> state == DispatchPending)
  }

  ghost predicate ReceiptExplained(w: World, id: RequestId)
    requires id in w.db.receipts
  {
    var report := w.db.receipts[id].report;
    IsRequest(report) && w.cleared[id] == 0 ==>
      exists n :: n in Winners(w.senders, id) && Explains(w.senders[n], report.state)
  }

  ghost predicate ReceiptsExplained(w: World) {
    forall id :: id in w.db.receipts ==> ReceiptExplained(w, id)
  }

  ghost predicate Inv(w: World) {
    && Consistent(w.db) && |w.db.journal| <= w.db.limit
    && SendersOk(w) && CallsCounted(w) && WinnersBounded(w) && ReceiptsExplained(w)
  }

  // ---- lemmas about one changed sender ------------------------------------------------

  lemma ChangeSender(senders: map<nat, Sender>, n: nat, s: Sender, id: RequestId)
    requires n in senders ==> senders[n].id == s.id && (senders[n].won ==> s.won) && (senders[n].called ==> s.called)
    ensures Winners(senders[n := s], id) == Winners(senders, id) + if s.won && s.id == id then {n} else {}
    ensures Callers(senders[n := s], id) == Callers(senders, id) + if s.called && s.id == id then {n} else {}
  {
  }

  /** The step keeps every sender's history: counts of winners and callers stay. */
  lemma SameHistory(w: World, w': World)
    requires w.senders.Keys == w'.senders.Keys && w.calls == w'.calls && CallsCounted(w)
    requires forall n :: n in w.senders ==>
               w.senders[n].(phase := Done) == w'.senders[n].(phase := Done)
    ensures CallsCounted(w')
    ensures forall id :: Winners(w'.senders, id) == Winners(w.senders, id)
  {
    forall n | n in w.senders
      ensures w.senders[n].won == w'.senders[n].won && w.senders[n].called == w'.senders[n].called
           && w.senders[n].id == w'.senders[n].id && w.senders[n].claim == w'.senders[n].claim
    {
      assert w.senders[n].(phase := Done).won == w'.senders[n].(phase := Done).won;
      assert w.senders[n].(phase := Done).called == w'.senders[n].(phase := Done).called;
      assert w.senders[n].(phase := Done).id == w'.senders[n].(phase := Done).id;
      assert w.senders[n].(phase := Done).claim == w'.senders[n].(phase := Done).claim;
    }
    forall id
      ensures Winners(w'.senders, id) == Winners(w.senders, id)
      ensures Callers(w'.senders, id) == Callers(w.senders, id)
    {
    }
    forall i | 0 <= i < |w'.calls| ensures CallOk(w'.senders, w'.calls[i]) {
      assert CallOk(w.senders, w.calls[i]);
    }
  }

  lemma AppendKeepsRequests(rows: seq<Row>, row: Row, id: RequestId)
    ensures HasRequest(rows + [row], id) <==>
              HasRequest(rows, id) || (IsRequest(row.payload) && row.payload.requestId == id)
  {
    var rows' := rows + [row];
    if HasRequest(rows, id) {
      var i :| 0 <= i < |rows| && IsRequest(rows[i].payload) && rows[i].payload.requestId == id;
      assert rows'[i] == rows[i];
    }
    if IsRequest(row.payload) && row.payload.requestId == id {
      assert rows'[|rows|] == row;
    }
  }
}
