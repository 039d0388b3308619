/** The proposal life cycle (aisecure/store.py): the responder is called between
    two transactions while snapshots may be replaced underneath. */
module Proposals {
  import opened Common
  import opened AuditChain

  datatype Status = Pending | SimulatedOnly | Approved | Executing | Verified | Failed

  datatype Proposal = Proposal(doc: Doc, finding: nat, body: Plan, expires: int, status: Status, target: Option<Target>)

  /** The committed tables; `current` is the singleton row of current_snapshot. */
  datatype Tables = Tables(current: Option<Doc>, proposals: map<ProposalId, Proposal>, audit: seq<Row>)

  datatype Error = BadAudit | NotFound | Conflict | Expired | StaleSnapshot | Tampered | WrongTarget | Invalid

  /** `responder.execute` raised, or returned a result with these two fields. */
  datatype Reply = Raised | Answer(verified: bool, executed: bool)

  const LIFETIME := 300

  // ---- transactions --------------------------------------------------------------

  function Log(t: Tables, at: int, payload: Payload): Tables {
    t.(audit := Append(t.audit, at, payload))
  }

  function WithStatus(t: Tables, pid: ProposalId, status: Status): Tables
    requires pid in t.proposals
  {
    t.(proposals := t.proposals[pid := t.proposals[pid].(status := status)])
  }

  function IngestIn(t: Tables, doc: Doc, at: int): Result<Tables, Error> {
    if !ValidChain(t.audit) then Err(BadAudit)
    else Ok(Log(t.(current := Some(doc)), at, Ingested(doc)))
  }

  predicate Reusable(t: Tables, doc: Doc, finding: nat, now: int) {
    exists pid :: pid in t.proposals && t.proposals[pid].status == Pending && t.proposals[pid].doc == doc
                  && t.proposals[pid].finding == finding && t.proposals[pid].expires > now
  }

  function ProposeIn(t: Tables, pid: ProposalId, doc: Doc, finding: nat, now: int, at: int): Result<Tables, Error> {
    if !ValidChain(t.audit) then Err(BadAudit)
    else if t.current != Some(doc) then Err(StaleSnapshot)
    else if finding !in doc.plans then Err(Invalid)
    else if Reusable(t, doc, finding, now) then Ok(t)
    else if pid in t.proposals then Err(Invalid)
    else
      var p := Proposal(doc, finding, doc.plans[finding], now + LIFETIME, Pending, None);
      Ok(Log(t.(proposals := t.proposals[pid := p]), at, Proposed(pid, doc)))
  }

  /** The checks shared by both approvals and by the execution, in their order. */
  function Admit(t: Tables, pid: ProposalId, doc: Doc, status: Status, now: int): Result<Proposal, Error> {
    if !ValidChain(t.audit) then Err(BadAudit)
    else if pid !in t.proposals then Err(NotFound)
    else
      var p := t.proposals[pid];
      if p.status != status then Err(Conflict)
      else if p.doc != doc || t.current != Some(doc) then Err(StaleSnapshot)
      else if p.expires <= now then Err(Expired)
      else Ok(p)
  }

  /** The stored plan must be what the current policy says about the finding. */
  predicate PlanIntact(p: Proposal) {
    p.finding in p.doc.plans && p.body == p.doc.plans[p.finding]
  }

  function SimulateIn(t: Tables, pid: ProposalId, doc: Doc, now: int, at: int): Result<Tables, Error> {
    match Admit(t, pid, doc, Pending, now)
    case Err(e) => Err(e)
    case Ok(p) =>
      if !PlanIntact(p) then Err(Tampered)
      else Ok(Log(WithStatus(Log(t, at, SimulationApproved(pid)), pid, SimulatedOnly), at, Simulated(pid)))
  }

  function ApproveIn(t: Tables, pid: ProposalId, doc: Doc, primary: Operator, secondary: Operator, target: Target,
                     now: int, at: int): Result<Tables, Error> {
    if primary == secondary || target == "" then Err(Invalid)
    else
      match Admit(t, pid, doc, Pending, now)
      case Err(e) => Err(e)
      case Ok(p) =>
        if !PlanIntact(p) then Err(Tampered)
        else
          Ok(Log(t, at, RealApproved(pid, primary, secondary, target)).(
               proposals := t.proposals[pid := p.(status := Approved, target := Some(target))]))
  }

  /** The first transaction of `execute_approved`. */
  function StartIn(t: Tables, pid: ProposalId, doc: Doc, target: Target, now: int, at: int): Result<Tables, Error> {
    match Admit(t, pid, doc, Approved, now)
    case Err(e) => Err(e)
    case Ok(p) =>
      if p.target != Some(target) then Err(WrongTarget)
      else if !PlanIntact(p) then Err(Tampered)
      else Ok(Log(WithStatus(t, pid, Executing), at, Started(pid)))
  }

  function Outcome(t: Tables, doc: Doc, reply: Reply): Status {
    if reply.Answer? && t.current == Some(doc) && reply.verified && reply.executed then Verified else Failed
  }

  /** The second transaction; the status changes only if it is still `executing`. */
  function EndIn(t: Tables, pid: ProposalId, doc: Doc, reply: Reply, at: int): Result<Tables, Error> {
    if !ValidChain(t.audit) then Err(BadAudit)
    else
      var status := Outcome(t, doc, reply);
      var t' := if pid in t.proposals && t.proposals[pid].status == Executing then WithStatus(t, pid, status) else t;
      Ok(Log(t', at, if status == Verified then ExecutionVerified(pid) else ExecutionFailed(pid)))
  }

  // ---- the store --------------------------------------------------------------------

  class Store {
    var current: Option<Doc>
    var proposals: map<ProposalId, Proposal>
    var audit: seq<Row>

    ghost function State(): Tables
      reads this
    {
      Tables(current, proposals, audit)
    }

    constructor ()
      ensures State() == Tables(None, map[], [])
    {
      current, proposals, audit := None, map[], [];
    }

    /** `_audit`: appends one row inside the caller's transaction. */
    method Record(at: int, payload: Payload)
      modifies this`audit
      ensures audit == Append(old(audit), at, payload)
    {
      var number, prev := 1, Zero;
      if audit != [] { number, prev := |audit| + 1, audit[|audit| - 1].mac; }
      audit := audit + [Row(number, at, Readable(payload), prev, Tag(number, at, Readable(payload), prev))];
    }

    method ApproveForExecution(pid: ProposalId, doc: Doc, primary: Operator, secondary: Operator, target: Target,
                               now: int, at: int) returns (error: Option<Error>)
      modifies this`proposals, this`audit
      ensures var r := ApproveIn(old(State()), pid, doc, primary, secondary, target, now, at);
              State() == (if r.Ok? then r.value else old(State())) && error == (if r.Ok? then None else Some(r.error))
    {
      if primary == secondary || target == "" { return Some(Invalid); }
      var chain := VerifyAudit(audit, None);
      if !chain.valid { return Some(BadAudit); }
      if pid !in proposals { return Some(NotFound); }
      var p := proposals[pid];
      if p.status != Pending { return Some(Conflict); }
      if p.doc != doc || current != Some(doc) { return Some(StaleSnapshot); }
      if p.expires <= now { return Some(Expired); }
      if p.finding !in doc.plans || p.body != doc.plans[p.finding] { return Some(Tampered); }
      Record(at, RealApproved(pid, primary, secondary, target));
      proposals := proposals[pid := p.(status := Approved, target := Some(target))];
      return None;
    }

    method ApproveAndSimulate(pid: ProposalId, doc: Doc, now: int, at: int) returns (error: Option<Error>)
      modifies this`proposals, this`audit
      ensures var r := SimulateIn(old(State()), pid, doc, now, at);
              State() == (if r.Ok? then r.value else old(State())) && error == (if r.Ok? then None else Some(r.error))
    {
      var chain := VerifyAudit(audit, None);
      if !chain.valid { return Some(BadAudit); }
      if pid !in proposals { return Some(NotFound); }
      var p := proposals[pid];
      if p.status != Pending { return Some(Conflict); }
      if p.doc != doc || current != Some(doc) { return Some(StaleSnapshot); }
      if p.expires <= now { return Some(Expired); }
      if p.finding !in doc.plans || p.body != doc.plans[p.finding] { return Some(Tampered); }
      Record(at, SimulationApproved(pid));
      proposals := proposals[pid := p.(status := SimulatedOnly)];
      Record(at, Simulated(pid));
      return None;
    }

    method Propose(pid: ProposalId, doc: Doc, finding: nat, now: int, at: int) returns (error: Option<Error>)
      modifies this`proposals, this`audit
      ensures var r := ProposeIn(old(State()), pid, doc, finding, now, at);
              State() == (if r.Ok? then r.value else old(State())) && error == (if r.Ok? then None else Some(r.error))
    {
      var chain := VerifyAudit(audit, None);
      if !chain.valid { return Some(BadAudit); }
      if current != Some(doc) { return Some(StaleSnapshot); }
      if finding !in doc.plans { return Some(Invalid); }
      var left := proposals.Keys;
      while left != {}
        invariant left <= proposals.Keys
        invariant forall q :: q in proposals && q !in left ==>
                    !(proposals[q].status == Pending && proposals[q].doc == doc && proposals[q].finding == finding
                      && proposals[q].expires > now)
        decreases left
      {
        var q :| q in left;
        if proposals[q].status == Pending && proposals[q].doc == doc && proposals[q].finding == finding
           && proposals[q].expires > now {
          assert Reusable(State(), doc, finding, now);
          return None;
        }
        left := left - {q};
      }
      if pid in proposals { return Some(Invalid); }
      proposals := proposals[pid := Proposal(doc, finding, doc.plans[finding], now + LIFETIME, Pending, None)];
      Record(at, Proposed(pid, doc));
      return None;
    }

    method Ingest(doc: Doc, at: int) returns (error: Option<Error>)
      modifies this`current, this`audit
      ensures var r := IngestIn(old(State()), doc, at);
              State() == (if r.Ok? then r.value else old(State())) && error == (if r.Ok? then None else Some(r.error))
    {
      var chain := VerifyAudit(audit, None);
      if !chain.valid { return Some(BadAudit); }
      current := Some(doc);
      Record(at, Ingested(doc));
      return None;
    }

    /** Both transactions of `execute_approved` around one responder call. While the
        responder runs another client may have ingested `replacement`. */
    method ExecuteApproved(pid: ProposalId, doc: Doc, target: Target, reply: Reply, replacement: Option<Doc>,
                           now: int, at: int) returns (error: Option<Error>)
      modifies this
      ensures var r := StartIn(old(State()), pid, doc, target, now, at);
              if r.Err? then State() == old(State()) && error == Some(r.error)
              else
                var between := if replacement.None? then r.value
                               else
                                 var i := IngestIn(r.value, replacement.value, at);
                                 if i.Ok? then i.value else r.value;
                var end := EndIn(between, pid, doc, reply, at);
                && State() == (if end.Ok? then end.value else between)
                && error == (if end.Ok? then None else Some(end.error))
      ensures StartIn(old(State()), pid, doc, target, now, at).Ok? ==>
                && error == None && pid in proposals
                && current == (if replacement.Some? then replacement else old(current))
                && proposals[pid].status == (if (replacement.None? || replacement.value == doc)
                                                && reply == Answer(true, true) then Verified else Failed)
    {
      var chain := VerifyAudit(audit, None);
      if !chain.valid { return Some(BadAudit); }
      if pid !in proposals { return Some(NotFound); }
      var p := proposals[pid];
      if p.status != Approved { return Some(Conflict); }
      if p.doc != doc || current != Some(doc) { return Some(StaleSnapshot); }
      if p.expires <= now { return Some(Expired); }
      if p.target != Some(target) { return Some(WrongTarget); }
      if p.finding !in doc.plans || p.body != doc.plans[p.finding] { return Some(Tampered); }
      proposals := proposals[pid := p.(status := Executing)];
      Record(at, Started(pid));
      AppendValid(old(audit), at, Started(pid));
      // responder.execute runs here, outside any transaction
      if replacement.Some? {
        AppendValid(audit, at, Ingested(replacement.value));
        var _ := Ingest(replacement.value, at);
      }
      chain := VerifyAudit(audit, None);
      if !chain.valid { return Some(BadAudit); }
      var status := Failed;
      if reply.Answer? && current == Some(doc) && reply.verified && reply.executed { status := Verified; }
      if pid in proposals && proposals[pid].status == Executing {
        proposals := proposals[pid := proposals[pid].(status := status)];
      }
      Record(at, if status == Verified then ExecutionVerified(pid) else ExecutionFailed(pid));
      return None;
    }
  }

  // ---- runs ---------------------------------------------------------------------------

  /** `Waiting`: the first transaction committed, the responder not called yet.
      `Answered`: the responder was called, the second transaction is still to come. */
  datatype Phase = Waiting | Answered(reply: Reply) | Over

  datatype Exec = Exec(pid: ProposalId, doc: Doc, target: Target, plan: Plan, phase: Phase)

  /** One call of the responder; `audited` is the audit table at that moment. */
  datatype Call = Call(pid: ProposalId, plan: Plan, target: Target, reply: Reply, audited: nat)

  datatype World = World(t: Tables, execs: map<nat, Exec>, calls: seq<Call>)

  datatype Step =
    | Ingest(doc: Doc, at: int)
    | Propose(pid: ProposalId, doc: Doc, finding: nat, now: int, at: int)
    | Simulate(pid: ProposalId, doc: Doc, now: int, at: int)
    | Approve(pid: ProposalId, doc: Doc, primary: Operator, secondary: Operator, target: Target, now: int, at: int)
    | Start(n: nat, pid: ProposalId, doc: Doc, target: Target, now: int, at: int)
    | Respond(n: nat, reply: Reply)
    | End(n: nat, at: int)
    | Crash(n: nat)
    | TamperBody(pid: ProposalId, body: Plan)
    | OtherRecord(text: string, at: int)

  function Keep(w: World, r: Result<Tables, Error>): World {
    if r.Ok? then w.(t := r.value) else w
  }

  function Apply(w: World, step: Step): World {
    match step
    case Ingest(doc, at) => Keep(w, IngestIn(w.t, doc, at))
    case Propose(pid, doc, finding, now, at) => Keep(w, ProposeIn(w.t, pid, doc, finding, now, at))
    case Simulate(pid, doc, now, at) => Keep(w, SimulateIn(w.t, pid, doc, now, at))
    case Approve(pid, doc, primary, secondary, target, now, at) =>
      Keep(w, ApproveIn(w.t, pid, doc, primary, secondary, target, now, at))
    case Start(n, pid, doc, target, now, at) =>
      var r := StartIn(w.t, pid, doc, target, now, at);
      if n in w.execs || r.Err? then w
      else
        var p := w.t.proposals[pid];
        w.(t := r.value, execs := w.execs[n := Exec(pid, doc, target, doc.plans[p.finding], Waiting)])
    case Respond(n, reply) =>
      if n !in w.execs || w.execs[n].phase != Waiting then w
      else
        var x := w.execs[n];
        w.(execs := w.execs[n := x.(phase := Answered(reply))],
           calls := w.calls + [Call(x.pid, x.plan, x.target, reply, |w.t.audit|)])
    case End(n, at) =>
      if n !in w.execs || !w.execs[n].phase.Answered? then w
      else
        var x := w.execs[n];
        Keep(w, EndIn(w.t, x.pid, x.doc, x.phase.reply, at)).(execs := w.execs[n := x.(phase := Over)])
    case Crash(n) => if n in w.execs then w.(execs := w.execs[n := w.execs[n].(phase := Over)]) else w
    case TamperBody(pid, body) =>
      if pid in w.t.proposals
      then w.(t := w.t.(proposals := w.t.proposals[pid := w.t.proposals[pid].(body := body)])) else w
    case OtherRecord(text, at) =>
      if ValidChain(w.t.audit) then w.(t := Log(w.t, at, Note(text))) else w
  }

  const INIT := World(Tables(None, map[], []), map[], [])

  function Run(steps: seq<Step>): World {
    if steps == [] then INIT else Apply(Run(steps[..|steps| - 1]), steps[|steps| - 1])
  }
}
