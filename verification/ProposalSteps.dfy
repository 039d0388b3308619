/** What each operation on proposals does in a run, told by what the run ingested last and by
    the proposals table: when it takes effect, and what exactly it changes and records. */
module ProposalSteps {
  import opened Common
  import opened AuditChain
  import opened Proposals
  import opened ProposalSafety

  /** The proposal has this status and has not expired, its snapshot is the one asked for and
      the one ingested last, and its stored plan is what the policy says of its finding. */
  predicate Admissible(steps: seq<Step>, pid: ProposalId, doc: Doc, status: Status, now: int) {
    var proposals := Run(steps).t.proposals;
    && pid in proposals && proposals[pid].status == status && proposals[pid].expires > now
    && proposals[pid].doc == doc && LastIngested(steps) == Some(doc)
    && proposals[pid].finding in doc.plans && proposals[pid].body == doc.plans[proposals[pid].finding]
  }

  /** A pending proposal of this finding that has not expired. */
  predicate Open(proposals: map<ProposalId, Proposal>, doc: Doc, finding: nat, now: int) {
    exists q :: q in proposals && proposals[q].status == Pending && proposals[q].doc == doc
                && proposals[q].finding == finding && now < proposals[q].expires
  }

  /** The step changed the proposals to these and recorded this. */
  predicate Took(w: World, w': World, proposals: map<ProposalId, Proposal>, at: int, payload: Payload) {
    w' == w.(t := w.t.(proposals := proposals, audit := Append(w.t.audit, at, payload)))
  }

  lemma ChainHolds(steps: seq<Step>)
    ensures ValidChain(Run(steps).t.audit) && Run(steps).t.current == LastIngested(steps)
  {
    RunKeeps(steps);
    CurrentIsLastIngested(steps);
  }

  /** A new proposal is made exactly for a known finding of the snapshot ingested last that
      no open proposal covers; it is pending for five minutes with the policy's plan. */
  lemma ProposesExactly(steps: seq<Step>, pid: ProposalId, doc: Doc, finding: nat, now: int, at: int)
    ensures var w, w' := Run(steps), Apply(Run(steps), Step.Propose(pid, doc, finding, now, at));
            if LastIngested(steps) == Some(doc) && finding in doc.plans && !Open(w.t.proposals, doc, finding, now)
               && pid !in w.t.proposals
            then
              Took(w, w', w.t.proposals[pid := Proposal(doc, finding, doc.plans[finding], now + 300, Pending, None)],
                   at, Proposed(pid, doc))
            else w' == w
  {
    hide ValidChain, Run, LastIngested;
    ChainHolds(steps);
  }

  /** A simulation takes effect exactly on an admissible pending proposal. */
  lemma SimulatesExactly(steps: seq<Step>, pid: ProposalId, doc: Doc, now: int, at: int)
    ensures var w, w' := Run(steps), Apply(Run(steps), Step.Simulate(pid, doc, now, at));
            if Admissible(steps, pid, doc, Pending, now)
            then
              var approved := w.(t := w.t.(audit := Append(w.t.audit, at, SimulationApproved(pid))));
              Took(approved, w', w.t.proposals[pid := w.t.proposals[pid].(status := SimulatedOnly)], at, Simulated(pid))
            else w' == w
  {
    hide ValidChain, Run, LastIngested;
    ChainHolds(steps);
  }

  /** A real approval takes effect exactly on an admissible pending proposal, by two different
      operators and for a target. */
  lemma ApprovesExactly(steps: seq<Step>, pid: ProposalId, doc: Doc, primary: Operator, secondary: Operator,
                        target: Target, now: int, at: int)
    ensures var w, w' := Run(steps), Apply(Run(steps), Approve(pid, doc, primary, secondary, target, now, at));
            if Admissible(steps, pid, doc, Pending, now) && primary != secondary && target != ""
            then
              Took(w, w', w.t.proposals[pid := w.t.proposals[pid].(status := Approved, target := Some(target))],
                   at, RealApproved(pid, primary, secondary, target))
            else w' == w
  {
    hide ValidChain, Run, LastIngested;
    ChainHolds(steps);
  }

  /** An execution starts exactly on an admissible approved proposal, for the approved target;
      then it waits to call the responder with the policy's plan. */
  lemma StartsExactly(steps: seq<Step>, n: nat, pid: ProposalId, doc: Doc, target: Target, now: int, at: int)
    ensures var w, w' := Run(steps), Apply(Run(steps), Start(n, pid, doc, target, now, at));
            if Admissible(steps, pid, doc, Approved, now) && w.t.proposals[pid].target == Some(target) && n !in w.execs
            then
              var p := w.t.proposals[pid];
              Took(w.(execs := w.execs[n := Exec(pid, doc, target, doc.plans[p.finding], Waiting)]), w',
                   w.t.proposals[pid := p.(status := Executing)], at, Started(pid))
            else w' == w
  {
    hide ValidChain, Run, LastIngested;
    ChainHolds(steps);
  }

  /** The responder is called exactly once by a waiting execution. */
  lemma RespondsExactly(steps: seq<Step>, n: nat, reply: Reply)
    ensures var w, w' := Run(steps), Apply(Run(steps), Respond(n, reply));
            if n in w.execs && w.execs[n].phase == Waiting
            then
              var x := w.execs[n];
              w' == w.(execs := w.execs[n := x.(phase := Answered(reply))],
                       calls := w.calls + [Call(x.pid, x.plan, x.target, reply, |w.t.audit|)])
            else w' == w
  {
    hide Run;
  }

  /** An answered execution ends its proposal as verified exactly when the reply says verified
      and executed and its snapshot is still the one ingested last, and else as failed. */
  lemma EndsExactly(steps: seq<Step>, n: nat, at: int)
    ensures var w, w' := Run(steps), Apply(Run(steps), End(n, at));
            if n in w.execs && w.execs[n].phase.Answered?
            then
              var x := w.execs[n];
              var verified := x.phase.reply == Answer(true, true) && LastIngested(steps) == Some(x.doc);
              && x.pid in w.t.proposals && w.t.proposals[x.pid].doc == x.doc
              && Took(w.(execs := w.execs[n := x.(phase := Over)]), w',
                      w.t.proposals[x.pid := w.t.proposals[x.pid].(status := if verified then Verified else Failed)],
                      at, if verified then ExecutionVerified(x.pid) else ExecutionFailed(x.pid))
            else w' == w
  {
    hide ValidChain, Run, LastIngested, ProposalOk, CallOk, ReplyGiven;
    ChainHolds(steps);
    RunKeeps(steps);
    var w := Run(steps);
    if n in w.execs && w.execs[n].phase.Answered? { assert ExecOk(w, w.execs[n]); }
  }
}
