/** Safety of the proposal life cycle over every run, with ingests, crashes and
    tampering with stored plans interleaved. */
module ProposalSafety {
  import opened Common
  import opened AuditChain
  import opened Proposals

  /** The only status changes there are. */
  predicate Moves(a: Status, b: Status) {
    || a == b
    || (a == Pending && (b == SimulatedOnly || b == Approved))
    || (a == Approved && b == Executing)
    || (a == Executing && (b == Verified || b == Failed))
  }

  /** In any world, one step moves a proposal's status along that graph and never
      changes what the proposal is about. */
  lemma StatusMovesForward(w: World, step: Step, pid: ProposalId)
    requires pid in w.t.proposals
    ensures pid in Apply(w, step).t.proposals
    ensures var p, p' := w.t.proposals[pid], Apply(w, step).t.proposals[pid];
            && Moves(p.status, p'.status)
            && p'.doc == p.doc && p'.finding == p.finding && p'.expires == p.expires
            && (p.status != Pending ==> p'.target == p.target)
  {
  }

  /** A proposal starts executing only on a step that found its snapshot current,
      its approval unexpired and for this target, and its stored plan equal to the
      policy's; it becomes verified only on a step that found the snapshot current
      again and a reply that says verified and executed. */
  lemma CriticalMoves(w: World, step: Step, pid: ProposalId)
    requires pid in w.t.proposals
    ensures var p, p' := w.t.proposals[pid], Apply(w, step).t.proposals[pid];
            && (p'.status == Executing && p.status != Executing ==>
                  && step.Start? && step.pid == pid && step.doc == p.doc && w.t.current == Some(p.doc)
                  && p.expires > step.now && p.target == Some(step.target) && PlanIntact(p))
            && (p'.status == Verified && p.status != Verified ==>
                  && step.End? && step.n in w.execs && w.execs[step.n].pid == pid
                  && w.t.current == Some(w.execs[step.n].doc)
                  && w.execs[step.n].phase == Answered(Answer(true, true)))
  {
  }

  /** What a status may have become after any number of moves. */
  predicate Reaches(a: Status, b: Status) {
    || a == b || a == Pending
    || (a == Approved && (b == Executing || b == Verified || b == Failed))
    || (a == Executing && (b == Verified || b == Failed))
  }

  /** However a run goes on, a proposal is never deleted, never moves back, and is never
      moved to another finding, snapshot or expiry. */
  lemma {:induction false} StatusNeverReturns(steps: seq<Step>, more: seq<Step>, pid: ProposalId)
    requires pid in Run(steps).t.proposals
    ensures pid in Run(steps + more).t.proposals
    ensures var p, p' := Run(steps).t.proposals[pid], Run(steps + more).t.proposals[pid];
            Reaches(p.status, p'.status) && p'.doc == p.doc && p'.finding == p.finding && p'.expires == p.expires
            && (p.status != Pending ==> p'.target == p.target)
  {
    hide Apply;
    if more == [] {
      assert steps + more == steps;
    } else {
      var init, last := more[..|more| - 1], more[|more| - 1];
      assert (steps + more)[..|steps + more| - 1] == steps + init;
      StatusNeverReturns(steps, init, pid);
      StatusMovesForward(Run(steps + init), last, pid);
    }
  }

  // ---- invariant -----------------------------------------------------------------------

  predicate Active(x: Exec) { !x.phase.Over? }

  /** Row `k` records a real approval of this target by two different operators. */
  predicate ApprovalAt(audit: seq<Row>, k: nat, pid: ProposalId, target: Target)
    requires k < |audit|
  {
    && audit[k].stored.Readable? && audit[k].stored.payload.RealApproved?
    && audit[k].stored.payload.proposal == pid && audit[k].stored.payload.target == target
    && audit[k].stored.payload.primary != audit[k].stored.payload.secondary
  }

  predicate ApprovedBefore(audit: seq<Row>, n: nat, pid: ProposalId, target: Target) {
    n <= |audit| && exists k :: 0 <= k < n && ApprovalAt(audit, k, pid, target)
  }

  predicate PastApproval(s: Status) {
    s == Approved || s == Executing || s == Verified || s == Failed
  }

  predicate ProposalOk(w: World, pid: ProposalId)
    requires pid in w.t.proposals
  {
    var p := w.t.proposals[pid];
    && p.finding in p.doc.plans
    && (PastApproval(p.status) ==> p.target.Some? && ApprovedBefore(w.t.audit, |w.t.audit|, pid, p.target.value))
    && (p.status == Verified ==> ReplyGiven(w, pid, Answer(true, true)))
  }

  /** The responder was called for this proposal and gave this reply. */
  predicate ReplyGiven(w: World, pid: ProposalId, reply: Reply) {
    exists i :: 0 <= i < |w.calls| && w.calls[i].pid == pid && w.calls[i].reply == reply
  }

  predicate ExecOk(w: World, x: Exec) {
    Active(x) ==>
      && x.pid in w.t.proposals && w.t.proposals[x.pid].status == Executing
      && w.t.proposals[x.pid].doc == x.doc && w.t.proposals[x.pid].target == Some(x.target)
      && w.t.proposals[x.pid].finding in x.doc.plans && x.plan == x.doc.plans[w.t.proposals[x.pid].finding]
      && (x.phase.Answered? ==> ReplyGiven(w, x.pid, x.phase.reply))
  }

  predicate CallOk(w: World, c: Call) {
    && c.pid in w.t.proposals
    && (var p := w.t.proposals[c.pid];
        && (p.status == Executing || p.status == Verified || p.status == Failed)
        && p.target == Some(c.target) && p.finding in p.doc.plans && c.plan == p.doc.plans[p.finding])
    && ApprovedBefore(w.t.audit, c.audited, c.pid, c.target)
  }

  ghost predicate Inv(w: World) {
    && ValidChain(w.t.audit)
    && (forall pid :: pid in w.t.proposals ==> ProposalOk(w, pid))
    && (forall n :: n in w.execs ==> ExecOk(w, w.execs[n]))
    && (forall m, n :: m in w.execs && n in w.execs && m != n && Active(w.execs[m]) && Active(w.execs[n]) ==>
          w.execs[m].pid != w.execs[n].pid)
    && (forall i :: 0 <= i < |w.calls| ==> CallOk(w, w.calls[i]))
    && (forall i, j :: 0 <= i < j < |w.calls| ==> w.calls[i].pid != w.calls[j].pid)
    && (forall n, i :: n in w.execs && w.execs[n].phase.Waiting? && 0 <= i < |w.calls| ==>
          w.calls[i].pid != w.execs[n].pid)
  }

  lemma ApprovalStays(audit: seq<Row>, audit': seq<Row>, n: nat, pid: ProposalId, target: Target)
    requires ApprovedBefore(audit, n, pid, target) && audit <= audit'
    ensures ApprovedBefore(audit', n, pid, target) && ApprovedBefore(audit', |audit'|, pid, target)
  {
    var k :| 0 <= k < n && ApprovalAt(audit, k, pid, target);
    assert audit'[k] == audit[k];
    assert ApprovalAt(audit', k, pid, target);
  }

  lemma ReplyStays(w: World, w': World, pid: ProposalId, reply: Reply)
    requires ReplyGiven(w, pid, reply) && w.calls <= w'.calls
    ensures ReplyGiven(w', pid, reply)
  {
    var i :| 0 <= i < |w.calls| && w.calls[i].pid == pid && w.calls[i].reply == reply;
    assert w'.calls[i] == w.calls[i];
  }

  /** Two proposals that differ at most in the stored plan. */
  predicate SameButBody(p: Proposal, p': Proposal) {
    p' == p.(body := p'.body)
  }

  /** What was known of a proposal, an execution and a call stays known while the
      audit table and the call log only grow. */
  lemma ProposalStays(w: World, w': World, pid: ProposalId)
    requires w.t.audit <= w'.t.audit && w.calls <= w'.calls
    requires pid in w.t.proposals && pid in w'.t.proposals && SameButBody(w.t.proposals[pid], w'.t.proposals[pid])
    requires ProposalOk(w, pid)
    ensures ProposalOk(w', pid)
  {
    var p := w.t.proposals[pid];
    if PastApproval(p.status) { ApprovalStays(w.t.audit, w'.t.audit, |w.t.audit|, pid, p.target.value); }
    if p.status == Verified { ReplyStays(w, w', pid, Answer(true, true)); }
  }

  lemma ExecStays(w: World, w': World, x: Exec)
    requires w.calls <= w'.calls && ExecOk(w, x)
    requires Active(x) ==> x.pid in w'.t.proposals && SameButBody(w.t.proposals[x.pid], w'.t.proposals[x.pid])
    ensures ExecOk(w', x)
  {
    if x.phase.Answered? { ReplyStays(w, w', x.pid, x.phase.reply); }
  }

  lemma CallStays(w: World, w': World, c: Call)
    requires w.t.audit <= w'.t.audit && CallOk(w, c) && c.pid in w'.t.proposals
    requires var p, p' := w.t.proposals[c.pid], w'.t.proposals[c.pid];
             && p'.target == p.target && p'.finding == p.finding && p'.doc == p.doc
             && (p'.status == p.status || p'.status == Verified || p'.status == Failed)
    ensures CallOk(w', c)
  {
    ApprovalStays(w.t.audit, w'.t.audit, c.audited, c.pid, c.target);
  }

  /** One proposal may have changed; executions and calls stay as they are. */
  lemma OneProposalChanged(w: World, w': World, pid: ProposalId)
    requires Inv(w) && w.t.audit <= w'.t.audit && ValidChain(w'.t.audit)
    requires w'.calls == w.calls && w'.execs == w.execs
    requires forall q :: q in w'.t.proposals ==>
               q == pid || (q in w.t.proposals && w'.t.proposals[q] == w.t.proposals[q])
    requires forall q :: q in w.t.proposals ==> q in w'.t.proposals
    requires pid in w'.t.proposals ==> ProposalOk(w', pid)
    requires pid in w.t.proposals ==>
               var p, p' := w.t.proposals[pid], w'.t.proposals[pid];
               SameButBody(p, p') || p.status == Pending || p.status == SimulatedOnly
    ensures Inv(w')
  {
    forall q | q in w'.t.proposals ensures ProposalOk(w', q) {
      if q != pid { ProposalStays(w, w', q); }
    }
    forall n | n in w'.execs ensures ExecOk(w', w'.execs[n]) {
      assert ExecOk(w, w.execs[n]);
      ExecStays(w, w', w.execs[n]);
    }
    forall i | 0 <= i < |w'.calls| ensures CallOk(w', w'.calls[i]) {
      assert CallOk(w, w.calls[i]);
      CallStays(w, w', w.calls[i]);
    }
  }

  lemma TablesStepKeeps(w: World, step: Step)
    requires Inv(w) && (step.Ingest? || step.OtherRecord? || step.Propose? || step.TamperBody?)
    ensures Inv(Apply(w, step))
  {
    var w' := Apply(w, step);
    if w' != w {
      var pid := if step.Propose? || step.TamperBody? then step.pid else 0;
      if step.Ingest? { AppendValid(w.t.audit, step.at, Ingested(step.doc)); }
      if step.OtherRecord? { AppendValid(w.t.audit, step.at, Note(step.text)); }
      if step.Propose? { AppendValid(w.t.audit, step.at, Proposed(step.pid, step.doc)); }
      if pid in w.t.proposals && pid in w'.t.proposals && SameButBody(w.t.proposals[pid], w'.t.proposals[pid]) {
        ProposalStays(w, w', pid);
      }
      OneProposalChanged(w, w', pid);
    }
  }

  lemma SimulateKeeps(w: World, step: Step)
    requires Inv(w) && step.Simulate?
    ensures Inv(Apply(w, step))
  {
    var w' := Apply(w, step);
    if w' != w {
      AppendValid(w.t.audit, step.at, SimulationApproved(step.pid));
      AppendValid(Append(w.t.audit, step.at, SimulationApproved(step.pid)), step.at, Simulated(step.pid));
      assert ProposalOk(w, step.pid);
      OneProposalChanged(w, w', step.pid);
    }
  }

  lemma ApproveKeeps(w: World, step: Step)
    requires Inv(w) && step.Approve?
    ensures Inv(Apply(w, step))
  {
    var w' := Apply(w, step);
    if w' != w {
      AppendValid(w.t.audit, step.at, RealApproved(step.pid, step.primary, step.secondary, step.target));
      assert ProposalOk(w, step.pid);
      assert ApprovalAt(w'.t.audit, |w.t.audit|, step.pid, step.target);
      OneProposalChanged(w, w', step.pid);
    }
  }

  /** Only execution `n` and its proposal changed, while the audit table and the call log
      grew: the other executions, proposals and the earlier calls stay as they are. */
  lemma OthersStay(w: World, w': World, n: nat, pid: ProposalId)
    requires Inv(w) && w.t.audit <= w'.t.audit && w.calls <= w'.calls
    requires w'.t.proposals.Keys == w.t.proposals.Keys && pid in w.t.proposals
    requires forall q :: q in w.t.proposals && q != pid ==> w'.t.proposals[q] == w.t.proposals[q]
    requires forall m :: m in w'.execs && m != n ==>
               m in w.execs && w'.execs[m] == w.execs[m] && (Active(w.execs[m]) ==> w.execs[m].pid != pid)
    requires var p, p' := w.t.proposals[pid], w'.t.proposals[pid];
             && p'.target == p.target && p'.finding == p.finding && p'.doc == p.doc
             && (p'.status == p.status || p'.status == Verified || p'.status == Failed || p.status == Approved)
    ensures forall q :: q in w'.t.proposals && q != pid ==> ProposalOk(w', q)
    ensures forall m :: m in w'.execs && m != n ==> ExecOk(w', w'.execs[m])
    ensures forall i :: 0 <= i < |w.calls| ==> CallOk(w', w.calls[i])
  {
    hide ReplyGiven, ApprovedBefore, ValidChain;
    forall q | q in w'.t.proposals && q != pid ensures ProposalOk(w', q) {
      ProposalStays(w, w', q);
    }
    forall m | m in w'.execs && m != n ensures ExecOk(w', w'.execs[m]) {
      assert ExecOk(w, w.execs[m]);
      ExecStays(w, w', w.execs[m]);
    }
    forall i | 0 <= i < |w.calls| ensures CallOk(w', w.calls[i]) {
      assert CallOk(w, w.calls[i]);
      CallStays(w, w', w.calls[i]);
    }
  }

  lemma OneExecutionChanged(w: World, w': World, n: nat, pid: ProposalId)
    requires Inv(w) && w.t.audit <= w'.t.audit && ValidChain(w'.t.audit) && w.calls <= w'.calls
    requires w'.t.proposals.Keys == w.t.proposals.Keys && pid in w.t.proposals && ProposalOk(w', pid)
    requires forall q :: q in w.t.proposals && q != pid ==> w'.t.proposals[q] == w.t.proposals[q]
    requires n in w'.execs && w'.execs[n].pid == pid && ExecOk(w', w'.execs[n])
    requires forall m :: m in w'.execs && m != n ==>
               m in w.execs && w'.execs[m] == w.execs[m] && (Active(w.execs[m]) ==> w.execs[m].pid != pid)
    requires var p, p' := w.t.proposals[pid], w'.t.proposals[pid];
             && p'.target == p.target && p'.finding == p.finding && p'.doc == p.doc
             && (p'.status == p.status || p'.status == Verified || p'.status == Failed || p.status == Approved)
    requires forall i :: |w.calls| <= i < |w'.calls| ==>
               i == |w.calls| && w'.calls[i].pid == pid && CallOk(w', w'.calls[i])
    requires |w'.calls| > |w.calls| || w'.execs[n].phase.Waiting? ==>
               forall i :: 0 <= i < |w.calls| ==> w.calls[i].pid != pid
    requires |w'.calls| > |w.calls| ==> !w'.execs[n].phase.Waiting?
    ensures Inv(w')
  {
    hide ReplyGiven, ApprovedBefore, ValidChain, ProposalOk, ExecOk, CallOk;
    OthersStay(w, w', n, pid);
  }

  /** The first transaction changes its proposal's status and the audit table, and adds an
      execution. */
  lemma StartShape(w: World, step: Step)
    requires Inv(w) && step.Start? && Apply(w, step) != w
    ensures step.pid in w.t.proposals && step.n !in w.execs
    ensures var p, w' := w.t.proposals[step.pid], Apply(w, step);
            && p.status == Approved && p.target == Some(step.target) && p.doc == step.doc && p.finding in p.doc.plans
            && ApprovedBefore(w.t.audit, |w.t.audit|, step.pid, step.target) && w'.calls == w.calls
            && w'.execs ==
               w.execs[step.n := Exec(step.pid, p.doc, step.target, p.doc.plans[p.finding], Waiting)]
            && w.t.audit <= w'.t.audit && ValidChain(w'.t.audit)
            && w'.t.proposals == w.t.proposals[step.pid := p.(status := Executing)]
  {
    hide ReplyGiven, ApprovedBefore, CallOk;
    assert ProposalOk(w, step.pid);
    AppendValid(w.t.audit, step.at, Started(step.pid));
  }

  /** No call was made for a proposal, and no execution works on it, before it executes. */
  lemma NothingStarted(w: World, pid: ProposalId)
    requires Inv(w) && pid in w.t.proposals && w.t.proposals[pid].status == Approved
    ensures forall i :: 0 <= i < |w.calls| ==> w.calls[i].pid != pid
    ensures forall m :: m in w.execs && Active(w.execs[m]) ==> w.execs[m].pid != pid
  {
    hide ValidChain, ReplyGiven, ApprovedBefore, ProposalOk;
    forall i | 0 <= i < |w.calls| ensures w.calls[i].pid != pid { assert CallOk(w, w.calls[i]); }
    forall m | m in w.execs && Active(w.execs[m]) ensures w.execs[m].pid != pid { assert ExecOk(w, w.execs[m]); }
  }

  lemma StartKeeps(w: World, step: Step)
    requires Inv(w) && step.Start?
    ensures Inv(Apply(w, step))
  {
    hide Inv, Apply, ValidChain, ApprovedBefore;
    var w' := Apply(w, step);
    if w' != w {
      StartShape(w, step);
      NothingStarted(w, step.pid);
      ApprovalStays(w.t.audit, w'.t.audit, |w.t.audit|, step.pid, step.target);
      OneExecutionChanged(w, w', step.n, step.pid);
    }
  }

  lemma RespondKeeps(w: World, step: Step)
    requires Inv(w) && step.Respond?
    ensures Inv(Apply(w, step))
  {
    hide ValidChain, ApprovedBefore;
    var w' := Apply(w, step);
    if w' != w {
      var x := w.execs[step.n];
      assert ExecOk(w, x) && ProposalOk(w, x.pid);
      assert w'.calls[|w.calls|].pid == x.pid && w'.calls[|w.calls|].reply == step.reply;
      ProposalStays(w, w', x.pid);
      OneExecutionChanged(w, w', step.n, x.pid);
    }
  }

  /** The second transaction changes its proposal's status, its execution and the audit
      table. */
  lemma EndShape(w: World, step: Step)
    requires Inv(w) && step.End? && Apply(w, step) != w
    ensures step.n in w.execs && w.execs[step.n].phase.Answered?
    ensures var x, w' := w.execs[step.n], Apply(w, step);
            && ExecOk(w, x) && ProposalOk(w, x.pid) && w'.calls == w.calls
            && w'.execs == w.execs[step.n := x.(phase := Over)]
            && (forall m :: m in w.execs && m != step.n && Active(w.execs[m]) ==> w.execs[m].pid != x.pid)
            && w.t.audit <= w'.t.audit && ValidChain(w'.t.audit)
            && w'.t.proposals ==
               w.t.proposals[x.pid := w.t.proposals[x.pid].(status := Outcome(w.t, x.doc, x.phase.reply))]
  {
    hide ReplyGiven, ApprovedBefore, CallOk;
    var x := w.execs[step.n];
    assert ExecOk(w, x) && ProposalOk(w, x.pid);
    AppendValid(w.t.audit, step.at, ExecutionVerified(x.pid));
    AppendValid(w.t.audit, step.at, ExecutionFailed(x.pid));
  }

  lemma EndKeeps(w: World, step: Step)
    requires Inv(w) && step.End?
    ensures Inv(Apply(w, step))
  {
    hide Inv, Apply, ValidChain, ReplyGiven, ApprovedBefore;
    var w' := Apply(w, step);
    if w' != w {
      EndShape(w, step);
      var x := w.execs[step.n];
      ApprovalStays(w.t.audit, w'.t.audit, |w.t.audit|, x.pid, x.target);
      ReplyStays(w, w', x.pid, x.phase.reply);
      OneExecutionChanged(w, w', step.n, x.pid);
    }
  }

  lemma CrashKeeps(w: World, step: Step)
    requires Inv(w) && step.Crash?
    ensures Inv(Apply(w, step))
  {
    var w' := Apply(w, step);
    forall q | q in w'.t.proposals ensures ProposalOk(w', q) { ProposalStays(w, w', q); }
    forall n | n in w'.execs ensures ExecOk(w', w'.execs[n]) {
      assert ExecOk(w, w.execs[n]);
      ExecStays(w, w', w.execs[n]);
    }
    forall i | 0 <= i < |w'.calls| ensures CallOk(w', w'.calls[i]) {
      assert CallOk(w, w.calls[i]);
    }
  }

  lemma {:induction false} RunKeeps(steps: seq<Step>)
    ensures Inv(Run(steps))
  {
    if steps != [] {
      var w, step := Run(steps[..|steps| - 1]), steps[|steps| - 1];
      RunKeeps(steps[..|steps| - 1]);
      match step
      case Simulate(_, _, _, _) => SimulateKeeps(w, step);
      case Approve(_, _, _, _, _, _, _) => ApproveKeeps(w, step);
      case Start(_, _, _, _, _, _) => StartKeeps(w, step);
      case Respond(_, _) => RespondKeeps(w, step);
      case End(_, _) => EndKeeps(w, step);
      case Crash(_) => CrashKeeps(w, step);
      case _ => TablesStepKeeps(w, step);
    }
  }

  // ---- theorems --------------------------------------------------------------------------

  /** In every run the responder is called at most once per proposal, and every call
      comes after an audited real approval of the same target by two different
      operators, with the plan the policy gives for the proposed finding. */
  lemma RespondedOnceAfterApproval(steps: seq<Step>)
    ensures var w := Run(steps);
            && (forall i, j :: 0 <= i < j < |w.calls| ==> w.calls[i].pid != w.calls[j].pid)
            && (forall i :: 0 <= i < |w.calls| ==>
                  var c := w.calls[i];
                  && c.pid in w.t.proposals
                  && ApprovedBefore(w.t.audit, c.audited, c.pid, c.target)
                  && w.t.proposals[c.pid].target == Some(c.target)
                  && var p := w.t.proposals[c.pid]; p.finding in p.doc.plans && c.plan == p.doc.plans[p.finding])
  {
    RunKeeps(steps);
    var w := Run(steps);
    forall i | 0 <= i < |w.calls| ensures CallOk(w, w.calls[i]) {
    }
  }

  /** In every run a verified proposal was called exactly once, and the reply said
      verified and executed. */
  lemma VerifiedMeansVerifiedReply(steps: seq<Step>, pid: ProposalId)
    requires pid in Run(steps).t.proposals && Run(steps).t.proposals[pid].status == Verified
    ensures ReplyGiven(Run(steps), pid, Answer(true, true))
    ensures forall i :: 0 <= i < |Run(steps).calls| && Run(steps).calls[i].pid == pid ==>
              Run(steps).calls[i].reply == Answer(true, true)
    ensures ValidChain(Run(steps).t.audit)
  {
    hide Run;
    RunKeeps(steps);
    var w := Run(steps);
    assert ProposalOk(w, pid);
  }

  // ---- which snapshot is current ----------------------------------------------------------

  /** The document of the last ingest of a run. */
  function LastIngested(steps: seq<Step>): Option<Doc> {
    if steps == [] then None
    else
      var last := steps[|steps| - 1];
      if last.Ingest? then Some(last.doc) else LastIngested(steps[..|steps| - 1])
  }

  lemma CurrentMoves(w: World, step: Step)
    requires Inv(w)
    ensures Apply(w, step).t.current == if step.Ingest? then Some(step.doc) else w.t.current
  {
    hide ValidChain, ProposalOk, ExecOk, CallOk;
  }

  /** In every run the current snapshot is the one ingested last. */
  lemma {:induction false} CurrentIsLastIngested(steps: seq<Step>)
    ensures Run(steps).t.current == LastIngested(steps)
  {
    hide Apply, Inv;
    if steps != [] {
      CurrentIsLastIngested(steps[..|steps| - 1]);
      RunKeeps(steps[..|steps| - 1]);
      CurrentMoves(Run(steps[..|steps| - 1]), steps[|steps| - 1]);
    }
  }

  // ---- how a proposal becomes verified --------------------------------------------------

  /** Step `i` starts executor `n` on this proposal: approved for the target, unexpired,
      its snapshot current and its stored plan the policy's. */
  ghost predicate StartsAt(steps: seq<Step>, i: nat, n: nat, pid: ProposalId, doc: Doc, target: Target) {
    && i < |steps| && steps[i].Start? && steps[i].n == n && steps[i].pid == pid
    && LastIngested(steps[..i]) == Some(doc) && steps[i].target == target
    && var t := Run(steps[..i]).t;
       && pid in t.proposals
       && var p := t.proposals[pid];
          && p.status == Approved && p.doc == doc && p.expires > steps[i].now && p.target == Some(target)
          && p.finding in doc.plans && p.body == doc.plans[p.finding]
  }

  /** Step `k` is the responder's reply to that executor. */
  ghost predicate RespondsAt(steps: seq<Step>, k: nat, n: nat, pid: ProposalId, reply: Reply) {
    && k < |steps| && steps[k] == Respond(n, reply)
    && var execs := Run(steps[..k]).execs;
       n in execs && execs[n].pid == pid && execs[n].phase == Waiting
  }

  /** Step `j` commits the executor's second transaction with this snapshot current and
      a reply that says verified and executed. */
  ghost predicate EndsAt(steps: seq<Step>, j: nat, n: nat, pid: ProposalId, doc: Doc) {
    && j < |steps| && steps[j].End? && steps[j].n == n
    && LastIngested(steps[..j]) == Some(doc)
    && var w := Run(steps[..j]);
       n in w.execs && w.execs[n].pid == pid && w.execs[n].phase == Answered(Answer(true, true))
  }

  /** One executor's whole path over the run. */
  ghost predicate Path(steps: seq<Step>, i: nat, k: nat, j: nat, n: nat, pid: ProposalId, p: Proposal) {
    && i < k < j && p.target.Some? && StartsAt(steps, i, n, pid, p.doc, p.target.value)
    && RespondsAt(steps, k, n, pid, Answer(true, true)) && EndsAt(steps, j, n, pid, p.doc)
  }

  lemma Earlier(steps: seq<Step>, i: nat)
    requires i < |steps|
    ensures steps[..|steps| - 1][..i] == steps[..i]
  {
  }

  /** Where an executor that is still active was started, and answered. */
  lemma {:induction false} ExecPath(steps: seq<Step>, n: nat) returns (i: nat, k: nat)
    requires n in Run(steps).execs && Active(Run(steps).execs[n])
    ensures var x := Run(steps).execs[n];
            && StartsAt(steps, i, n, x.pid, x.doc, x.target)
            && (x.phase.Answered? ==> i < k && RespondsAt(steps, k, n, x.pid, x.phase.reply))
  {
    var last := |steps| - 1;
    var before, step := Run(steps[..last]), steps[last];
    if n in before.execs && Active(before.execs[n]) {
      i, k := ExecPath(steps[..last], n);
      Earlier(steps, i);
      if before.execs[n].phase.Answered? {
        Earlier(steps, k);
      } else if Run(steps).execs[n].phase.Answered? {
        k := last;
      }
    } else {
      CurrentIsLastIngested(steps[..last]);
      i, k := last, last;
    }
  }

  lemma NewIsPending(w: World, step: Step, pid: ProposalId)
    requires pid in Apply(w, step).t.proposals && pid !in w.t.proposals
    ensures Apply(w, step).t.proposals[pid].status == Pending
  {
  }

  /** The path of the executor that verified a proposal. */
  lemma {:induction false} VerifiedPath(steps: seq<Step>, pid: ProposalId) returns (i: nat, k: nat, j: nat, n: nat)
    requires pid in Run(steps).t.proposals && Run(steps).t.proposals[pid].status == Verified
    ensures Path(steps, i, k, j, n, pid, Run(steps).t.proposals[pid])
  {
    var last := |steps| - 1;
    var before, step := Run(steps[..last]), steps[last];
    hide Apply, ReplyGiven, ApprovedBefore;
    RunKeeps(steps[..last]);
    if pid !in before.t.proposals { NewIsPending(before, step, pid); }
    StatusMovesForward(before, step, pid);
    if before.t.proposals[pid].status == Verified {
      i, k, j, n := VerifiedPath(steps[..last], pid);
      Earlier(steps, i);
      Earlier(steps, k);
      Earlier(steps, j);
    } else {
      CriticalMoves(before, step, pid);
      n, j := step.n, last;
      CurrentIsLastIngested(steps[..last]);
      i, k := ExecPath(steps[..last], n);
      assert ExecOk(before, before.execs[n]);
      Earlier(steps, i);
      Earlier(steps, k);
    }
  }

  lemma EndStep(w: World, step: Step, pid: ProposalId)
    requires Inv(w) && step.End? && step.n in w.execs && w.execs[step.n].pid == pid
    requires w.execs[step.n].phase == Answered(Answer(true, true)) && w.t.current == Some(w.execs[step.n].doc)
    ensures pid in Apply(w, step).t.proposals && Apply(w, step).t.proposals[pid].status == Verified
  {
    hide ValidChain, ReplyGiven;
    assert ExecOk(w, w.execs[step.n]);
  }

  lemma EndVerifies(steps: seq<Step>, j: nat, n: nat, pid: ProposalId)
    requires j < |steps| && n in Run(steps[..j]).execs && EndsAt(steps, j, n, pid, Run(steps[..j]).execs[n].doc)
    ensures pid in Run(steps).t.proposals && Run(steps).t.proposals[pid].status == Verified
  {
    hide Apply, Inv;
    RunKeeps(steps[..j]);
    CurrentIsLastIngested(steps[..j]);
    EndStep(Run(steps[..j]), steps[j], pid);
    assert steps[..j + 1][..j] == steps[..j] && steps == steps[..j + 1] + steps[j + 1..];
    StatusNeverReturns(steps[..j + 1], steps[j + 1..], pid);
  }

  /** The document an executor works on is its proposal's, then and for good. */
  lemma ExecutorsDoc(steps: seq<Step>, j: nat, n: nat, pid: ProposalId)
    requires j <= |steps| && n in Run(steps[..j]).execs && Active(Run(steps[..j]).execs[n])
    requires Run(steps[..j]).execs[n].pid == pid && pid in Run(steps).t.proposals
    ensures Run(steps[..j]).execs[n].doc == Run(steps).t.proposals[pid].doc
  {
    hide Apply, ReplyGiven;
    RunKeeps(steps[..j]);
    assert ExecOk(Run(steps[..j]), Run(steps[..j]).execs[n]);
    assert steps == steps[..j] + steps[j..];
    StatusNeverReturns(steps[..j], steps[j..], pid);
  }

  /** In every run a proposal is verified exactly when one executor was started on it with
      the approved snapshot the one ingested last, the approval unexpired and for this target
      and the stored plan intact, then was answered verified and executed, and then committed
      with the approved snapshot still, or again, the one ingested last. */
  lemma VerifiedExactly(steps: seq<Step>, pid: ProposalId)
    requires pid in Run(steps).t.proposals
    ensures Run(steps).t.proposals[pid].status == Verified <==>
              exists i, k, j, n :: Path(steps, i, k, j, n, pid, Run(steps).t.proposals[pid])
  {
    var p := Run(steps).t.proposals[pid];
    if p.status == Verified {
      var i, k, j, n := VerifiedPath(steps, pid);
    }
    forall i, k, j, n | Path(steps, i, k, j, n, pid, p) ensures p.status == Verified {
      ExecutorsDoc(steps, j, n, pid);
      EndVerifies(steps, j, n, pid);
    }
  }

  // ---- the audit table agrees with the proposals table ----------------------------------

  predicate VerifiedLogged(audit: seq<Row>, pid: ProposalId) {
    exists k :: 0 <= k < |audit| && audit[k].stored == Readable(ExecutionVerified(pid))
  }

  lemma LoggedAppend(audit: seq<Row>, at: int, payload: Payload, pid: ProposalId)
    ensures VerifiedLogged(Append(audit, at, payload), pid) <==>
              VerifiedLogged(audit, pid) || payload == ExecutionVerified(pid)
  {
    var audit' := Append(audit, at, payload);
    if VerifiedLogged(audit, pid) {
      var k :| 0 <= k < |audit| && audit[k].stored == Readable(ExecutionVerified(pid));
      assert audit'[k] == audit[k];
    }
    assert audit'[|audit|].stored == Readable(payload);
  }

  predicate IsVerified(t: Tables, pid: ProposalId) {
    pid in t.proposals && t.proposals[pid].status == Verified
  }

  ghost predicate LogAgrees(t: Tables) {
    forall pid :: VerifiedLogged(t.audit, pid) <==> IsVerified(t, pid)
  }

  /** One more row, and no proposal verified but the one that row names. */
  lemma LogOne(t: Tables, t': Tables, at: int, payload: Payload)
    requires LogAgrees(t) && t'.audit == Append(t.audit, at, payload)
    requires forall pid :: IsVerified(t', pid) <==> IsVerified(t, pid) || payload == ExecutionVerified(pid)
    ensures LogAgrees(t')
  {
    forall pid ensures VerifiedLogged(t'.audit, pid) <==> IsVerified(t', pid) {
      LoggedAppend(t.audit, at, payload, pid);
    }
  }

  lemma LogStep(w: World, step: Step)
    requires Inv(w) && LogAgrees(w.t)
    ensures LogAgrees(Apply(w, step).t)
  {
    if step.Simulate? || step.Approve? || step.Start? {
      LogAdmitted(w, step);
    } else if step.End? {
      if step.n in w.execs && w.execs[step.n].phase.Answered? { LogEnd(w, step); }
    } else {
      LogPlain(w, step);
    }
  }

  lemma LogPlain(w: World, step: Step)
    requires LogAgrees(w.t)
    requires step.Ingest? || step.Propose? || step.OtherRecord? || step.Respond? || step.Crash? || step.TamperBody?
    ensures LogAgrees(Apply(w, step).t)
  {
    var t, t' := w.t, Apply(w, step).t;
    if t'.audit == t.audit {
      assert forall pid :: IsVerified(t', pid) <==> IsVerified(t, pid);
      forall pid ensures VerifiedLogged(t'.audit, pid) <==> IsVerified(t', pid) {
        assert VerifiedLogged(t.audit, pid) <==> IsVerified(t, pid);
      }
    } else if step.Ingest? {
      LogOne(t, t', step.at, Ingested(step.doc));
    } else if step.Propose? {
      LogOne(t, t', step.at, Proposed(step.pid, step.doc));
    } else {
      LogOne(t, t', step.at, Note(step.text));
    }
  }

  lemma LogAdmitted(w: World, step: Step)
    requires LogAgrees(w.t) && (step.Simulate? || step.Approve? || step.Start?)
    ensures LogAgrees(Apply(w, step).t)
  {
    var t, t' := w.t, Apply(w, step).t;
    if t'.audit != t.audit {
      var q := step.pid;
      assert forall pid :: IsVerified(t', pid) <==> IsVerified(t, pid);
      if step.Simulate? {
        LogOne(t, Log(t, step.at, SimulationApproved(q)), step.at, SimulationApproved(q));
        LogOne(Log(t, step.at, SimulationApproved(q)), t', step.at, Simulated(q));
      } else if step.Approve? {
        LogOne(t, t', step.at, RealApproved(q, step.primary, step.secondary, step.target));
      } else {
        LogOne(t, t', step.at, Started(q));
      }
    }
  }

  lemma LogEnd(w: World, step: Step)
    requires Inv(w) && LogAgrees(w.t) && step.End? && step.n in w.execs && w.execs[step.n].phase.Answered?
    ensures LogAgrees(Apply(w, step).t)
  {
    hide ValidChain;
    var t, t', x := w.t, Apply(w, step).t, w.execs[step.n];
    assert ExecOk(w, x);
    if Outcome(t, x.doc, x.phase.reply) == Verified {
      LogOne(t, t', step.at, ExecutionVerified(x.pid));
    } else {
      LogOne(t, t', step.at, ExecutionFailed(x.pid));
    }
  }

  /** In every run the audit table says a proposal was verified exactly when the
      proposals table does. */
  lemma {:induction false} AuditAgreesWithStatus(steps: seq<Step>)
    ensures LogAgrees(Run(steps).t)
  {
    if steps != [] {
      AuditAgreesWithStatus(steps[..|steps| - 1]);
      RunKeeps(steps[..|steps| - 1]);
      LogStep(Run(steps[..|steps| - 1]), steps[|steps| - 1]);
    }
  }
}
