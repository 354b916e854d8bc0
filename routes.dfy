/** The self-modification endpoints of odyssey/api/routes.py as transitions
    of the proposal ledger, and the configuration check of `PUT /config`.

    Each handler uses the application's shared MemoryManager. What lies
    outside the ledger is a parameter: the hex digits of the fresh uuid, the
    outcome of SelfModifier.propose_code_changes, and the Celery broker. */
module Routes {
  import opened Common
  import opened Json
  import opened Memory
  import opened Schemas
  import Tasks

  /** An HTTP outcome: the response body, or an HTTPException. */
  datatype Http<T> = Respond(body: T) | HttpError(code: nat, detail: string)

  type Reply = Http<ProposalResponse>

  // ------------------------------------------------------------------ dispatch

  /** Importing a task from odyssey.agent.tasks and calling `.delay` on it. */
  datatype Dispatched = Queued | ImportFailed | DelayFailed(msg: string)

  /** `from odyssey.agent.tasks import name; name.delay(...)`: the import fails
      for a name tasks.py does not define; otherwise the broker either
      accepts the task (None) or `.delay` raises with the given text. */
  function Dispatch(name: string, broker: Option<string>): (r: Dispatched)
    ensures name !in Tasks.DefinedNames ==> r == ImportFailed
    ensures name in Tasks.DefinedNames ==> (r == Queued <==> broker.None?)
    ensures name in Tasks.DefinedNames && broker.Some? ==> r == DelayFailed(broker.value)
  {
    if name !in Tasks.DefinedNames then ImportFailed
    else if broker.None? then Queued
    else DelayFailed(broker.value)
  }

  /** The task names the endpoints import. */
  const ValidationTaskName := "run_sandbox_validation_task"
  const MergeTaskName := "merge_approved_proposal_task"

  /** Neither name is defined in tasks.py, so the ImportError branches are the
      ones taken, whatever the broker does. */
  lemma DispatchFailsToImport(broker: Option<string>)
    ensures Dispatch(ValidationTaskName, broker) == ImportFailed
    ensures Dispatch(MergeTaskName, broker) == ImportFailed
  {
    assert ValidationTaskName != Tasks.DefinedNames[0] && ValidationTaskName != Tasks.DefinedNames[4];
    assert MergeTaskName != Tasks.DefinedNames[5];
  }

  // ------------------------------------------------------------------ propose

  predicate IsHexDigit(c: char) { '0' <= c <= '9' || 'a' <= c <= 'f' }

  /** `f"prop_{uuid.uuid4().hex[:10]}"`, given the uuid's hex digits. */
  function ProposalId(hex: string): (r: string)
    requires |hex| >= 10
    ensures |r| == 15 && r[..5] == "prop_" && r[5..] == hex[..10]
  {
    "prop_" + hex[..10]
  }

  /** Proposal ids are "prop_" and ten lower-case hex digits. */
  lemma ProposalIdShape(hex: string)
    requires |hex| == 32 && forall i :: 0 <= i < |hex| ==> IsHexDigit(hex[i])
    ensures forall i :: 5 <= i < 15 ==> IsHexDigit(ProposalId(hex)[i])
  {
    var r := ProposalId(hex);
    forall i | 5 <= i < 15
      ensures IsHexDigit(r[i])
    {
      assert r[i] == r[5..][i - 5] == hex[i - 5];
    }
  }

  /** What `self_modifier.propose_code_changes` does: returns the branch it
      created, or raises with the given text. */
  datatype BranchOutcome = Created(branch: string) | BranchFailed(error: string)

  /** The branch recorded when branch creation raises. */
  function FailedBranchName(prefix: Option<string>, pid: string): string {
    OrElse(prefix, "proposal") + "_" + pid + "_failed"
  }

  /** The second write of a successful proposal and the reply that goes with it. */
  function ProposeTriggerStep(pid: string, branch: string, cm: string, d: Dispatched): Step {
    match d
    case Queued => Step(pid, branch, cm, "validation_pending", None, None)
    case ImportFailed => Step(pid, branch, cm, "validation_error", Some("Failed to trigger validation: Task not found."), None)
    case DelayFailed(e) => Step(pid, branch, cm, "validation_error", Some("Failed to trigger validation: " + e), None)
  }

  function ProposeTriggerMessage(d: Dispatched): string {
    match d
    case Queued => "Proposal submitted successfully. Code changes created, logged, and validation task triggered."
    case ImportFailed => "Proposal created, but automatic validation could not be started. Task not found."
    case DelayFailed(e) => "Proposal created, but automatic validation failed to start: " + e
  }

  /** The ledger writes of `propose_code_change_endpoint`. */
  function ProposeSteps(pid: string, req: ProposeChange, outcome: BranchOutcome, d: Dispatched): seq<Step> {
    match outcome
    case BranchFailed(e) =>
      [Step(pid, FailedBranchName(req.branchPrefix, pid), req.commitMessage, "proposal_failed",
            Some("Error creating branch/commit: " + e), None)]
    case Created(b) =>
      [Step(pid, b, req.commitMessage, "proposed", None, None), ProposeTriggerStep(pid, b, req.commitMessage, d)]
  }

  /** The reply of `propose_code_change_endpoint`. */
  function ProposeReply(pid: string, req: ProposeChange, outcome: BranchOutcome, d: Dispatched): Reply {
    match outcome
    case BranchFailed(e) => HttpError(500, "Failed to propose code changes: " + e)
    case Created(b) =>
      Respond(ProposalResponse(pid, b, ProposeTriggerStep(pid, b, req.commitMessage, d).status,
                               Some(ProposeTriggerMessage(d))))
  }

  /** When branch creation raises, exactly one record is written, as
      proposal_failed under the fallback branch name with the error text,
      and the reply is a 500. */
  lemma ProposeBranchFailure(m: map<string, Proposal>, pid: string, req: ProposeChange, e: string,
                             d: Dispatched, t0: nat)
    ensures pid in ApplySteps(m, ProposeSteps(pid, req, BranchFailed(e), d), t0)
    ensures var ws := ProposeSteps(pid, req, BranchFailed(e), d);
            var p := ApplySteps(m, ws, t0)[pid];
            && |ws| == 1
            && p.status == "proposal_failed"
            && p.branchName == FailedBranchName(req.branchPrefix, pid)
            && p.validationOutput == Some("Error creating branch/commit: " + e)
            && ProposeReply(pid, req, BranchFailed(e), d) == HttpError(500, "Failed to propose code changes: " + e)
  {
    var ws := ProposeSteps(pid, req, BranchFailed(e), d);
    OneWrite(m, ws[0], t0);
  }

  /** Once the branch exists the ledger sees proposed, then validation_pending
      or validation_error; the reply's status is the last status written,
      which is the record's status afterwards. */
  lemma ProposeStatusMatchesLedger(m: map<string, Proposal>, pid: string, req: ProposeChange, b: string,
                                   d: Dispatched, t0: nat)
    ensures var ws := ProposeSteps(pid, req, Created(b), d);
            |ws| == 2 && ws[0].status == "proposed" && ws[1] == ProposeTriggerStep(pid, b, req.commitMessage, d)
    ensures var s := ProposeTriggerStep(pid, b, req.commitMessage, d);
            (s.status == "validation_pending" <==> d == Queued) &&
            (s.status == "validation_error" <==> d != Queued)
    ensures ProposeReply(pid, req, Created(b), d) ==
            Respond(ProposalResponse(pid, b, ProposeTriggerStep(pid, b, req.commitMessage, d).status,
                                     Some(ProposeTriggerMessage(d))))
    ensures pid in ApplySteps(m, ProposeSteps(pid, req, Created(b), d), t0)
    ensures ApplySteps(m, ProposeSteps(pid, req, Created(b), d), t0)[pid].status ==
            ProposeTriggerStep(pid, b, req.commitMessage, d).status
  {
    ApplyStepsLast(m, ProposeSteps(pid, req, Created(b), d), t0);
  }

  /** As the code stands, a created proposal always ends in validation_error
      with "Task not found". */
  lemma ProposeEndsInValidationError(m: map<string, Proposal>, pid: string, req: ProposeChange, b: string,
                                     broker: Option<string>, t0: nat)
    ensures pid in ApplySteps(m, ProposeSteps(pid, req, Created(b), Dispatch(ValidationTaskName, broker)), t0)
    ensures var d := Dispatch(ValidationTaskName, broker);
            var p := ApplySteps(m, ProposeSteps(pid, req, Created(b), d), t0)[pid];
            p.status == "validation_error" &&
            p.validationOutput == Some("Failed to trigger validation: Task not found.")
  {
    DispatchFailsToImport(broker);
    ApplyStepsLast(m, ProposeSteps(pid, req, Created(b), Dispatch(ValidationTaskName, broker)), t0);
  }

  /** `propose_code_change_endpoint` */
  method ProposeCodeChange(mem: MemoryManager, req: ProposeChange, hex: string, outcome: BranchOutcome,
                           broker: Option<string>)
    returns (r: Reply)
    requires mem.LedgerValid() && |hex| >= 10
    modifies mem
    ensures mem.LedgerValid()
    ensures mem.LedgerWrote(ProposeSteps(ProposalId(hex), req, outcome, Dispatch(ValidationTaskName, broker)))
    ensures r == ProposeReply(ProposalId(hex), req, outcome, Dispatch(ValidationTaskName, broker))
  {
    var pid := ProposalId(hex);
    match outcome
    case BranchFailed(e) =>
      mem.LogProposalStep(pid, FailedBranchName(req.branchPrefix, pid), req.commitMessage, "proposal_failed",
                          Some("Error creating branch/commit: " + e), None);
      r := HttpError(500, "Failed to propose code changes: " + e);
    case Created(b) =>
      var d := Dispatch(ValidationTaskName, broker);
      r := ProposeCreated(mem, pid, b, req, d);
  }

  /** The part of `propose_code_change_endpoint` after the branch was created. */
  method ProposeCreated(mem: MemoryManager, pid: string, b: string, req: ProposeChange, d: Dispatched)
    returns (r: Reply)
    requires mem.LedgerValid()
    modifies mem
    ensures mem.LedgerValid()
    ensures mem.LedgerWrote(ProposeSteps(pid, req, Created(b), d))
    ensures r == ProposeReply(pid, req, Created(b), d)
  {
    var first := Step(pid, b, req.commitMessage, "proposed", None, None);
    var second := ProposeTriggerStep(pid, b, req.commitMessage, d);
    assert ProposeSteps(pid, req, Created(b), d) == [first] + [second];
    mem.LogProposalStep(pid, b, req.commitMessage, "proposed", None, None);
    OneWrite(old(mem.proposals), first, old(mem.clock));
    r := ProposeTrigger(mem, pid, b, req.commitMessage, d);
    ApplyStepsAppend(old(mem.proposals), [first], [second], old(mem.clock));
  }

  /** The write that records how the validation dispatch went. */
  method ProposeTrigger(mem: MemoryManager, pid: string, b: string, cm: string, d: Dispatched)
    returns (r: Reply)
    requires mem.LedgerValid()
    modifies mem
    ensures mem.LedgerValid()
    ensures mem.LedgerWrote([ProposeTriggerStep(pid, b, cm, d)])
    ensures r == Respond(ProposalResponse(pid, b, ProposeTriggerStep(pid, b, cm, d).status,
                                          Some(ProposeTriggerMessage(d))))
  {
    var msg := ProposeTriggerMessage(d);
    match d
    case Queued =>
      mem.LogProposalStep(pid, b, cm, "validation_pending", None, None);
      r := Respond(ProposalResponse(pid, b, "validation_pending", Some(msg)));
    case ImportFailed =>
      mem.LogProposalStep(pid, b, cm, "validation_error",
                          Some("Failed to trigger validation: Task not found."), None);
      r := Respond(ProposalResponse(pid, b, "validation_error", Some(msg)));
    case DelayFailed(e) =>
      mem.LogProposalStep(pid, b, cm, "validation_error", Some("Failed to trigger validation: " + e), None);
      r := Respond(ProposalResponse(pid, b, "validation_error", Some(msg)));
  }

  // ------------------------------------------------------------------ approve

  const ApprovableStatuses: seq<string> := ["validation_passed", "merge_failed"]

  const Approver := "api_user"

  /** The statuses from which a proposal may be approved. */
  predicate Approvable(status: string) { status in ApprovableStatuses }

  lemma ApprovableExactly(status: string)
    ensures Approvable(status) <==> status == "validation_passed" || status == "merge_failed"
  {
    assert ApprovableStatuses == ["validation_passed"] + ["merge_failed"];
  }

  function NotFound(pid: string): Reply {
    HttpError(404, "Proposal with ID '" + pid + "' not found.")
  }

  function ApproveConflict(status: string): Reply {
    HttpError(409, "Proposal cannot be approved. Current status is '" + status + "'. Expected one of " +
                   ListRepr(ApprovableStatuses) + ".")
  }

  /** The write that follows user_approved, by how the merge dispatch went. */
  function ApproveTriggerStep(pid: string, p: Proposal, d: Dispatched): Step {
    match d
    case Queued => Step(pid, p.branchName, p.commitMessage, "merge_pending", p.validationOutput, Some(Approver))
    case ImportFailed =>
      Step(pid, p.branchName, p.commitMessage, "merge_error", Some("Failed to trigger merge: Task not found."), Some(Approver))
    case DelayFailed(e) =>
      Step(pid, p.branchName, p.commitMessage, "merge_error", Some("Failed to trigger merge: " + e), Some(Approver))
  }

  function ApproveMessage(pid: string, d: Dispatched): string {
    match d
    case Queued => "Proposal '" + pid + "' approved by " + Approver + ". Merge task triggered."
    case ImportFailed => "Proposal approved, but automatic merge could not be started: Merge task not found."
    case DelayFailed(e) => "Proposal approved, but automatic merge failed to start: " + e
  }

  /** The ledger writes of `approve_proposal_endpoint`. */
  function ApproveSteps(m: map<string, Proposal>, pid: string, d: Dispatched): seq<Step> {
    if pid !in m || !Approvable(m[pid].status) then []
    else
      var p := m[pid];
      [Step(pid, p.branchName, p.commitMessage, "user_approved", p.validationOutput, Some(Approver)),
       ApproveTriggerStep(pid, p, d)]
  }

  /** The reply of `approve_proposal_endpoint`. */
  function ApproveReply(m: map<string, Proposal>, pid: string, d: Dispatched): Reply {
    if pid !in m then NotFound(pid)
    else if !Approvable(m[pid].status) then ApproveConflict(m[pid].status)
    else Respond(ProposalResponse(pid, m[pid].branchName, ApproveTriggerStep(pid, m[pid], d).status,
                                  Some(ApproveMessage(pid, d))))
  }

  /** Approval writes nothing unless the record exists and is
      validation_passed or merge_failed; otherwise the reply is 404 or 409. */
  lemma ApproveRefused(m: map<string, Proposal>, pid: string, d: Dispatched)
    requires pid !in m || !Approvable(m[pid].status)
    ensures ApproveSteps(m, pid, d) == []
    ensures pid !in m ==> ApproveReply(m, pid, d).HttpError? && ApproveReply(m, pid, d).code == 404
    ensures pid in m ==> ApproveReply(m, pid, d) == ApproveConflict(m[pid].status)
  {
  }

  /** An approvable record gets user_approved by api_user with its output
      kept, then merge_pending (output kept) or merge_error (output replaced
      by the dispatch failure); the reply carries the last status written. */
  lemma ApproveAccepted(m: map<string, Proposal>, pid: string, d: Dispatched, t0: nat)
    requires pid in m && Approvable(m[pid].status)
    ensures pid in ApplySteps(m, ApproveSteps(m, pid, d), t0)
    ensures var ws := ApproveSteps(m, pid, d);
            var p := ApplySteps(m, ws, t0)[pid];
            var r := ApproveReply(m, pid, d);
            && |ws| == 2
            && ws[0].status == "user_approved" && ws[0].approvedBy == Some(Approver)
            && ws[0].validationOutput == m[pid].validationOutput
            && (d == Queued <==> ws[1].status == "merge_pending")
            && (d != Queued <==> ws[1].status == "merge_error")
            && p.status == ws[1].status && p.approvedBy == Some(Approver)
            && (d == Queued ==> p.validationOutput == m[pid].validationOutput)
            && (d == ImportFailed ==> p.validationOutput == Some("Failed to trigger merge: Task not found."))
            && (d.DelayFailed? ==> p.validationOutput == Some("Failed to trigger merge: " + d.msg))
            && r.Respond? && r.body.status == p.status
            && (d == ImportFailed ==>
                  r.body.message == Some("Proposal approved, but automatic merge could not be started: Merge task not found."))
            && (d.DelayFailed? ==> r.body.message == Some("Proposal approved, but automatic merge failed to start: " + d.msg))
  {
    ApplyStepsLast(m, ApproveSteps(m, pid, d), t0);
  }

  /** A proposal whose merge failed can be approved again. */
  lemma ReapproveAfterMergeFailed(m: map<string, Proposal>, pid: string, d: Dispatched)
    requires pid in m && m[pid].status == "merge_failed"
    ensures |ApproveSteps(m, pid, d)| == 2 && ApproveReply(m, pid, d).Respond?
  {
    ApprovableExactly(m[pid].status);
  }

  /** `approve_proposal_endpoint` */
  method ApproveProposal(mem: MemoryManager, pid: string, broker: Option<string>) returns (r: Reply)
    requires mem.LedgerValid()
    modifies mem
    ensures mem.LedgerValid()
    ensures mem.LedgerWrote(ApproveSteps(old(mem.proposals), pid, Dispatch(MergeTaskName, broker)))
    ensures r == ApproveReply(old(mem.proposals), pid, Dispatch(MergeTaskName, broker))
  {
    var proposal := mem.GetProposalLog(pid);
    if proposal.None? {
      return NotFound(pid);
    }
    var p := proposal.value;
    if !Approvable(p.status) {
      return ApproveConflict(p.status);
    }
    r := ApproveAccept(mem, pid, p, Dispatch(MergeTaskName, broker));
  }

  /** The writes of `approve_proposal_endpoint` once the status check passed. */
  method ApproveAccept(mem: MemoryManager, pid: string, p: Proposal, d: Dispatched) returns (r: Reply)
    requires mem.LedgerValid() && pid in mem.proposals && mem.proposals[pid] == p
    requires Approvable(p.status)
    modifies mem
    ensures mem.LedgerValid()
    ensures mem.LedgerWrote(ApproveSteps(old(mem.proposals), pid, d))
    ensures r == ApproveReply(old(mem.proposals), pid, d)
  {
    var first := Step(pid, p.branchName, p.commitMessage, "user_approved", p.validationOutput, Some(Approver));
    var second := ApproveTriggerStep(pid, p, d);
    assert ApproveSteps(mem.proposals, pid, d) == [first] + [second];
    assert ApproveReply(mem.proposals, pid, d) ==
           Respond(ProposalResponse(pid, p.branchName, second.status, Some(ApproveMessage(pid, d))));
    mem.LogProposalStep(pid, p.branchName, p.commitMessage, "user_approved", p.validationOutput, Some(Approver));
    OneWrite(old(mem.proposals), first, old(mem.clock));
    r := ApproveTrigger(mem, pid, p, d);
    ApplyStepsAppend(old(mem.proposals), [first], [second], old(mem.clock));
  }

  /** The write that records how the merge dispatch went. */
  method ApproveTrigger(mem: MemoryManager, pid: string, p: Proposal, d: Dispatched) returns (r: Reply)
    requires mem.LedgerValid()
    modifies mem
    ensures mem.LedgerValid()
    ensures mem.LedgerWrote([ApproveTriggerStep(pid, p, d)])
    ensures r == Respond(ProposalResponse(pid, p.branchName, ApproveTriggerStep(pid, p, d).status,
                                          Some(ApproveMessage(pid, d))))
  {
    var msg := ApproveMessage(pid, d);
    match d
    case Queued =>
      mem.LogProposalStep(pid, p.branchName, p.commitMessage, "merge_pending", p.validationOutput, Some(Approver));
      r := Respond(ProposalResponse(pid, p.branchName, "merge_pending", Some(msg)));
    case ImportFailed =>
      mem.LogProposalStep(pid, p.branchName, p.commitMessage, "merge_error",
                          Some("Failed to trigger merge: Task not found."), Some(Approver));
      r := Respond(ProposalResponse(pid, p.branchName, "merge_error", Some(msg)));
    case DelayFailed(e) =>
      mem.LogProposalStep(pid, p.branchName, p.commitMessage, "merge_error", Some("Failed to trigger merge: " + e),
                          Some(Approver));
      r := Respond(ProposalResponse(pid, p.branchName, "merge_error", Some(msg)));
  }

  // ------------------------------------------------------------------ reject

  const FinalStatuses: seq<string> := ["rejected", "merged"]

  /** The statuses a rejection leaves alone. */
  predicate Final(status: string) { status in FinalStatuses }

  lemma FinalExactly(status: string)
    ensures Final(status) <==> status == "rejected" || status == "merged"
  {
    assert FinalStatuses == ["rejected"] + ["merged"];
  }

  /** The ledger writes of `reject_proposal_endpoint`: approved_by is not
      passed, so the upsert clears it. */
  function RejectSteps(m: map<string, Proposal>, pid: string): seq<Step> {
    if pid !in m || Final(m[pid].status) then []
    else [Step(pid, m[pid].branchName, m[pid].commitMessage, "rejected", m[pid].validationOutput, None)]
  }

  /** The reply of `reject_proposal_endpoint`. */
  function RejectReply(m: map<string, Proposal>, pid: string): Reply {
    if pid !in m then NotFound(pid)
    else if Final(m[pid].status) then
      Respond(ProposalResponse(pid, m[pid].branchName, m[pid].status,
                               Some("Proposal is already in status '" + m[pid].status + "'. No change made.")))
    else Respond(ProposalResponse(pid, m[pid].branchName, "rejected",
                                  Some("Proposal '" + pid + "' has been successfully rejected.")))
  }

  /** Any status other than rejected and merged can be rejected: the record
      becomes rejected, keeps its output, commit message, branch and
      created_at, and loses its approver. */
  lemma RejectFromAnyOther(m: map<string, Proposal>, pid: string, t0: nat)
    requires pid in m && !Final(m[pid].status)
    ensures pid in ApplySteps(m, RejectSteps(m, pid), t0)
    ensures var p := ApplySteps(m, RejectSteps(m, pid), t0)[pid];
            && p.status == "rejected" && p.approvedBy.None?
            && p.validationOutput == m[pid].validationOutput
            && p.branchName == m[pid].branchName && p.commitMessage == m[pid].commitMessage
            && p.createdAt == m[pid].createdAt
            && RejectReply(m, pid).Respond? && RejectReply(m, pid).body.status == "rejected"
  {
    var ws := RejectSteps(m, pid);
    OneWrite(m, ws[0], t0);
  }

  /** A rejected or merged proposal, or an unknown one, is left alone; the
      reply reports the current status or 404. */
  lemma RejectLeavesFinal(m: map<string, Proposal>, pid: string)
    requires pid !in m || Final(m[pid].status)
    ensures RejectSteps(m, pid) == []
    ensures pid in m ==> RejectReply(m, pid).Respond? && RejectReply(m, pid).body.status == m[pid].status
    ensures pid !in m ==> RejectReply(m, pid) == NotFound(pid)
  {
  }

  /** Rejecting twice writes once. */
  lemma RejectIdempotent(m: map<string, Proposal>, pid: string, t0: nat)
    ensures var m' := ApplySteps(m, RejectSteps(m, pid), t0);
            RejectSteps(m', pid) == []
  {
    if pid in m && !Final(m[pid].status) {
      RejectFromAnyOther(m, pid, t0);
      FinalExactly("rejected");
    }
  }

  /** `reject_proposal_endpoint` */
  method RejectProposal(mem: MemoryManager, pid: string) returns (r: Reply)
    requires mem.LedgerValid()
    modifies mem
    ensures mem.LedgerValid()
    ensures mem.LedgerWrote(RejectSteps(old(mem.proposals), pid))
    ensures r == RejectReply(old(mem.proposals), pid)
  {
    var proposal := mem.GetProposalLog(pid);
    if proposal.None? {
      return NotFound(pid);
    }
    var p := proposal.value;
    if Final(p.status) {
      return Respond(ProposalResponse(pid, p.branchName, p.status,
                                      Some("Proposal is already in status '" + p.status + "'. No change made.")));
    }
    mem.LogProposalStep(pid, p.branchName, p.commitMessage, "rejected", p.validationOutput, None);
    r := Respond(ProposalResponse(pid, p.branchName, "rejected",
                                  Some("Proposal '" + pid + "' has been successfully rejected.")));
  }

  // ------------------------------------------------------------------ configuration

  /** `update_agent_configuration`: a max_iterations below one is refused with
      400; anything else is echoed back unchanged. */
  function UpdateAgentConfiguration(config: AgentConfig): (r: Http<AgentConfig>)
    ensures r.HttpError? <==> config.maxIterations.Some? && config.maxIterations.value < 1
    ensures r.HttpError? ==> r.code == 400 && r.detail == "max_iterations must be positive."
    ensures r.Respond? ==> r.body == config
  {
    if config.maxIterations.Some? && config.maxIterations.value < 1
    then HttpError(400, "max_iterations must be positive.")
    else Respond(config)
  }
}
