/** The Celery tasks of odyssey/agent/tasks.py that touch the proposal
    ledger, and the generic tool task.

    Each task opens its own MemoryManager on the database and closes it in
    `finally`; the database is the shared `MemoryManager` object and the
    connection is its `openConnections` counter. The simulated work (the
    sleep and the random pass/fail choice) is the `Work` oracle, which can
    also raise. */
module Tasks {
  import opened Common
  import opened Json
  import opened Memory

  /** The task functions tasks.py defines. The two task names the routes
      import for proposals, `run_sandbox_validation_task` and
      `merge_approved_proposal_task`, are not among them, so those imports
      raise ImportError. */
  const DefinedNames: seq<string> := ["add_numbers", "simulate_long_task", "potentially_failing_task",
                                      "execute_tool_task", "validate_proposal_task", "merge_proposal_task"]

  /** What the simulated work of a task does. */
  datatype Work = Pass | Fail | Interrupted(exc: Exc)

  /** How a task ends: with a return value or with an exception. */
  datatype TaskResult = Returned(value: Json) | TaskRaised(exc: Exc)

  const PassedOutput := "All checks passed. Code quality is good. Tests are green."
  const FailedOutput := "Validation failed: Linter errors found. Unit test 'test_critical_feature' failed."

  /** Subscripting the None that `get_proposal_log` returns for an unknown id. */
  const NotSubscriptable := Exc("TypeError", "'NoneType' object is not subscriptable")

  // ------------------------------------------------------- validate_proposal_task

  /** The write that ends `validate_proposal_task` once validation_in_progress
      is recorded with commit message `cm`: the outcome, or validation_error
      when the work raised (skipped for an empty id or branch). */
  function ValidateOutcome(pid: string, branch: string, cm: string, work: Work): seq<Step> {
    match work
    case Pass => [Step(pid, branch, cm, "validation_passed", Some(PassedOutput), None)]
    case Fail => [Step(pid, branch, cm, "validation_failed", Some(FailedOutput), None)]
    case Interrupted(e) =>
      if pid != "" && branch != ""
      then [Step(pid, branch, cm, "validation_error", Some("Task error: " + e.msg), None)]
      else []
  }

  /** The writes of `validate_proposal_task` for a record with commit message `cm`. */
  function ValidateRun(pid: string, branch: string, cm: string, work: Work): seq<Step> {
    [Step(pid, branch, cm, "validation_in_progress", None, None)] + ValidateOutcome(pid, branch, cm, work)
  }

  /** The ledger writes of `validate_proposal_task`, given the table it starts from. */
  function ValidateSteps(m: map<string, Proposal>, pid: string, branch: string, work: Work): seq<Step> {
    if pid !in m then [] else ValidateRun(pid, branch, m[pid].commitMessage, work)
  }

  function ValidateReturn(pid: string, status: string, output: string): Json {
    JObj(map["proposal_id" := JStr(pid), "status" := JStr(status), "output" := JStr(output)])
  }

  /** How `validate_proposal_task` ends for a known record. */
  function ValidateFinal(pid: string, work: Work): TaskResult {
    match work
    case Pass => Returned(ValidateReturn(pid, "validation_passed", PassedOutput))
    case Fail => Returned(ValidateReturn(pid, "validation_failed", FailedOutput))
    case Interrupted(e) => TaskRaised(e)
  }

  /** How `validate_proposal_task` ends. */
  function ValidateResult(m: map<string, Proposal>, pid: string, work: Work): TaskResult {
    if pid !in m then TaskRaised(NotSubscriptable) else ValidateFinal(pid, work)
  }

  /** A completed validation writes validation_in_progress (no output), then
      exactly one of validation_passed / validation_failed with its output,
      and returns that same status and output; the record ends in it. */
  lemma ValidateCompletes(m: map<string, Proposal>, pid: string, branch: string, work: Work, t0: nat)
    requires pid in m && !work.Interrupted?
    ensures var ws := ValidateSteps(m, pid, branch, work);
            var r := ValidateResult(m, pid, work);
            var p := ApplySteps(m, ws, t0)[pid];
            && |ws| == 2
            && ws[0].status == "validation_in_progress" && ws[0].validationOutput.None?
            && ws[1].status in {"validation_passed", "validation_failed"} && ws[1].validationOutput.Some?
            && (ws[1].status == "validation_passed" <==> work == Pass)
            && r.Returned? && r.value.JObj?
            && r.value.fields["status"] == JStr(ws[1].status)
            && r.value.fields["output"] == JStr(ws[1].validationOutput.value)
            && p.status == ws[1].status && p.validationOutput == ws[1].validationOutput
            && p.commitMessage == m[pid].commitMessage && p.createdAt == m[pid].createdAt
  {
    var ws := ValidateSteps(m, pid, branch, work);
    ApplyStepsLast(m, ws, t0);
    ApplyStepsAppend(m, [ws[0]], [ws[1]], t0);
    assert [ws[0]] + [ws[1]] == ws;
  }

  /** When the work raises, the task writes validation_error with
      "Task error: ..." (when it has an id and a branch) and re-raises. */
  lemma ValidateInterrupted(m: map<string, Proposal>, pid: string, branch: string, e: Exc, t0: nat)
    requires pid in m && pid != "" && branch != ""
    ensures var ws := ValidateSteps(m, pid, branch, Interrupted(e));
            var p := ApplySteps(m, ws, t0)[pid];
            && |ws| == 2
            && p.status == "validation_error"
            && p.validationOutput == Some("Task error: " + e.msg)
            && ValidateResult(m, pid, Interrupted(e)) == TaskRaised(e)
  {
    ApplyStepsLast(m, ValidateSteps(m, pid, branch, Interrupted(e)), t0);
  }

  /** An unknown proposal fails before any write. */
  lemma ValidateUnknown(m: map<string, Proposal>, pid: string, branch: string, work: Work)
    requires pid !in m
    ensures ValidateSteps(m, pid, branch, work) == []
    ensures ValidateResult(m, pid, work) == TaskRaised(NotSubscriptable)
  {
  }

  /** `validate_proposal_task(proposal_id, branch_name)` */
  method ValidateProposalTask(mem: MemoryManager, pid: string, branch: string, work: Work)
    returns (r: TaskResult)
    requires mem.Valid()
    modifies mem
    ensures mem.Valid()
    ensures mem.LedgerWrote(ValidateSteps(old(mem.proposals), pid, branch, work))
    ensures r == ValidateResult(old(mem.proposals), pid, work)
  {
    mem.Connect();
    r := ValidateConnected(mem, pid, branch, work);
    mem.Close();
  }

  /** The `try` block of `validate_proposal_task`, on an open connection. */
  method ValidateConnected(mem: MemoryManager, pid: string, branch: string, work: Work)
    returns (r: TaskResult)
    requires mem.LedgerValid()
    modifies mem
    ensures mem.LedgerValid()
    ensures mem.LedgerWrote(ValidateSteps(old(mem.proposals), pid, branch, work))
    ensures r == ValidateResult(old(mem.proposals), pid, work)
  {
    var rec := mem.GetProposalLog(pid);
    if rec.None? {
      // the read in the except branch raises the same TypeError, which is swallowed
      return TaskRaised(NotSubscriptable);
    }
    r := RunValidation(mem, pid, branch, rec.value.commitMessage, work);
  }

  /** The body of `validate_proposal_task` once the record is known to exist. */
  method RunValidation(mem: MemoryManager, pid: string, branch: string, cm: string, work: Work)
    returns (r: TaskResult)
    requires mem.LedgerValid() && pid in mem.proposals && mem.proposals[pid].commitMessage == cm
    modifies mem
    ensures mem.LedgerValid()
    ensures mem.LedgerWrote(ValidateRun(pid, branch, cm, work))
    ensures r == ValidateFinal(pid, work)
  {
    var first := Step(pid, branch, cm, "validation_in_progress", None, None);
    mem.LogProposalStep(pid, branch, cm, "validation_in_progress", None, None);
    OneWrite(old(mem.proposals), first, old(mem.clock));
    r := FinishValidation(mem, pid, branch, cm, work);
    ApplyStepsAppend(old(mem.proposals), [first], ValidateOutcome(pid, branch, cm, work), old(mem.clock));
  }

  /** The part of `validate_proposal_task` after the first write. */
  method FinishValidation(mem: MemoryManager, pid: string, branch: string, cm: string, work: Work)
    returns (r: TaskResult)
    requires mem.LedgerValid() && pid in mem.proposals && mem.proposals[pid].commitMessage == cm
    modifies mem
    ensures mem.LedgerValid()
    ensures mem.LedgerWrote(ValidateOutcome(pid, branch, cm, work))
    ensures r == ValidateFinal(pid, work)
  {
    if work.Interrupted? {
      if pid != "" && branch != "" {
        var again := mem.GetProposalLog(pid);
        mem.LogProposalStep(pid, branch, again.value.commitMessage, "validation_error",
                            Some("Task error: " + work.exc.msg), None);
      }
      return TaskRaised(work.exc);
    }
    var status := if work.Pass? then "validation_passed" else "validation_failed";
    var output := if work.Pass? then PassedOutput else FailedOutput;
    var again := mem.GetProposalLog(pid);
    mem.LogProposalStep(pid, branch, again.value.commitMessage, status, Some(output), None);
    r := Returned(ValidateReturn(pid, status, output));
  }

  // ---------------------------------------------------------- merge_proposal_task

  /** The ledger writes of `merge_proposal_task`. Both writes carry the
      commit message, approver and validation output read at the start. In
      the error branch, `validation_output + " | Merge task error: ..."`
      raises a TypeError when the output is None, which is swallowed, so no
      merge_error is written then. */
  function MergeSteps(m: map<string, Proposal>, pid: string, branch: string, work: Work): seq<Step> {
    if pid !in m then []
    else
      var p := m[pid];
      MergeRun(pid, branch, p.commitMessage, p.validationOutput, p.approvedBy, work)
  }

  /** The writes of `merge_proposal_task` for a record with these columns. */
  function MergeRun(pid: string, branch: string, cm: string, vo: Option<string>, ab: Option<string>,
                    work: Work): seq<Step> {
    [Step(pid, branch, cm, "merge_in_progress", vo, ab)] + MergeOutcome(pid, branch, cm, vo, ab, work)
  }

  /** The write that ends `merge_proposal_task` after merge_in_progress. */
  function MergeOutcome(pid: string, branch: string, cm: string, vo: Option<string>, ab: Option<string>,
                        work: Work): seq<Step> {
    match work
    case Pass => [Step(pid, branch, cm, "merged", vo, ab)]
    case Fail => [Step(pid, branch, cm, "merge_failed", vo, ab)]
    case Interrupted(e) =>
      if pid != "" && branch != "" && vo.Some?
      then [Step(pid, branch, cm, "merge_error", Some(vo.value + " | Merge task error: " + e.msg), ab)]
      else []
  }

  function MergeReturn(pid: string, status: string, branch: string): Json {
    JObj(map["proposal_id" := JStr(pid), "status" := JStr(status), "branch" := JStr(branch)])
  }

  function MergeNotFound(pid: string): Exc {
    Exc("ValueError", "Proposal " + pid + " not found for merge.")
  }

  /** How `merge_proposal_task` ends for a known record. */
  function MergeFinal(pid: string, branch: string, work: Work): TaskResult {
    match work
    case Pass => Returned(MergeReturn(pid, "merged", branch))
    case Fail => Returned(MergeReturn(pid, "merge_failed", branch))
    case Interrupted(e) => TaskRaised(e)
  }

  /** How `merge_proposal_task` ends. */
  function MergeResult(m: map<string, Proposal>, pid: string, branch: string, work: Work): TaskResult {
    if pid !in m then TaskRaised(MergeNotFound(pid)) else MergeFinal(pid, branch, work)
  }

  /** A completed merge writes merge_in_progress, then merged or
      merge_failed, both with the columns read at the start; it returns the
      final status and the branch. */
  lemma MergeCompletes(m: map<string, Proposal>, pid: string, branch: string, work: Work, t0: nat)
    requires pid in m && !work.Interrupted?
    ensures var ws := MergeSteps(m, pid, branch, work);
            var r := MergeResult(m, pid, branch, work);
            var p := ApplySteps(m, ws, t0)[pid];
            && |ws| == 2
            && ws[0].status == "merge_in_progress"
            && ws[1].status in {"merged", "merge_failed"}
            && (ws[1].status == "merged" <==> work == Pass)
            && (forall w :: w in ws ==>
                  w.commitMessage == m[pid].commitMessage && w.approvedBy == m[pid].approvedBy &&
                  w.validationOutput == m[pid].validationOutput)
            && r.Returned? && r.value.JObj?
            && r.value.fields["status"] == JStr(ws[1].status) && r.value.fields["branch"] == JStr(branch)
            && p.status == ws[1].status && p.approvedBy == m[pid].approvedBy
            && p.validationOutput == m[pid].validationOutput
  {
    ApplyStepsLast(m, MergeSteps(m, pid, branch, work), t0);
  }

  /** An unknown proposal raises ValueError and the ledger is unchanged. */
  lemma MergeUnknown(m: map<string, Proposal>, pid: string, branch: string, work: Work)
    requires pid !in m
    ensures MergeSteps(m, pid, branch, work) == []
    ensures MergeResult(m, pid, branch, work) == TaskRaised(MergeNotFound(pid))
  {
  }

  /** When the work raises on a record without validation output, the
      merge_error write is lost and the record stays merge_in_progress. */
  lemma MergeErrorLostWithoutOutput(m: map<string, Proposal>, pid: string, branch: string, e: Exc, t0: nat)
    requires pid in m && m[pid].validationOutput.None?
    ensures var ws := MergeSteps(m, pid, branch, Interrupted(e));
            |ws| == 1 && ApplySteps(m, ws, t0)[pid].status == "merge_in_progress"
  {
    ApplyStepsLast(m, MergeSteps(m, pid, branch, Interrupted(e)), t0);
  }

  /** With validation output the error is appended to it. */
  lemma MergeErrorRecorded(m: map<string, Proposal>, pid: string, branch: string, e: Exc, t0: nat)
    requires pid in m && pid != "" && branch != "" && m[pid].validationOutput.Some?
    ensures var p := ApplySteps(m, MergeSteps(m, pid, branch, Interrupted(e)), t0)[pid];
            p.status == "merge_error" &&
            p.validationOutput == Some(m[pid].validationOutput.value + " | Merge task error: " + e.msg)
  {
    ApplyStepsLast(m, MergeSteps(m, pid, branch, Interrupted(e)), t0);
  }

  /** `merge_proposal_task(proposal_id, branch_name)` */
  method MergeProposalTask(mem: MemoryManager, pid: string, branch: string, work: Work)
    returns (r: TaskResult)
    requires mem.Valid()
    modifies mem
    ensures mem.Valid()
    ensures mem.LedgerWrote(MergeSteps(old(mem.proposals), pid, branch, work))
    ensures r == MergeResult(old(mem.proposals), pid, branch, work)
  {
    mem.Connect();
    r := MergeConnected(mem, pid, branch, work);
    mem.Close();
  }

  /** The `try` block of `merge_proposal_task`, on an open connection. */
  method MergeConnected(mem: MemoryManager, pid: string, branch: string, work: Work)
    returns (r: TaskResult)
    requires mem.LedgerValid()
    modifies mem
    ensures mem.LedgerValid()
    ensures mem.LedgerWrote(MergeSteps(old(mem.proposals), pid, branch, work))
    ensures r == MergeResult(old(mem.proposals), pid, branch, work)
  {
    var original := mem.GetProposalLog(pid);
    if original.None? {
      // the except branch reads None again; `None + str` raises and is swallowed
      return TaskRaised(MergeNotFound(pid));
    }
    var p := original.value;
    r := RunMerge(mem, pid, branch, p.commitMessage, p.validationOutput, p.approvedBy, work);
  }

  /** The body of `merge_proposal_task` once the record is known to exist. */
  method RunMerge(mem: MemoryManager, pid: string, branch: string, cm: string, vo: Option<string>,
                  ab: Option<string>, work: Work)
    returns (r: TaskResult)
    requires mem.LedgerValid() && pid in mem.proposals
    requires mem.proposals[pid].commitMessage == cm && mem.proposals[pid].validationOutput == vo
    requires mem.proposals[pid].approvedBy == ab
    modifies mem
    ensures mem.LedgerValid()
    ensures mem.LedgerWrote(MergeRun(pid, branch, cm, vo, ab, work))
    ensures r == MergeFinal(pid, branch, work)
  {
    var first := Step(pid, branch, cm, "merge_in_progress", vo, ab);
    mem.LogProposalStep(pid, branch, cm, "merge_in_progress", vo, ab);
    OneWrite(old(mem.proposals), first, old(mem.clock));
    r := FinishMerge(mem, pid, branch, cm, vo, ab, work);
    ApplyStepsAppend(old(mem.proposals), [first], MergeOutcome(pid, branch, cm, vo, ab, work), old(mem.clock));
  }

  /** The part of `merge_proposal_task` after the first write. */
  method FinishMerge(mem: MemoryManager, pid: string, branch: string, cm: string, vo: Option<string>,
                     ab: Option<string>, work: Work)
    returns (r: TaskResult)
    requires mem.LedgerValid() && pid in mem.proposals
    requires mem.proposals[pid].commitMessage == cm && mem.proposals[pid].validationOutput == vo
    requires mem.proposals[pid].approvedBy == ab
    modifies mem
    ensures mem.LedgerValid()
    ensures mem.LedgerWrote(MergeOutcome(pid, branch, cm, vo, ab, work))
    ensures r == MergeFinal(pid, branch, work)
  {
    if work.Interrupted? {
      if pid != "" && branch != "" {
        var again := mem.GetProposalLog(pid);
        if again.value.validationOutput.Some? {
          mem.LogProposalStep(pid, branch, again.value.commitMessage, "merge_error",
                              Some(again.value.validationOutput.value + " | Merge task error: " + work.exc.msg),
                              again.value.approvedBy);
        }
      }
      return TaskRaised(work.exc);
    }
    var status := if work.Pass? then "merged" else "merge_failed";
    mem.LogProposalStep(pid, branch, cm, status, vo, ab);
    r := Returned(MergeReturn(pid, status, branch));
  }

  // ------------------------------------------------------------- execute_tool_task

  /** `isinstance(result, dict) and result.get("error")` */
  predicate IsToolError(result: Json) {
    result.JObj? && Truthy(Get(result.fields, "error", JNull))
  }

  /** How `execute_tool_task` ends, given the names the worker's ToolManager
      lists and what its `execute` returns. */
  function ExecuteToolResult(toolName: string, available: seq<string>, result: Json): (r: TaskResult)
    ensures toolName !in available ==> r.TaskRaised? && r.exc.kind == "ValueError"
    ensures toolName in available && IsToolError(result) ==> r.TaskRaised? && r.exc.kind == "Exception"
    ensures r.Returned? <==> toolName in available && !IsToolError(result)
    ensures r.Returned? ==> r.value == result
  {
    if toolName !in available then
      TaskRaised(Exc("ValueError", "Tool '" + toolName + "' not found by ToolManager. Available: " + ListRepr(available)))
    else if IsToolError(result) then
      var f := result.fields;
      TaskRaised(Exc("Exception", "Tool '" + toolName + "' error: " +
                                  Str(Get(f, "message", JStr("Tool execution failed."))) +
                                  " Details: " + Str(Get(f, "details", JStr("")))))
    else Returned(result)
  }

  /** `execute_tool_task(tool_name, tool_args)`: the worker's tool registry
      and the tool's result are parameters. */
  method ExecuteToolTask(mem: MemoryManager, toolName: string, available: seq<string>, result: Json)
    returns (r: TaskResult)
    modifies mem`openConnections
    ensures mem.openConnections == old(mem.openConnections)
    ensures r == ExecuteToolResult(toolName, available, result)
  {
    mem.Connect();
    if toolName !in available {
      r := TaskRaised(Exc("ValueError", "Tool '" + toolName + "' not found by ToolManager. Available: " + ListRepr(available)));
    } else if result.JObj? && Truthy(Get(result.fields, "error", JNull)) {
      var message := Get(result.fields, "message", JStr("Tool execution failed."));
      var details := Get(result.fields, "details", JStr(""));
      r := TaskRaised(Exc("Exception", "Tool '" + toolName + "' error: " + Str(message) + " Details: " + Str(details)));
    } else {
      r := Returned(result);
    }
    mem.Close();
  }
}
