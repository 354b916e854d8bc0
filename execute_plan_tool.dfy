/** ExecutePlanTool (odyssey/plugins/execute_plan_tool.py): runs a list of
    steps, each a tool name with keyword parameters, through the injected
    ToolManager, and collects one entry per step. */
module ExecutePlan {
  import opened Common
  import opened Json
  import opened ToolManagement

  const ToolName := "execute_plan_tool"
  const ToolDescription := "Executes a list of tool calls in sequence. Each step defines a tool_name and its parameters."

  /** The declared parameters of `ExecutePlanTool.__init__`. */
  const InitParams := [Param("self", false), Param("tool_manager", false), Param("settings", true)]

  /** The schema of `get_schema`: one required array parameter `steps`. */
  function PlanSchema(): (r: Json)
    ensures r.JObj? && r.fields.Keys == {"name", "description", "parameters"}
  {
    var item := JObj(map["type" := JStr("object"),
                         "properties" := JObj(map["tool_name" := JObj(map["type" := JStr("string")]),
                                                  "parameters" := JObj(map["type" := JStr("object")])]),
                         "required" := JList([JStr("tool_name"), JStr("parameters")])]);
    JObj(map["name" := JStr(ToolName),
             "description" := JStr(ToolDescription),
             "parameters" := JObj(map["type" := JStr("object"),
                                      "properties" := JObj(map["steps" := JObj(map["type" := JStr("array"), "items" := item])]),
                                      "required" := JList([JStr("steps")])])])
  }

  /** The tool passes `ToolInterface.__init__` and its schema passes
      `register`'s check. */
  lemma PlanToolRegistrable()
    ensures ToolInterfaceInit("ExecutePlanTool", Some(ToolName), Some(ToolDescription)).None?
    ensures Registrable(Instance(Tool("ExecutePlanTool", ToolName, ToolDescription, Ok(PlanSchema()))))
  {
    var f := PlanSchema().fields;
    assert f["name"] == JStr(ToolName) && f["description"] == JStr(ToolDescription);
  }

  /** Discovery always injects the manager into the tool (and the settings
      when they were supplied), so the constructor's ValueError is never
      reached through discovery. */
  lemma Discoverable(memory: bool, ollama: bool, celery: bool, settings: bool)
    ensures var available := Offered(memory, ollama, celery, settings);
            var inj := Injected(InitParams, available);
            !Missing(InitParams, available) &&
            inj.Keys <= {"tool_manager", "settings"} && ("settings" in inj <==> settings) &&
            "tool_manager" in inj && inj["tool_manager"] == ManagerService
  {
    var available := Offered(memory, ollama, celery, settings);
    ManagerAlwaysInjected(InitParams, memory, ollama, celery, settings, 1);
    forall k | 0 <= k < |InitParams| ensures !Unmet(InitParams[k], available) {
    }
    var inj := Injected(InitParams, available);
    forall n | n in inj ensures n == "tool_manager" || n == "settings" {
      var q :| q in InitParams && q.name == n;
    }
    assert InitParams[2] in InitParams;
  }

  class ExecutePlanTool {
    const manager: ToolManager

    constructor(manager: ToolManager)
      ensures this.manager == manager
    {
      this.manager := manager;
    }

    /** `execute(steps)` */
    method Execute(steps: Json, run: (Tool, Obj) -> Outcome) returns (r: Result<Json>)
      ensures r == PlanResult(steps, manager.tools, manager.order, run)
    {
      if !Sized(steps) {
        return Raised(NoLen(steps));
      }
      if !steps.JList? {
        return Ok(ErrorResult(NotAList));
      }
      var p := RunSteps(steps.items, manager.tools, manager.order, run);
      if p.Raised? {
        return Raised(p.exc);
      }
      r := Ok(SuccessResult(JList(p.value.0), if p.value.1 then "success" else "partial_failure"));
    }
  }

  /** The loop of `execute` over the steps. */
  method RunSteps(items: seq<Json>, tools: map<string, Tool>, order: seq<string>, run: (Tool, Obj) -> Outcome)
    returns (r: Result<(seq<Json>, bool)>)
    ensures r == Collect(StepResults(items, tools, order, run))
  {
    ghost var results := StepResults(items, tools, order, run);
    var entries: seq<Json> := [];
    var overall := true;
    var i := 0;
    while i < |items|
      invariant i <= |items|
      invariant Collect(results[..i]) == Ok((entries, overall))
    {
      var step := StepResult(i, items[i], tools, order, run);
      CollectNext(results, i);
      if step.Raised? {
        CollectStops(results, i + 1);
        return Raised(step.exc);
      }
      entries := entries + [step.value.value];
      overall := overall && step.value.wellFormed;
      i := i + 1;
    }
    assert results[..i] == results;
    r := Ok((entries, overall));
  }

  /** `ExecutePlanTool(tool_manager)`: construction fails only without a
      manager. */
  method NewExecutePlanTool(manager: ToolManager?) returns (r: Result<ExecutePlanTool>)
    ensures r.Raised? <==> manager == null
    ensures r.Raised? ==> r.exc == Exc("ValueError", "ToolManager instance is required for ExecutePlanTool.")
    ensures r.Ok? ==> r.value.manager == manager
  {
    if manager == null {
      return Raised(Exc("ValueError", "ToolManager instance is required for ExecutePlanTool."));
    }
    var t := new ExecutePlanTool(manager);
    r := Ok(t);
  }

  // ------------------------------------------------------------ error values

  const NotAList := "Invalid 'steps' format: Must be a list of step dictionaries."

  /** `len(steps)` on a value without a length. */
  function NoLen(j: Json): Exc {
    Exc("TypeError", "object of type '" + TypeName(j) + "' has no len()")
  }

  /** `step.get(...)` on a step that is not a dict. */
  function NoGet(j: Json): Exc {
    Exc("AttributeError", "'" + TypeName(j) + "' object has no attribute 'get'")
  }

  /** `execute(tool_name, **parameters)` when the parameters name one of
      `execute`'s own parameters (the one reported when both appear depends
      on dict order, which is not represented). */
  predicate Rebinds(parameters: Obj) {
    "self" in parameters || "tool_name" in parameters
  }

  function MultipleValues(parameters: Obj): Exc {
    Exc("TypeError", "ToolManager.execute() got multiple values for argument '" +
                     (if "self" in parameters then "self" else "tool_name") + "'")
  }

  /** `tool_name not in self.tools` with a list or dict as the name. */
  function Unhashable(j: Json): Exc {
    Exc("TypeError", "unhashable type: '" + TypeName(j) + "'")
  }

  /** `{..., **outcome}` with an outcome that is not a dict. */
  function NotAMapping(j: Json): Exc {
    Exc("TypeError", "'" + TypeName(j) + "' object is not a mapping")
  }

  function StepFormatError(i: nat): string {
    "Invalid format for step " + NatToString(i + 1) + ". Each step must be a dict with 'tool_name' and 'parameters'."
  }

  function ParametersError(i: nat, name: Json): string {
    "Invalid 'parameters' format for step " + NatToString(i + 1) + " ('" + Str(name) + "'). Must be a dictionary."
  }

  // ------------------------------------------------------------ step entries

  /** The entry recorded for a malformed step. */
  function ErrorEntry(i: nat, name: Json, message: string): (r: Json)
    ensures r.JObj? && r.fields.Keys == {"step", "tool_name", "status", "error"}
    ensures r.fields["step"] == JInt(i + 1) && r.fields["tool_name"] == name
    ensures r.fields["status"] == JStr("error") && r.fields["error"] == JStr(message)
  {
    JObj(map["step" := JInt(i + 1), "tool_name" := name, "status" := JStr("error"), "error" := JStr(message)])
  }

  /** The entry recorded for an executed step: the step number and tool name,
      then the outcome's own keys, which take precedence. */
  function OutcomeEntry(i: nat, name: Json, outcome: Obj): (r: Json)
    ensures r.JObj? && r.fields.Keys == outcome.Keys + {"step", "tool_name"}
    ensures forall k :: k in outcome ==> r.fields[k] == outcome[k]
    ensures "step" !in outcome ==> r.fields["step"] == JInt(i + 1)
    ensures "tool_name" !in outcome ==> r.fields["tool_name"] == name
  {
    JObj(map["step" := JInt(i + 1), "tool_name" := name] + outcome)
  }

  /** A step's entry, and whether the step was well formed. */
  datatype Entry = Entry(value: Json, wellFormed: bool)

  /** One iteration of the loop over the steps, for the step at index `i`. */
  function StepResult(i: nat, step: Json, tools: map<string, Tool>, order: seq<string>,
                      run: (Tool, Obj) -> Outcome): (r: Result<Entry>)
    ensures !step.JObj? ==> r == Raised(NoGet(step))
    ensures r.Ok? ==> step.JObj? && r.value.value.JObj? &&
                      "step" in r.value.value.fields && "tool_name" in r.value.value.fields
    ensures r.Ok? ==> (r.value.wellFormed <==>
                        "tool_name" in step.fields && "parameters" in step.fields &&
                        step.fields["parameters"].JObj?)
    ensures r.Ok? && !r.value.wellFormed ==>
              "status" in r.value.value.fields && r.value.value.fields["status"] == JStr("error") &&
              r.value.value.fields["step"] == JInt(i + 1)
  {
    if !step.JObj? then Raised(NoGet(step))
    else if "tool_name" !in step.fields || "parameters" !in step.fields then
      Ok(Entry(ErrorEntry(i, Get(step.fields, "tool_name", JStr("unknown")), StepFormatError(i)), false))
    else
      var name := step.fields["tool_name"];
      var parameters := step.fields["parameters"];
      if !parameters.JObj? then Ok(Entry(ErrorEntry(i, name, ParametersError(i, name)), false))
      else if Rebinds(parameters.fields) then Raised(MultipleValues(parameters.fields))
      else if name.JList? || name.JObj? then Raised(Unhashable(name))
      else
        var outcome := if name.JStr? then ExecuteOn(tools, order, name.s, parameters.fields, run)
                       else NotFound(Str(name), order);
        if !outcome.JObj? then Raised(NotAMapping(outcome))
        else Ok(Entry(OutcomeEntry(i, name, outcome.fields), true))
  }

  /** The results of every step, in order. */
  function StepResults(steps: seq<Json>, tools: map<string, Tool>, order: seq<string>,
                       run: (Tool, Obj) -> Outcome): (r: seq<Result<Entry>>)
    ensures |r| == |steps|
    ensures forall i :: 0 <= i < |steps| ==> r[i] == StepResult(i, steps[i], tools, order, run)
  {
    seq(|steps|, i requires 0 <= i < |steps| => StepResult(i, steps[i], tools, order, run))
  }

  /** The loop over the step results: the entries so far and whether every
      step was well formed, or the exception of the first step that raised. */
  function Collect(results: seq<Result<Entry>>): (r: Result<(seq<Json>, bool)>)
    ensures r.Ok? ==> |r.value.0| == |results|
  {
    if results == [] then Ok(([], true))
    else
      var last := |results| - 1;
      match Collect(results[..last])
      case Raised(e) => Raised(e)
      case Ok(sofar) =>
        match results[last]
        case Raised(e) => Raised(e)
        case Ok(entry) => Ok((sofar.0 + [entry.value], sofar.1 && entry.wellFormed))
  }

  /** What `execute(steps)` returns or raises. */
  function PlanResult(steps: Json, tools: map<string, Tool>, order: seq<string>,
                      run: (Tool, Obj) -> Outcome): (r: Result<Json>)
  {
    if !Sized(steps) then Raised(NoLen(steps))
    else if !steps.JList? then Ok(ErrorResult(NotAList))
    else match Collect(StepResults(steps.items, tools, order, run))
      case Raised(e) => Raised(e)
      case Ok(p) => Ok(SuccessResult(JList(p.0), if p.1 then "success" else "partial_failure"))
  }

  /** One more step of the loop. */
  lemma CollectNext(results: seq<Result<Entry>>, i: nat)
    requires i < |results|
    ensures Collect(results[..i + 1]) ==
            match Collect(results[..i])
            case Raised(e) => Raised(e)
            case Ok(sofar) =>
              match results[i]
              case Raised(e) => Raised(e)
              case Ok(entry) => Ok((sofar.0 + [entry.value], sofar.1 && entry.wellFormed))
  {
    assert results[..i + 1][..i] == results[..i];
  }

  /** Once a step raises, the later steps are not run. */
  lemma {:induction false} CollectStops(results: seq<Result<Entry>>, k: nat)
    requires k <= |results| && Collect(results[..k]).Raised?
    ensures Collect(results) == Collect(results[..k])
    decreases |results| - k
  {
    if k < |results| {
      var next := results[..k + 1];
      assert next[..k] == results[..k];
      CollectStops(results, k + 1);
    } else {
      assert results[..k] == results;
    }
  }

  predicate AllOk(results: seq<Result<Entry>>) {
    forall i :: 0 <= i < |results| ==> results[i].Ok?
  }

  /** Collected entries are the steps' own entries, one per step and in
      order, and the flag says whether every step was well formed. */
  lemma {:induction false} CollectEntries(results: seq<Result<Entry>>)
    ensures Collect(results).Ok? <==> AllOk(results)
    ensures Collect(results).Ok? ==>
              (forall i :: 0 <= i < |results| ==> Collect(results).value.0[i] == results[i].value.value) &&
              (Collect(results).value.1 <==> forall i :: 0 <= i < |results| ==> results[i].value.wellFormed)
  {
    if results != [] {
      var last := |results| - 1;
      var init := results[..last];
      CollectEntries(init);
      assert forall i :: 0 <= i < last ==> init[i] == results[i];
    }
  }

  /** A failing collection carries the exception of its first raising step. */
  lemma {:induction false} CollectRaises(results: seq<Result<Entry>>)
    requires Collect(results).Raised?
    ensures exists i :: 0 <= i < |results| && AllOk(results[..i]) &&
                        results[i] == Raised(Collect(results).exc)
  {
    var last := |results| - 1;
    var init := results[..last];
    if Collect(init).Raised? {
      CollectRaises(init);
      var i :| 0 <= i < |init| && AllOk(init[..i]) && init[i] == Raised(Collect(init).exc);
      assert init[..i] == results[..i];
    } else {
      CollectEntries(init);
      assert init == results[..last];
    }
  }

  /** A list of steps yields one entry per step, in input order, each the
      step's own entry; the status is "success" exactly when every step was
      well formed, so a tool's own error leaves it unchanged. */
  lemma PlanEntries(items: seq<Json>, tools: map<string, Tool>, order: seq<string>,
                    run: (Tool, Obj) -> Outcome, r: Result<Json>)
    requires r == PlanResult(JList(items), tools, order, run)
    ensures r.Ok? <==> forall i :: 0 <= i < |items| ==> StepResult(i, items[i], tools, order, run).Ok?
    ensures r.Ok? ==> r.value.JObj? && r.value.fields["result"].JList? &&
                      var entries := r.value.fields["result"].items;
                      |entries| == |items| &&
                      (forall i :: 0 <= i < |items| ==> entries[i] == StepResult(i, items[i], tools, order, run).value.value) &&
                      (r.value.fields["status"] == JStr("success") <==>
                         forall i :: 0 <= i < |items| ==> StepResult(i, items[i], tools, order, run).value.wellFormed)
  {
    CollectEntries(StepResults(items, tools, order, run));
  }

  /** When a step raises, `execute` raises the exception of the first such
      step. */
  lemma PlanFirstRaise(items: seq<Json>, tools: map<string, Tool>, order: seq<string>,
                       run: (Tool, Obj) -> Outcome, r: Result<Json>)
    requires r == PlanResult(JList(items), tools, order, run)
    requires r.Raised?
    ensures exists i :: 0 <= i < |items| &&
                        (forall j :: 0 <= j < i ==> StepResult(j, items[j], tools, order, run).Ok?) &&
                        StepResult(i, items[i], tools, order, run) == Raised(r.exc)
  {
    var results := StepResults(items, tools, order, run);
    assert Collect(results) == Raised(r.exc);
    CollectRaises(results);
    var i :| 0 <= i < |results| && AllOk(results[..i]) && results[i] == Raised(r.exc);
    forall j | 0 <= j < i ensures StepResult(j, items[j], tools, order, run).Ok? {
      assert results[..i][j] == results[j];
    }
    assert StepResult(i, items[i], tools, order, run) == Raised(r.exc);
  }

  /** An empty plan succeeds with no entries; a value that is not a list is
      rejected (after `len` succeeded on it). */
  lemma PlanBoundaries(tools: map<string, Tool>, order: seq<string>, run: (Tool, Obj) -> Outcome, steps: Json)
    ensures PlanResult(JList([]), tools, order, run) == Ok(SuccessResult(JList([]), "success"))
    ensures steps.JStr? || steps.JObj? ==> PlanResult(steps, tools, order, run) == Ok(ErrorResult(NotAList))
    ensures !Sized(steps) ==> PlanResult(steps, tools, order, run).Raised?
  {
  }
}
