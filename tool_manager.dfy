/** The tool registry of odyssey/agent/tool_manager.py: `ToolInterface`'s
    identity check, and `ToolManager`, which keys tool instances by name,
    executes them, reports their schemas and selects the constructor
    dependencies of discovered plugin classes.

    A tool instance is a value: its class name, the `name` and `description`
    attributes, and what its `get_schema()` does. What a tool's `execute` does
    with given keyword arguments is a parameter `run` of the operations that
    call it. */
module ToolManagement {
  import opened Common
  import opened Json

  /** What `get_schema()` of a tool returns or raises. */
  datatype Tool = Tool(className: string, name: string, description: string, schema: Result<Json>)

  /** The object handed to `register`: a ToolInterface instance or something else. */
  datatype Candidate = NotATool | Instance(tool: Tool)

  /** What a tool's `execute(**kwargs)` does. */
  datatype Outcome = Returned(value: Json) | Threw(exc: Exc)

  /** The core services a ToolManager can inject, keyed by parameter name. */
  datatype Service = MemoryService | OllamaService | CeleryService | SettingsService | ManagerService

  /** A parameter of a plugin class's `__init__`, as `inspect.signature` reports it. */
  datatype Param = Param(name: string, hasDefault: bool)

  // ------------------------------------------------------------ ToolInterface

  /** `ToolInterface.__init__`: None when the instance may be created, the
      NotImplementedError otherwise. A missing attribute and an empty one
      are treated alike. */
  function ToolInterfaceInit(className: string, name: Option<string>, description: Option<string>): (r: Option<Exc>)
    ensures r.None? <==> TruthyStr(name) && TruthyStr(description)
    ensures !TruthyStr(name) ==>
              r == Some(Exc("NotImplementedError", "Tool class " + className + " must define a 'name' attribute."))
    ensures TruthyStr(name) && !TruthyStr(description) ==>
              r == Some(Exc("NotImplementedError", "Tool class " + className + " must define a 'description' attribute."))
  {
    if !TruthyStr(name) then
      Some(Exc("NotImplementedError", "Tool class " + className + " must define a 'name' attribute."))
    else if !TruthyStr(description) then
      Some(Exc("NotImplementedError", "Tool class " + className + " must define a 'description' attribute."))
    else None
  }

  /** The schema the base class's `get_schema` returns: no parameters. */
  function DefaultSchema(name: string, description: string): (r: Json)
    ensures r.JObj? && r.fields.Keys == {"name", "description", "parameters"}
  {
    JObj(map["name" := JStr(name),
             "description" := JStr(description),
             "parameters" := JObj(map["type" := JStr("object"),
                                      "properties" := JObj(map[]),
                                      "required" := JList([])])])
  }

  /** The structural check `register` applies to a schema: a dict with a
      truthy "name", a truthy "description" and a "parameters" key. Any other
      value, and a raising `get_schema`, fail the check. */
  predicate SchemaOk(s: Result<Json>) {
    s.Ok? && s.value.JObj? &&
    Truthy(Get(s.value.fields, "name", JNull)) &&
    Truthy(Get(s.value.fields, "description", JNull)) &&
    "parameters" in s.value.fields
  }

  predicate Registrable(c: Candidate) {
    c.Instance? && SchemaOk(c.tool.schema)
  }

  /** A tool that passed `ToolInterface.__init__` and keeps the default
      schema is accepted by `register`. */
  lemma DefaultSchemaRegistrable(className: string, name: Option<string>, description: Option<string>)
    requires ToolInterfaceInit(className, name, description).None?
    ensures Registrable(Instance(Tool(className, name.value, description.value,
                                      Ok(DefaultSchema(name.value, description.value)))))
  {
    var f := DefaultSchema(name.value, description.value).fields;
    assert f["name"] == JStr(name.value) && f["description"] == JStr(description.value);
  }

  // ----------------------------------------------------------------- execute

  /** The names of a list, as a JSON list of strings. */
  function Names(names: seq<string>): (r: Json)
    ensures r.JList? && |r.items| == |names|
    ensures forall i :: 0 <= i < |names| ==> r.items[i] == JStr(names[i])
  {
    JList(seq(|names|, i requires 0 <= i < |names| => JStr(names[i])))
  }

  /** The result of `execute` for a name that is not registered; an empty
      registry is reported as the string "None". */
  function NotFound(name: string, available: seq<string>): (r: Json)
    ensures r.JObj? && r.fields.Keys == {"error", "message", "available_tools"}
    ensures r.fields["error"] == JBool(true)
    ensures r.fields["message"] == JStr("Tool '" + name + "' not found.")
    ensures available == [] <==> r.fields["available_tools"] == JStr("None")
  {
    JObj(map["error" := JBool(true),
             "message" := JStr("Tool '" + name + "' not found."),
             "available_tools" := if available == [] then JStr("None") else Names(available)])
  }

  /** The result of `execute` when the tool raised `e`. */
  function Failure(name: string, e: Exc): (r: Json)
    ensures r.JObj? && r.fields.Keys == {"error", "message", "details"}
    ensures r.fields["error"] == JBool(true)
    ensures r.fields["details"] == JStr(e.kind + ": " + e.msg)
  {
    JObj(map["error" := JBool(true),
             "message" := JStr("Error during execution of tool '" + name + "'"),
             "details" := JStr(e.kind + ": " + e.msg)])
  }

  /** `ToolManager.execute` over a registry and its key order. */
  function ExecuteOn(tools: map<string, Tool>, order: seq<string>, name: string, kwargs: Obj,
                     run: (Tool, Obj) -> Outcome): (r: Json)
  {
    if name !in tools then NotFound(name, order)
    else match run(tools[name], kwargs)
      case Returned(v) => v
      case Threw(e) => Failure(name, e)
  }

  /** `execute` returns a registered tool's result unchanged, turns its
      exception into an error dict, and answers an unknown name with the
      registered names; these are the only three cases. */
  lemma ExecuteCases(tools: map<string, Tool>, order: seq<string>, name: string, kwargs: Obj,
                     run: (Tool, Obj) -> Outcome, r: Json)
    requires r == ExecuteOn(tools, order, name, kwargs, run)
    ensures name !in tools ==> r == NotFound(name, order)
    ensures name in tools && run(tools[name], kwargs).Returned? ==> r == run(tools[name], kwargs).value
    ensures name in tools && run(tools[name], kwargs).Threw? ==> r == Failure(name, run(tools[name], kwargs).exc)
    ensures r.JObj? && "available_tools" in r.fields ==>
              name !in tools || (run(tools[name], kwargs).Returned? && r == run(tools[name], kwargs).value)
  {
  }

  // ---------------------------------------------------- dependency selection

  /** A parameter that makes discovery skip the class: not `self`, not an
      offered dependency, and without a default. */
  predicate Unmet(p: Param, available: map<string, Service>) {
    p.name != "self" && p.name !in available && !p.hasDefault
  }

  predicate Missing(params: seq<Param>, available: map<string, Service>) {
    exists i :: 0 <= i < |params| && Unmet(params[i], available)
  }

  predicate Declares(params: seq<Param>, n: string) {
    exists q :: q in params && q.name == n
  }

  /** The keyword arguments discovery passes: every offered dependency the
      constructor declares, under its own name. */
  function Injected(params: seq<Param>, available: map<string, Service>): (r: map<string, Service>)
    ensures r.Keys <= available.Keys
  {
    map n | n in available && n != "self" && Declares(params, n) :: available[n]
  }

  /** The selection loop of `discover_and_register_plugins`: None when the
      class is skipped, otherwise the dependencies to inject. */
  method SelectDependencies(params: seq<Param>, available: map<string, Service>) returns (deps: Option<map<string, Service>>)
    ensures deps.None? <==> Missing(params, available)
    ensures deps.Some? ==> deps.value == Injected(params, available)
  {
    var chosen: map<string, Service> := map[];
    var i := 0;
    while i < |params|
      invariant i <= |params|
      invariant !Missing(params[..i], available)
      invariant chosen == Injected(params[..i], available)
    {
      var p := params[i];
      assert params[..i + 1] == params[..i] + [p];
      if p.name == "self" {
      } else if p.name in available {
        chosen := chosen[p.name := available[p.name]];
      } else if !p.hasDefault {
        assert Unmet(params[i], available);
        return None;
      }
      forall n ensures Declares(params[..i + 1], n) <==> Declares(params[..i], n) || n == p.name {
        if Declares(params[..i + 1], n) {
          var q :| q in params[..i + 1] && q.name == n;
          assert q in params[..i] || q == p;
        }
        if Declares(params[..i], n) {
          var q :| q in params[..i] && q.name == n;
          assert q in params[..i + 1];
        }
        assert p in params[..i + 1];
      }
      var seen, next := params[..i], params[..i + 1];
      forall k | 0 <= k < |next| ensures !Unmet(next[k], available) {
        if k < i {
          assert seen[k] == next[k];
        }
      }
      i := i + 1;
    }
    assert params[..i] == params;
    deps := Some(chosen);
  }

  /** A constructor parameter with a default that the manager does not offer
      keeps its default: it is not injected, and it never causes a skip. */
  lemma DefaultsKept(params: seq<Param>, available: map<string, Service>, i: nat)
    requires i < |params| && params[i].hasDefault && params[i].name !in available
    ensures params[i].name !in Injected(params, available)
    ensures !Unmet(params[i], available)
  {
  }

  /** A class is skipped exactly when a required parameter is not offered:
      a constructor whose required parameters are all offered gets each of
      them injected. */
  lemma RequiredInjected(params: seq<Param>, available: map<string, Service>, i: nat)
    requires !Missing(params, available)
    requires i < |params| && params[i].name != "self" && !params[i].hasDefault
    ensures params[i].name in Injected(params, available)
    ensures Injected(params, available)[params[i].name] == available[params[i].name]
  {
    assert !Unmet(params[i], available);
    assert params[i] in params;
  }

  /** The offered dependencies: each supplied core service, and the manager
      itself. */
  function Offered(memory: bool, ollama: bool, celery: bool, settings: bool): (r: map<string, Service>)
    ensures "tool_manager" in r && r["tool_manager"] == ManagerService
    ensures ("memory_manager" in r <==> memory) && ("ollama_client" in r <==> ollama)
    ensures ("celery_app" in r <==> celery) && ("settings" in r <==> settings)
    ensures r.Keys <= {"memory_manager", "ollama_client", "celery_app", "settings", "tool_manager"}
    ensures forall n :: n in r && n != "tool_manager" ==> r[n] != ManagerService
  {
    var m0: map<string, Service> := map[];
    var m1 := if memory then m0["memory_manager" := MemoryService] else m0;
    var m2 := if ollama then m1["ollama_client" := OllamaService] else m1;
    var m3 := if celery then m2["celery_app" := CeleryService] else m2;
    var m4 := if settings then m3["settings" := SettingsService] else m3;
    m4["tool_manager" := ManagerService]
  }

  /** A plugin whose constructor asks for `tool_manager` always has it
      injected, whatever services were supplied. */
  lemma ManagerAlwaysInjected(params: seq<Param>, memory: bool, ollama: bool, celery: bool, settings: bool, i: nat)
    requires i < |params| && params[i].name == "tool_manager"
    ensures var available := Offered(memory, ollama, celery, settings);
            !Unmet(params[i], available) &&
            "tool_manager" in Injected(params, available) &&
            Injected(params, available)["tool_manager"] == ManagerService
  {
    assert params[i] in params;
  }

  // --------------------------------------------------------------- registry

  class ToolManager {
    /** The registry, and its keys in insertion order (the order of
        `list(self.tools.keys())`). */
    var tools: map<string, Tool>
    var order: seq<string>
    /** `_available_dependencies`, fixed at construction. */
    const available: map<string, Service>

    /** Every registered tool is stored under its own instance name and
        passed the schema check when it was registered. */
    ghost predicate Valid()
      reads this
    {
      Distinct(order) &&
      (forall n :: n in tools <==> n in order) &&
      (forall n :: n in tools ==> tools[n].name == n && SchemaOk(tools[n].schema))
    }

    /** `ToolManager(memory_manager, ollama_client, celery_app_instance,
        app_settings)`: each flag says whether that service was supplied (and
        is truthy). */
    constructor(memory: bool, ollama: bool, celery: bool, settings: bool)
      ensures Valid()
      ensures tools == map[] && order == []
      ensures available == Offered(memory, ollama, celery, settings)
    {
      tools := map[];
      order := [];
      available := Offered(memory, ollama, celery, settings);
    }

    /** `register(tool_instance)` */
    method Register(c: Candidate) returns (ok: bool)
      requires Valid()
      modifies this
      ensures Valid()
      ensures ok <==> Registrable(c)
      ensures ok ==> tools == old(tools)[c.tool.name := c.tool]
      ensures ok ==> order == if c.tool.name in old(tools) then old(order) else old(order) + [c.tool.name]
      ensures !ok ==> tools == old(tools) && order == old(order)
    {
      if !Registrable(c) {
        return false;
      }
      var t := c.tool;
      if t.name !in tools {
        order := order + [t.name];
      }
      tools := tools[t.name := t];
      ok := true;
    }

    /** `unregister(tool_name)` */
    method Unregister(name: string) returns (ok: bool)
      requires Valid()
      modifies this
      ensures Valid()
      ensures ok <==> name in old(tools)
      ensures tools == old(tools) - {name}
      ensures order == Without(old(order), name)
    {
      ok := name in tools;
      if ok {
        tools := tools - {name};
        order := Without(order, name);
      } else {
        WithoutAbsent(order, name);
      }
    }

    /** `list_tools()` */
    function ListTools(): (r: seq<string>)
      reads this
      requires Valid()
      ensures Distinct(r)
      ensures forall n :: n in r <==> n in tools
    {
      order
    }

    /** `execute(tool_name, **kwargs)` */
    function Execute(name: string, kwargs: Obj, run: (Tool, Obj) -> Outcome): (r: Json)
      reads this
    {
      ExecuteOn(tools, order, name, kwargs, run)
    }

    /** `get_tool_schema(tool_name)`: with a well-formed registry the schema
        of every registered tool is available. */
    function GetToolSchema(name: string): (r: Option<Json>)
      reads this
      requires Valid()
      ensures r.Some? <==> name in tools
      ensures r.Some? ==> r.value.JObj? && "parameters" in r.value.fields
    {
      if name in tools && tools[name].schema.Ok? then Some(tools[name].schema.value) else None
    }

    /** `get_all_tool_schemas()`: the schemas in registration order. */
    method GetAllToolSchemas() returns (schemas: seq<Json>)
      requires Valid()
      ensures |schemas| == |order|
      ensures forall i :: 0 <= i < |order| ==> Some(schemas[i]) == GetToolSchema(order[i])
    {
      schemas := [];
      var i := 0;
      while i < |order|
        invariant i <= |order|
        invariant |schemas| == i
        invariant forall k :: 0 <= k < i ==> Some(schemas[k]) == GetToolSchema(order[k])
      {
        schemas := schemas + [tools[order[i]].schema.value];
        i := i + 1;
      }
    }

    /** The dependency selection, instantiation and registration of one
        discovered class (lines 196-219): `construct` is what the class's
        constructor does with the injected keyword arguments. */
    method RegisterDiscovered(params: seq<Param>, construct: map<string, Service> -> Result<Candidate>)
      returns (registered: bool)
      requires Valid()
      modifies this
      ensures Valid()
      ensures registered <==> !Missing(params, available) &&
                              construct(Injected(params, available)).Ok? &&
                              Registrable(construct(Injected(params, available)).value)
      ensures !registered ==> tools == old(tools) && order == old(order)
      ensures registered ==> var t := construct(Injected(params, available)).value.tool;
                             tools == old(tools)[t.name := t]
    {
      var deps := SelectDependencies(params, available);
      if deps.None? {
        return false;
      }
      var made := construct(deps.value);
      if made.Raised? {
        return false;
      }
      registered := Register(made.value);
    }
  }

  /** The key order after `del self.tools[name]`. */
  function Without(s: seq<string>, x: string): (r: seq<string>)
    ensures forall y :: y in r <==> y in s && y != x
    ensures Distinct(s) ==> Distinct(r)
  {
    if s == [] then []
    else if s[0] == x then Without(s[1..], x)
    else
      assert Distinct(s) ==> s[0] !in s[1..];
      [s[0]] + Without(s[1..], x)
  }

  lemma {:induction false} WithoutAbsent(s: seq<string>, x: string)
    requires x !in s
    ensures Without(s, x) == s
  {
    if s != [] {
      WithoutAbsent(s[1..], x);
    }
  }

  /** Registering then executing a tool runs that tool; after unregistering
      it, the same call reports it missing. */
  lemma RegisterThenExecute(tools: map<string, Tool>, order: seq<string>, t: Tool, kwargs: Obj,
                            run: (Tool, Obj) -> Outcome)
    ensures ExecuteOn(tools[t.name := t], order, t.name, kwargs, run) ==
            (match run(t, kwargs) case Returned(v) => v case Threw(e) => Failure(t.name, e))
    ensures ExecuteOn(tools - {t.name}, Without(order, t.name), t.name, kwargs, run) ==
            NotFound(t.name, Without(order, t.name))
  {
  }
}
