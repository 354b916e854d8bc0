/** The request and record schemas of odyssey/api/schemas.py. Each schema is
    a datatype, a validity predicate for its field constraints, and the
    validation that turns a request body (a JSON object) into the datatype
    or rejects it. A missing optional field takes its declared default; an
    explicit null gives None. */
module Schemas {
  import opened Common
  import opened Json
  import Memory

  // ------------------------------------------------------------ field readers

  /** A required string field of at least `minLen` characters. */
  function ReqStr(o: Obj, k: string, minLen: nat): (r: Option<string>)
    ensures r.Some? <==> k in o && o[k].JStr? && |o[k].s| >= minLen
    ensures r.Some? ==> r.value == o[k].s
  {
    if k in o && o[k].JStr? && |o[k].s| >= minLen then Some(o[k].s) else None
  }

  /** An optional string field: absent gives the default, null gives None. The
      outer None means the value has the wrong type. */
  function OptStrField(o: Obj, k: string, default: Option<string>): (r: Option<Option<string>>)
    ensures k !in o ==> r == Some(default)
    ensures k in o ==> (r.Some? <==> o[k].JNull? || o[k].JStr?)
    ensures k in o && o[k].JStr? ==> r == Some(Some(o[k].s))
    ensures k in o && o[k].JNull? ==> r == Some(None)
  {
    if k !in o then Some(default)
    else match o[k]
         case JNull => Some(None)
         case JStr(s) => Some(Some(s))
         case _ => None
  }

  // ------------------------------------------------------------ lax coercion

  predicate AllDigits(s: string) {
    forall i :: 0 <= i < |s| ==> IsDigit(s[i])
  }

  /** The value of a string of decimal digits. */
  function DigitsValue(s: string): nat
    requires AllDigits(s)
  {
    if s == [] then 0 else DigitsValue(s[..|s| - 1]) * 10 + (s[|s| - 1] as int - '0' as int)
  }

  /** Reading back the decimal rendering of a natural number gives the number. */
  lemma {:induction false} DigitsValueOfString(n: nat)
    ensures AllDigits(NatToString(n)) && DigitsValue(NatToString(n)) == n
  {
    if n >= 10 {
      var t := NatToString(n);
      assert t[..|t| - 1] == NatToString(n / 10);
      DigitsValueOfString(n / 10);
    }
  }

  /** The digits of an integer text: what follows an optional sign. */
  function SignedDigits(s: string): (d: string)
    ensures |d| <= |s|
  {
    if s != [] && (s[0] == '-' || s[0] == '+') then s[1..] else s
  }

  /** A string Pydantic reads as an integer: decimal digits after an optional
      sign. */
  predicate IsIntText(s: string) {
    SignedDigits(s) != [] && AllDigits(SignedDigits(s))
  }

  /** Pydantic's lax reading of an `int` field: an integer, a boolean as 1 or
      0, or an integer text; anything else is refused. */
  function LaxInt(j: Json): (r: Option<int>)
    ensures r.Some? <==> j.JInt? || j.JBool? || (j.JStr? && IsIntText(j.s))
    ensures j.JInt? ==> r == Some(j.i)
    ensures j.JBool? ==> r == Some(if j.b then 1 else 0)
    ensures j.JStr? && r.Some? && j.s[0] == '-' ==> r.value == -(DigitsValue(j.s[1..]) as int)
    ensures j.JStr? && r.Some? && j.s[0] != '-' ==> r.value == DigitsValue(SignedDigits(j.s))
  {
    match j
    case JInt(i) => Some(i)
    case JBool(b) => Some(if b then 1 else 0)
    case JStr(s) =>
      var d := SignedDigits(s);
      if d == [] || !AllDigits(d) then None
      else if s[0] == '-' then Some(-(DigitsValue(d) as int))
      else Some(DigitsValue(d))
    case _ => None
  }

  /** An integer sent as its decimal text is read back as itself. */
  lemma LaxIntOfText(i: int)
    ensures LaxInt(JStr(IntToString(i))) == Some(i)
  {
    var s := IntToString(i);
    if i < 0 {
      DigitsValueOfString(-i);
      assert s == "-" + NatToString(-i);
      assert SignedDigits(s) == NatToString(-i);
    } else {
      DigitsValueOfString(i);
      assert IsDigit(s[0]);
      assert SignedDigits(s) == s;
    }
  }

  /** The strings Pydantic reads as true and as false, in lower case. */
  const TrueWords: set<string> := {"1", "on", "t", "true", "y", "yes"}
  const FalseWords: set<string> := {"0", "off", "f", "false", "n", "no"}

  /** Pydantic's lax reading of a `bool` field: a boolean, the integer 0 or 1,
      or one of the true or false words in any letter case. */
  function LaxBool(j: Json): (r: Option<bool>)
    ensures r.Some? <==> || j.JBool?
                         || (j.JInt? && (j.i == 0 || j.i == 1))
                         || (j.JStr? && Lower(j.s) in TrueWords + FalseWords)
    ensures j.JBool? ==> r == Some(j.b)
    ensures j.JInt? && r.Some? ==> r.value == (j.i == 1)
    ensures j.JStr? && r.Some? ==> (r.value <==> Lower(j.s) in TrueWords)
  {
    match j
    case JBool(b) => Some(b)
    case JInt(i) => if i == 1 then Some(true) else if i == 0 then Some(false) else None
    case JStr(s) =>
      var w := Lower(s);
      if w in TrueWords then Some(true) else if w in FalseWords then Some(false) else None
    case _ => None
  }

  /** No word reads both ways, and the letter case of a word does not matter. */
  lemma LaxBoolWords(s: string)
    ensures TrueWords * FalseWords == {}
    ensures LaxBool(JStr(s)) == LaxBool(JStr(Lower(s)))
    ensures LaxBool(JStr(Upper(s))) == LaxBool(JStr(s))
  {
    LowerIdempotent(s);
    LowerOfUpper(s);
  }

  /** An optional integer field: absent gives the default, null gives None,
      and a value is read laxly. The outer None means the value is refused. */
  function OptIntField(o: Obj, k: string, default: Option<int>): (r: Option<Option<int>>)
    ensures k !in o ==> r == Some(default)
    ensures k in o ==> (r.Some? <==> o[k].JNull? || LaxInt(o[k]).Some?)
    ensures k in o && o[k].JNull? ==> r == Some(None)
    ensures k in o && LaxInt(o[k]).Some? ==> r == Some(LaxInt(o[k]))
  {
    if k !in o then Some(default)
    else if o[k].JNull? then Some(None)
    else match LaxInt(o[k])
         case None => None
         case Some(i) => Some(Some(i))
  }

  /** An optional boolean field, read as `OptIntField` reads an integer. */
  function OptBoolField(o: Obj, k: string, default: Option<bool>): (r: Option<Option<bool>>)
    ensures k !in o ==> r == Some(default)
    ensures k in o ==> (r.Some? <==> o[k].JNull? || LaxBool(o[k]).Some?)
    ensures k in o && o[k].JNull? ==> r == Some(None)
    ensures k in o && LaxBool(o[k]).Some? ==> r == Some(LaxBool(o[k]))
  {
    if k !in o then Some(default)
    else if o[k].JNull? then Some(None)
    else match LaxBool(o[k])
         case None => None
         case Some(b) => Some(Some(b))
  }

  function OptObjField(o: Obj, k: string): (r: Option<Option<Obj>>)
    ensures k !in o ==> r == Some(None)
    ensures k in o ==> (r.Some? <==> o[k].JNull? || o[k].JObj?)
    ensures k in o && o[k].JObj? ==> r == Some(Some(o[k].fields))
  {
    if k !in o then Some(None)
    else match o[k]
         case JNull => Some(None)
         case JObj(f) => Some(Some(f))
         case _ => None
  }

  /** A JSON list of strings. */
  function StrList(items: seq<Json>): (r: Option<seq<string>>)
    ensures r.Some? <==> forall i :: 0 <= i < |items| ==> items[i].JStr?
    ensures r.Some? ==> |r.value| == |items| && forall i :: 0 <= i < |items| ==> r.value[i] == items[i].s
  {
    if forall i :: 0 <= i < |items| ==> items[i].JStr?
    then Some(seq(|items|, i requires 0 <= i < |items| => items[i].s))
    else None
  }

  /** A dict of string to string. */
  function StrMap(o: Obj): (r: Option<map<string, string>>)
    ensures r.Some? <==> forall k :: k in o ==> o[k].JStr?
    ensures r.Some? ==> r.value.Keys == o.Keys && forall k :: k in o ==> r.value[k] == o[k].s
  {
    if forall k :: k in o ==> o[k].JStr? then Some(map k | k in o :: o[k].s) else None
  }

  // ------------------------------------------------------------ task, plan, log

  datatype TaskCreate = TaskCreate(description: string)
  datatype PlanCreate = PlanCreate(details: string)
  datatype LogCreate = LogCreate(message: string, level: string)

  /** `TaskCreateRequest`: a non-empty description. */
  function ParseTaskCreate(o: Obj): (r: Option<TaskCreate>)
    ensures r.Some? <==> "description" in o && o["description"].JStr? && o["description"].s != ""
    ensures r.Some? ==> r.value.description == o["description"].s
  {
    match ReqStr(o, "description", 1)
    case None => None
    case Some(d) => Some(TaskCreate(d))
  }

  /** `PlanCreateRequest`: non-empty details. */
  function ParsePlanCreate(o: Obj): (r: Option<PlanCreate>)
    ensures r.Some? <==> "details" in o && o["details"].JStr? && o["details"].s != ""
    ensures r.Some? ==> r.value.details == o["details"].s
  {
    match ReqStr(o, "details", 1)
    case None => None
    case Some(d) => Some(PlanCreate(d))
  }

  /** `LogCreateRequest`: a non-empty message; the level defaults to INFO. */
  function ParseLogCreate(o: Obj): (r: Option<LogCreate>)
    ensures r.Some? ==> r.value.message != "" && ReqStr(o, "message", 1) == Some(r.value.message)
    ensures r.Some? && "level" !in o ==> r.value.level == "INFO"
    ensures r.Some? <==> ReqStr(o, "message", 1).Some? && ("level" !in o || o["level"].JStr?)
  {
    match ReqStr(o, "message", 1)
    case None => None
    case Some(m) =>
      if "level" !in o then Some(LogCreate(m, "INFO"))
      else if o["level"].JStr? then Some(LogCreate(m, o["level"].s))
      else None
  }

  // ------------------------------------------------------------ agent configuration

  datatype AgentConfig = AgentConfig(
    llmModelLocal: Option<string>,
    llmModelRemote: Option<string>,
    maxIterations: Option<int>,
    selfHealingEnabled: Option<bool>,
    pluginsEnabled: Option<seq<string>>)

  /** The configuration an empty request body yields. */
  const DefaultAgentConfig := AgentConfig(Some("phi3"), None, Some(10), Some(true), Some(["file_ops"]))

  /** An optional list-of-strings field: absent gives the default, null gives
      None, a list of strings is kept, anything else is refused. */
  function OptStrListField(o: Obj, k: string, default: Option<seq<string>>): (r: Option<Option<seq<string>>>)
    ensures k !in o ==> r == Some(default)
    ensures k in o ==> (r.Some? <==> o[k].JNull? || (o[k].JList? && StrList(o[k].items).Some?))
    ensures k in o && o[k].JNull? ==> r == Some(None)
    ensures k in o && o[k].JList? && StrList(o[k].items).Some? ==> r == Some(StrList(o[k].items))
  {
    if k !in o then Some(default)
    else match o[k]
         case JNull => Some(None)
         case JList(items) => (match StrList(items) case None => None case Some(l) => Some(Some(l)))
         case _ => None
  }

  /** `AgentConfig`: every field is optional with a default and carries no
      constraint, so a body is accepted exactly when each field it holds reads
      as its type. */
  function ParseAgentConfig(o: Obj): (r: Option<AgentConfig>)
    ensures o == map[] ==> r == Some(DefaultAgentConfig)
    ensures r.Some? <==> && OptStrField(o, "llm_model_local", Some("phi3")).Some?
                         && OptStrField(o, "llm_model_remote", None).Some?
                         && OptIntField(o, "max_iterations", Some(10)).Some?
                         && OptBoolField(o, "self_healing_enabled", Some(true)).Some?
                         && OptStrListField(o, "plugins_enabled", Some(["file_ops"])).Some?
    ensures r.Some? ==> && Some(r.value.llmModelLocal) == OptStrField(o, "llm_model_local", Some("phi3"))
                        && Some(r.value.llmModelRemote) == OptStrField(o, "llm_model_remote", None)
                        && Some(r.value.maxIterations) == OptIntField(o, "max_iterations", Some(10))
                        && Some(r.value.selfHealingEnabled) == OptBoolField(o, "self_healing_enabled", Some(true))
                        && Some(r.value.pluginsEnabled) == OptStrListField(o, "plugins_enabled", Some(["file_ops"]))
  {
    var local := OptStrField(o, "llm_model_local", Some("phi3"));
    var remote := OptStrField(o, "llm_model_remote", None);
    var maxIt := OptIntField(o, "max_iterations", Some(10));
    var healing := OptBoolField(o, "self_healing_enabled", Some(true));
    var plugins := OptStrListField(o, "plugins_enabled", Some(["file_ops"]));
    if local.Some? && remote.Some? && maxIt.Some? && healing.Some? && plugins.Some?
    then Some(AgentConfig(local.value, remote.value, maxIt.value, healing.value, plugins.value))
    else None
  }

  function OptStrJson(v: Option<string>): Json {
    if v.Some? then JStr(v.value) else JNull
  }

  function OptIntJson(v: Option<int>): Json {
    if v.Some? then JInt(v.value) else JNull
  }

  function OptBoolJson(v: Option<bool>): Json {
    if v.Some? then JBool(v.value) else JNull
  }

  function OptObjJson(v: Option<Obj>): Json {
    if v.Some? then JObj(v.value) else JNull
  }

  function AgentConfigObj(c: AgentConfig): Obj {
    map["llm_model_local" := OptStrJson(c.llmModelLocal),
        "llm_model_remote" := OptStrJson(c.llmModelRemote),
        "max_iterations" := OptIntJson(c.maxIterations),
        "self_healing_enabled" := OptBoolJson(c.selfHealingEnabled),
        "plugins_enabled" := (if c.pluginsEnabled.Some? then JList(StrJsons(c.pluginsEnabled.value)) else JNull)]
  }

  function StrJsons(l: seq<string>): (r: seq<Json>)
    ensures |r| == |l| && forall i :: 0 <= i < |l| ==> r[i] == JStr(l[i])
  {
    seq(|l|, i requires 0 <= i < |l| => JStr(l[i]))
  }

  /** Every configuration survives serialisation and validation unchanged. */
  lemma AgentConfigRoundTrip(c: AgentConfig)
    ensures ParseAgentConfig(AgentConfigObj(c)) == Some(c)
  {
    var o := AgentConfigObj(c);
    assert OptStrField(o, "llm_model_local", Some("phi3")) == Some(c.llmModelLocal);
    assert OptStrField(o, "llm_model_remote", None) == Some(c.llmModelRemote);
    assert OptIntField(o, "max_iterations", Some(10)) == Some(c.maxIterations);
    assert OptBoolField(o, "self_healing_enabled", Some(true)) == Some(c.selfHealingEnabled);
    if c.pluginsEnabled.Some? {
      assert StrList(StrJsons(c.pluginsEnabled.value)).value == c.pluginsEnabled.value;
    }
    assert OptStrListField(o, "plugins_enabled", Some(["file_ops"])) == Some(c.pluginsEnabled);
  }

  // ------------------------------------------------------------ LLM, celery, semantic memory

  datatype LLMAsk = LLMAsk(prompt: string, model: Option<string>, safe: Option<bool>, stream: Option<bool>,
                           systemPrompt: Option<string>, options: Option<Obj>)

  /** `LLMAskRequest`: a non-empty prompt; model "auto", safe and not streamed
      by default; every other field optional and unconstrained. */
  function ParseLLMAsk(o: Obj): (r: Option<LLMAsk>)
    ensures r.Some? <==> && ReqStr(o, "prompt", 1).Some?
                         && OptStrField(o, "model", Some("auto")).Some?
                         && OptBoolField(o, "safe", Some(true)).Some?
                         && OptBoolField(o, "stream", Some(false)).Some?
                         && OptStrField(o, "system_prompt", None).Some?
                         && OptObjField(o, "options").Some?
    ensures r.Some? ==> && r.value.prompt != "" && ReqStr(o, "prompt", 1) == Some(r.value.prompt)
                        && Some(r.value.model) == OptStrField(o, "model", Some("auto"))
                        && Some(r.value.safe) == OptBoolField(o, "safe", Some(true))
                        && Some(r.value.stream) == OptBoolField(o, "stream", Some(false))
                        && Some(r.value.systemPrompt) == OptStrField(o, "system_prompt", None)
                        && Some(r.value.options) == OptObjField(o, "options")
    ensures r.Some? && "model" !in o ==> r.value.model == Some("auto")
    ensures r.Some? && "safe" !in o ==> r.value.safe == Some(true)
    ensures r.Some? && "stream" !in o ==> r.value.stream == Some(false)
  {
    var prompt := ReqStr(o, "prompt", 1);
    var model := OptStrField(o, "model", Some("auto"));
    var safe := OptBoolField(o, "safe", Some(true));
    var stream := OptBoolField(o, "stream", Some(false));
    var system := OptStrField(o, "system_prompt", None);
    var options := OptObjField(o, "options");
    if prompt.Some? && model.Some? && safe.Some? && stream.Some? && system.Some? && options.Some?
    then Some(LLMAsk(prompt.value, model.value, safe.value, stream.value, system.value, options.value))
    else None
  }

  function LLMAskObj(q: LLMAsk): Obj {
    map["prompt" := JStr(q.prompt), "model" := OptStrJson(q.model), "safe" := OptBoolJson(q.safe),
        "stream" := OptBoolJson(q.stream), "system_prompt" := OptStrJson(q.systemPrompt),
        "options" := OptObjJson(q.options)]
  }

  /** A request with a non-empty prompt survives serialisation and validation
      unchanged. */
  lemma LLMAskRoundTrip(q: LLMAsk)
    requires q.prompt != ""
    ensures ParseLLMAsk(LLMAskObj(q)) == Some(q)
  {
    var o := LLMAskObj(q);
    assert ReqStr(o, "prompt", 1) == Some(q.prompt);
    assert OptStrField(o, "model", Some("auto")) == Some(q.model);
    assert OptBoolField(o, "safe", Some(true)) == Some(q.safe);
    assert OptBoolField(o, "stream", Some(false)) == Some(q.stream);
    assert OptStrField(o, "system_prompt", None) == Some(q.systemPrompt);
    assert OptObjField(o, "options") == Some(q.options);
  }

  datatype SimulateLongTask = SimulateLongTask(durationSeconds: int, message: Option<string>)

  /** `SimulateLongTaskRequest`: a required integer duration of at least one
      second; the message defaults to "Simulating work". */
  function ParseSimulateLongTask(o: Obj): (r: Option<SimulateLongTask>)
    ensures r.Some? <==> && "duration_seconds" in o && LaxInt(o["duration_seconds"]).Some?
                         && LaxInt(o["duration_seconds"]).value >= 1
                         && OptStrField(o, "message", Some("Simulating work")).Some?
    ensures r.Some? ==> && r.value.durationSeconds >= 1
                        && LaxInt(o["duration_seconds"]) == Some(r.value.durationSeconds)
                        && OptStrField(o, "message", Some("Simulating work")) == Some(r.value.message)
    ensures r.Some? && "message" !in o ==> r.value.message == Some("Simulating work")
  {
    if "duration_seconds" in o && LaxInt(o["duration_seconds"]).Some? && LaxInt(o["duration_seconds"]).value >= 1 then
      match OptStrField(o, "message", Some("Simulating work"))
      case None => None
      case Some(m) => Some(SimulateLongTask(LaxInt(o["duration_seconds"]).value, m))
    else None
  }

  function SimulateLongTaskObj(t: SimulateLongTask): Obj {
    map["duration_seconds" := JInt(t.durationSeconds), "message" := OptStrJson(t.message)]
  }

  /** A request of at least one second survives serialisation and validation
      unchanged. */
  lemma SimulateLongTaskRoundTrip(t: SimulateLongTask)
    requires t.durationSeconds >= 1
    ensures ParseSimulateLongTask(SimulateLongTaskObj(t)) == Some(t)
  {
    var o := SimulateLongTaskObj(t);
    assert LaxInt(o["duration_seconds"]) == Some(t.durationSeconds);
    assert OptStrField(o, "message", Some("Simulating work")) == Some(t.message);
  }

  datatype SemanticAdd = SemanticAdd(text: string, metadata: Obj, id: Option<string>)

  /** `SemanticAddRequest`: non-empty text; the metadata is a dict that
      defaults to an empty one (null is refused); the id is optional. */
  function ParseSemanticAdd(o: Obj): (r: Option<SemanticAdd>)
    ensures r.Some? <==> && ReqStr(o, "text", 1).Some?
                         && ("metadata" !in o || o["metadata"].JObj?)
                         && OptStrField(o, "id", None).Some?
    ensures r.Some? ==> && r.value.text != "" && ReqStr(o, "text", 1) == Some(r.value.text)
                        && r.value.metadata == (if "metadata" in o then o["metadata"].fields else map[])
                        && OptStrField(o, "id", None) == Some(r.value.id)
  {
    var text := ReqStr(o, "text", 1);
    var meta := if "metadata" !in o then Some(map[]) else if o["metadata"].JObj? then Some(o["metadata"].fields) else None;
    var id := OptStrField(o, "id", None);
    if text.Some? && meta.Some? && id.Some? then Some(SemanticAdd(text.value, meta.value, id.value)) else None
  }

  function SemanticAddObj(a: SemanticAdd): Obj {
    map["text" := JStr(a.text), "metadata" := JObj(a.metadata), "id" := OptStrJson(a.id)]
  }

  /** A request with non-empty text survives serialisation and validation
      unchanged. */
  lemma SemanticAddRoundTrip(a: SemanticAdd)
    requires a.text != ""
    ensures ParseSemanticAdd(SemanticAddObj(a)) == Some(a)
  {
    var o := SemanticAddObj(a);
    assert ReqStr(o, "text", 1) == Some(a.text);
    assert OptStrField(o, "id", None) == Some(a.id);
  }

  datatype SemanticQuery = SemanticQuery(queryText: string, topK: Option<int>, metadataFilter: Option<Obj>)

  predicate ValidSemanticQuery(q: SemanticQuery) {
    q.queryText != "" && (q.topK.Some? ==> q.topK.value > 0)
  }

  function SemanticQueryObj(q: SemanticQuery): Obj {
    map["query_text" := JStr(q.queryText),
        "top_k" := OptIntJson(q.topK),
        "metadata_filter" := OptObjJson(q.metadataFilter)]
  }

  /** `SemanticQueryRequest`: non-empty query text; top_k is 5 by default and
      positive when given (null is allowed); the filter is an optional dict. */
  function ParseSemanticQuery(o: Obj): (r: Option<SemanticQuery>)
    ensures r.Some? <==> && ReqStr(o, "query_text", 1).Some?
                         && OptIntField(o, "top_k", Some(5)).Some?
                         && (OptIntField(o, "top_k", Some(5)).value.Some? ==> OptIntField(o, "top_k", Some(5)).value.value > 0)
                         && OptObjField(o, "metadata_filter").Some?
    ensures r.Some? ==> && ValidSemanticQuery(r.value) && ReqStr(o, "query_text", 1) == Some(r.value.queryText)
                        && OptIntField(o, "top_k", Some(5)) == Some(r.value.topK)
                        && OptObjField(o, "metadata_filter") == Some(r.value.metadataFilter)
    ensures r.Some? && "top_k" !in o ==> r.value.topK == Some(5)
    ensures "top_k" in o && LaxInt(o["top_k"]).Some? && LaxInt(o["top_k"]).value <= 0 ==> r.None?
  {
    var text := ReqStr(o, "query_text", 1);
    var topK := OptIntField(o, "top_k", Some(5));
    var filter := OptObjField(o, "metadata_filter");
    if text.Some? && topK.Some? && (topK.value.Some? ==> topK.value.value > 0) && filter.Some?
    then Some(SemanticQuery(text.value, topK.value, filter.value))
    else None
  }

  /** A valid query survives serialisation and validation unchanged. */
  lemma SemanticQueryRoundTrip(q: SemanticQuery)
    requires ValidSemanticQuery(q)
    ensures ParseSemanticQuery(SemanticQueryObj(q)) == Some(q)
  {
    var o := SemanticQueryObj(q);
    assert o["query_text"] == JStr(q.queryText);
    assert OptIntField(o, "top_k", Some(5)) == Some(q.topK);
    assert OptObjField(o, "metadata_filter") == Some(q.metadataFilter);
  }

  // ------------------------------------------------------------ self modification

  datatype ProposeChange = ProposeChange(filesContent: map<string, string>, commitMessage: string,
                                         branchPrefix: Option<string>)

  predicate ValidProposeChange(p: ProposeChange) {
    |p.commitMessage| >= 5
  }

  function ProposeChangeObj(p: ProposeChange): Obj {
    map["files_content" := JObj(map k | k in p.filesContent :: JStr(p.filesContent[k])),
        "commit_message" := JStr(p.commitMessage),
        "branch_prefix" := (if p.branchPrefix.Some? then JStr(p.branchPrefix.value) else JNull)]
  }

  /** `ProposeChangeRequestSchema`: a dict of file contents, a commit message
      of at least five characters and an optional branch prefix. */
  function ParseProposeChange(o: Obj): (r: Option<ProposeChange>)
    ensures r.Some? ==> ValidProposeChange(r.value) && ReqStr(o, "commit_message", 5) == Some(r.value.commitMessage)
    ensures r.Some? <==> && "files_content" in o && o["files_content"].JObj?
                         && StrMap(o["files_content"].fields).Some?
                         && ReqStr(o, "commit_message", 5).Some?
                         && OptStrField(o, "branch_prefix", None).Some?
    ensures r.Some? && "branch_prefix" !in o ==> r.value.branchPrefix.None?
  {
    if "files_content" in o && o["files_content"].JObj? then
      var files := StrMap(o["files_content"].fields);
      var cm := ReqStr(o, "commit_message", 5);
      var prefix := OptStrField(o, "branch_prefix", None);
      if files.Some? && cm.Some? && prefix.Some? then Some(ProposeChange(files.value, cm.value, prefix.value))
      else None
    else None
  }

  /** A valid request survives serialisation and validation unchanged. */
  lemma ProposeChangeRoundTrip(p: ProposeChange)
    requires ValidProposeChange(p)
    ensures ParseProposeChange(ProposeChangeObj(p)) == Some(p)
  {
    var o := ProposeChangeObj(p);
    var f := o["files_content"].fields;
    assert StrMap(f).value == p.filesContent;
    assert OptStrField(o, "branch_prefix", None) == Some(p.branchPrefix);
  }

  /** `ProposalResponseSchema` */
  datatype ProposalResponse = ProposalResponse(proposalId: string, branchName: string, status: string,
                                               message: Option<string>)

  /** The columns of `self_modification_log`, which are exactly the fields of
      `ProposalStatusResponseSchema`. */
  const ProposalColumns: set<string> := {"proposal_id", "branch_name", "commit_message", "status",
                                          "validation_output", "created_at", "updated_at", "approved_by"}

  /** `get_proposal_log`'s row as a dict. */
  function ProposalStatusObj(p: Memory.Proposal): (r: Obj)
    ensures r.Keys == ProposalColumns
    ensures r["validation_output"] == OptStr(p.validationOutput)
    ensures r["approved_by"] == OptStr(p.approvedBy)
  {
    map["proposal_id" := JStr(p.proposalId), "branch_name" := JStr(p.branchName),
        "commit_message" := JStr(p.commitMessage), "status" := JStr(p.status),
        "validation_output" := OptStr(p.validationOutput),
        "created_at" := JInt(p.createdAt), "updated_at" := JInt(p.updatedAt),
        "approved_by" := OptStr(p.approvedBy)]
  }

  /** `ProposalStatusResponseSchema(**row)`: four required strings, two
      timestamps and two nullable strings. */
  function ParseProposalStatus(o: Obj): (r: Option<Memory.Proposal>)
    ensures r.Some? ==> forall k :: k in ProposalColumns - {"validation_output", "approved_by"} ==> k in o
  {
    var id := ReqStr(o, "proposal_id", 0);
    var branch := ReqStr(o, "branch_name", 0);
    var cm := ReqStr(o, "commit_message", 0);
    var status := ReqStr(o, "status", 0);
    var vo := OptStrField(o, "validation_output", None);
    var ab := OptStrField(o, "approved_by", None);
    if && id.Some? && branch.Some? && cm.Some? && status.Some? && vo.Some? && ab.Some?
       && "created_at" in o && o["created_at"].JInt? && o["created_at"].i >= 0
       && "updated_at" in o && o["updated_at"].JInt? && o["updated_at"].i >= 0
    then Some(Memory.Proposal(id.value, branch.value, cm.value, status.value, vo.value,
                              o["created_at"].i, o["updated_at"].i, ab.value))
    else None
  }

  /** Every stored record reads back as the response schema unchanged. */
  lemma ProposalStatusRoundTrip(p: Memory.Proposal)
    ensures ParseProposalStatus(ProposalStatusObj(p)) == Some(p)
  {
    var o := ProposalStatusObj(p);
    assert OptStrField(o, "validation_output", None) == Some(p.validationOutput);
    assert OptStrField(o, "approved_by", None) == Some(p.approvedBy);
  }
}
