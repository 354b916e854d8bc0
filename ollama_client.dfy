/** Routing in the Ollama client: the URLs it keeps, which instance and
    model serve a request, the result `ask` reports, and the text the
    streaming generator yields. HTTP requests are oracles. */
module OllamaClient {
  import opened Common

  /** One entry of an instance's `/api/tags` model list; `name` is None
      when the entry has no "name" key. */
  datatype ModelInfo = ModelInfo(name: Option<string>)

  datatype Client = Client(localUrl: string, remoteUrl: Option<string>, defaultModel: string,
                           requestTimeout: int, localModels: seq<ModelInfo>, remoteModels: seq<ModelInfo>)

  /** `_get_available_models`: `tags` is the model list the instance
      returned, None when the request failed or the reply had no list. */
  function AvailableModels(baseUrl: Option<string>, tags: Option<seq<ModelInfo>>): (r: seq<ModelInfo>)
    ensures !TruthyStr(baseUrl) || tags.None? ==> r == []
  {
    if TruthyStr(baseUrl) && tags.Some? then tags.value else []
  }

  /** `OllamaClient.__init__`; `localTags` and `remoteTags` answer the two
      model-list requests. */
  function NewClient(localUrl: Option<string>, remoteUrl: Option<string>, defaultModel: string, requestTimeout: int,
                     localTags: Option<seq<ModelInfo>>, remoteTags: Option<seq<ModelInfo>>): (r: Result<Client>)
    ensures r.Raised? <==> !TruthyStr(localUrl)
    ensures r.Raised? ==> r.exc == Exc("ValueError", "local_url for OllamaClient cannot be None or empty.")
    ensures r.Ok? ==> r.value.localUrl == RStripChar(localUrl.value, '/')
    ensures r.Ok? && TruthyStr(remoteUrl) ==> r.value.remoteUrl == Some(RStripChar(remoteUrl.value, '/'))
    ensures r.Ok? ==>
      r.value.localUrl <= localUrl.value && (r.value.localUrl == [] || r.value.localUrl[|r.value.localUrl| - 1] != '/') &&
      (r.value.remoteUrl.Some? <==> TruthyStr(remoteUrl)) &&
      (r.value.remoteUrl.Some? ==>
         r.value.remoteUrl.value <= remoteUrl.value &&
         (r.value.remoteUrl.value == [] || r.value.remoteUrl.value[|r.value.remoteUrl.value| - 1] != '/')) &&
      (r.value.remoteUrl.None? ==> r.value.remoteModels == []) &&
      r.value.defaultModel == defaultModel
  {
    if !TruthyStr(localUrl) then
      Raised(Exc("ValueError", "local_url for OllamaClient cannot be None or empty."))
    else
      var local := RStripChar(localUrl.value, '/');
      var remote := if TruthyStr(remoteUrl) then Some(RStripChar(remoteUrl.value, '/')) else None;
      Ok(Client(local, remote, defaultModel, requestTimeout,
                AvailableModels(Some(local), localTags), AvailableModels(remote, remoteTags)))
  }

  // ------------------------------------------------------------- selection

  datatype Target = Target(url: string, models: seq<ModelInfo>, name: string)

  /** The instance, model and instance type `_choose_instance_and_model`
      returns when it finds one. */
  datatype Selection = Selection(url: string, model: string, instance: string)

  function LocalTarget(c: Client): Target { Target(c.localUrl, c.localModels, "local") }

  function RemoteTarget(c: Client): Target
    requires c.remoteUrl.Some?
  {
    Target(c.remoteUrl.value, c.remoteModels, "remote")
  }

  predicate LocalReady(c: Client) { c.localUrl != "" && c.localModels != [] }

  predicate RemoteReady(c: Client) { TruthyStr(c.remoteUrl) && c.remoteModels != [] }

  function Locals(c: Client): seq<Target> { if LocalReady(c) then [LocalTarget(c)] else [] }

  function Remotes(c: Client): seq<Target> { if RemoteReady(c) then [RemoteTarget(c)] else [] }

  /** The targets in order of preference, with the two lines that force a
      single configured instance to be the only target. */
  function Targets(c: Client, safe: bool): (ts: seq<Target>)
    ensures forall i :: 0 <= i < |ts| ==> ts[i].models != [] && ts[i].url != ""
  {
    var preferred := if safe then Locals(c) + Remotes(c) else Remotes(c) + Locals(c);
    if !TruthyStr(c.remoteUrl) && LocalReady(c) then [LocalTarget(c)]
    else if c.localUrl == "" && RemoteReady(c) then [RemoteTarget(c)]
    else preferred
  }

  /** The targets are the instances with models, local first for safe
      requests and remote first otherwise; the single-instance lines change
      nothing, and with no remote URL the local instance is the only one. */
  lemma TargetsOrder(c: Client, safe: bool)
    ensures Targets(c, safe) == if safe then Locals(c) + Remotes(c) else Remotes(c) + Locals(c)
    ensures !TruthyStr(c.remoteUrl) ==> Targets(c, safe) == Locals(c)
    ensures forall t :: t in Targets(c, safe) ==> (t == LocalTarget(c) && LocalReady(c)) ||
                                                  (RemoteReady(c) && t == RemoteTarget(c))
  {
  }

  /** `'auto'` stands for the default model. */
  function Effective(c: Client, requested: string): string {
    if requested == "auto" then c.defaultModel else requested
  }

  predicate HasExact(t: Target, model: string) {
    exists j :: 0 <= j < |t.models| && t.models[j].name == Some(model)
  }

  /** The model name as `model_info.get("name", "")` reads it. */
  function NameOrEmpty(m: ModelInfo): string { if m.name.Some? then m.name.value else "" }

  /** `name.split(':')[0] == base` */
  predicate BaseMatch(m: ModelInfo, base: string) { BeforeChar(NameOrEmpty(m), ':') == base }

  predicate HasBase(t: Target, base: string) {
    exists j :: 0 <= j < |t.models| && BaseMatch(t.models[j], base)
  }

  /** The first target from `i` on with an exact match. */
  function FirstExact(ts: seq<Target>, model: string, i: nat): (r: Option<nat>)
    requires i <= |ts|
    ensures r.Some? ==> i <= r.value < |ts| && HasExact(ts[r.value], model) &&
                        forall k :: i <= k < r.value ==> !HasExact(ts[k], model)
    ensures r.None? ==> forall k :: i <= k < |ts| ==> !HasExact(ts[k], model)
    decreases |ts| - i
  {
    if i == |ts| then None
    else if HasExact(ts[i], model) then Some(i)
    else FirstExact(ts, model, i + 1)
  }

  /** The first target from `i` on with a base-name match. */
  function FirstBase(ts: seq<Target>, base: string, i: nat): (r: Option<nat>)
    requires i <= |ts|
    ensures r.Some? ==> i <= r.value < |ts| && HasBase(ts[r.value], base) &&
                        forall k :: i <= k < r.value ==> !HasBase(ts[k], base)
    ensures r.None? ==> forall k :: i <= k < |ts| ==> !HasBase(ts[k], base)
    decreases |ts| - i
  {
    if i == |ts| then None
    else if HasBase(ts[i], base) then Some(i)
    else FirstBase(ts, base, i + 1)
  }

  /** The first model from `j` on with a base-name match. */
  function FirstBaseModel(models: seq<ModelInfo>, base: string, j: nat): (r: Option<nat>)
    requires j <= |models|
    ensures r.Some? ==> j <= r.value < |models| && BaseMatch(models[r.value], base) &&
                        forall l :: j <= l < r.value ==> !BaseMatch(models[l], base)
    ensures r.None? ==> forall l :: j <= l < |models| ==> !BaseMatch(models[l], base)
    decreases |models| - j
  {
    if j == |models| then None
    else if BaseMatch(models[j], base) then Some(j)
    else FirstBaseModel(models, base, j + 1)
  }

  /** What `_choose_instance_and_model` returns: an exact match on the most
      preferred target that has one, else a base-name match, else for
      'auto' the first model of the most preferred target. A base match on
      an entry without a "name" key raises KeyError. */
  function Choose(c: Client, requested: string, safe: bool): Result<Option<Selection>> {
    var model := Effective(c, requested);
    var ts := Targets(c, safe);
    if ts == [] then Ok(None)
    else match FirstExact(ts, model, 0)
      case Some(i) => Ok(Some(Selection(ts[i].url, model, ts[i].name)))
      case None =>
        var base := BeforeChar(model, ':');
        match FirstBase(ts, base, 0)
        case Some(i) =>
          var j := FirstBaseModel(ts[i].models, base, 0).value;
          if ts[i].models[j].name.None? then Raised(Exc("KeyError", "'name'"))
          else Ok(Some(Selection(ts[i].url, ts[i].models[j].name.value, ts[i].name)))
        case None =>
          if requested == "auto" && TruthyStr(ts[0].models[0].name) then
            Ok(Some(Selection(ts[0].url, ts[0].models[0].name.value, ts[0].name)))
          else Ok(None)
  }

  /** The target list of `_choose_instance_and_model`, built by appends. */
  method BuildTargets(c: Client, safe: bool) returns (targets: seq<Target>)
    ensures targets == Targets(c, safe)
  {
    targets := [];
    if safe {
      if c.localUrl != "" && c.localModels != [] {
        targets := targets + [Target(c.localUrl, c.localModels, "local")];
      }
      if TruthyStr(c.remoteUrl) && c.remoteModels != [] {
        targets := targets + [Target(c.remoteUrl.value, c.remoteModels, "remote")];
      }
    } else {
      if TruthyStr(c.remoteUrl) && c.remoteModels != [] {
        targets := targets + [Target(c.remoteUrl.value, c.remoteModels, "remote")];
      }
      if c.localUrl != "" && c.localModels != [] {
        targets := targets + [Target(c.localUrl, c.localModels, "local")];
      }
    }
    if !TruthyStr(c.remoteUrl) && c.localUrl != "" && c.localModels != [] {
      targets := [Target(c.localUrl, c.localModels, "local")];
    } else if c.localUrl == "" && TruthyStr(c.remoteUrl) && c.remoteModels != [] {
      targets := [Target(c.remoteUrl.value, c.remoteModels, "remote")];
    }
  }

  /** The exact-name pass: the index of the first target holding `model`. */
  method ExactPass(targets: seq<Target>, model: string) returns (found: Option<nat>)
    ensures found == FirstExact(targets, model, 0)
  {
    var i := 0;
    while i < |targets|
      invariant i <= |targets|
      invariant FirstExact(targets, model, 0) == FirstExact(targets, model, i)
    {
      var j := 0;
      while j < |targets[i].models|
        invariant j <= |targets[i].models|
        invariant forall l :: 0 <= l < j ==> targets[i].models[l].name != Some(model)
      {
        if targets[i].models[j].name == Some(model) {
          return Some(i);
        }
        j := j + 1;
      }
      i := i + 1;
    }
    return None;
  }

  /** The inner loop of the base-name pass over one target's models. */
  method BaseModel(models: seq<ModelInfo>, base: string) returns (found: Option<nat>)
    ensures found == FirstBaseModel(models, base, 0)
  {
    var j := 0;
    while j < |models|
      invariant j <= |models|
      invariant FirstBaseModel(models, base, 0) == FirstBaseModel(models, base, j)
    {
      if BaseMatch(models[j], base) {
        return Some(j);
      }
      j := j + 1;
    }
    return None;
  }

  /** The base-name pass: the first target and, in it, the first model
      whose name before ':' is `base`. */
  method BasePass(targets: seq<Target>, base: string) returns (found: Option<(nat, nat)>)
    ensures found.None? <==> FirstBase(targets, base, 0).None?
    ensures found.Some? ==>
      found.value.0 == FirstBase(targets, base, 0).value &&
      found.value.1 == FirstBaseModel(targets[found.value.0].models, base, 0).value
  {
    var i := 0;
    while i < |targets|
      invariant i <= |targets|
      invariant FirstBase(targets, base, 0) == FirstBase(targets, base, i)
    {
      var j := BaseModel(targets[i].models, base);
      if j.Some? {
        return Some((i, j.value));
      }
      i := i + 1;
    }
    return None;
  }

  /** `_choose_instance_and_model`: build the targets, then the exact pass,
      the base-name pass and the 'auto' fallback. */
  method ChooseInstanceAndModel(c: Client, requested: string, safe: bool) returns (r: Result<Option<Selection>>)
    ensures r == Choose(c, requested, safe)
  {
    var model := if requested == "auto" then c.defaultModel else requested;
    var targets := BuildTargets(c, safe);
    if targets == [] {
      return Ok(None);
    }
    var exact := ExactPass(targets, model);
    if exact.Some? {
      var t := targets[exact.value];
      return Ok(Some(Selection(t.url, model, t.name)));
    }
    var base := BeforeChar(model, ':');
    var matched := BasePass(targets, base);
    if matched.Some? {
      var t := targets[matched.value.0];
      var info := t.models[matched.value.1];
      if info.name.None? {
        return Raised(Exc("KeyError", "'name'"));
      }
      return Ok(Some(Selection(t.url, info.name.value, t.name)));
    }
    if requested == "auto" && targets[0].models != [] {
      var first := targets[0].models[0].name;
      if TruthyStr(first) {
        return Ok(Some(Selection(targets[0].url, first.value, targets[0].name)));
      }
    }
    return Ok(None);
  }

  /** An exact name on any target beats every base-name match, and the
      exact pass takes the most preferred target that has the model. */
  lemma ExactFirst(c: Client, requested: string, safe: bool, i: nat)
    requires i < |Targets(c, safe)| && HasExact(Targets(c, safe)[i], Effective(c, requested))
    requires forall k :: 0 <= k < i ==> !HasExact(Targets(c, safe)[k], Effective(c, requested))
    ensures Choose(c, requested, safe) ==
      Ok(Some(Selection(Targets(c, safe)[i].url, Effective(c, requested), Targets(c, safe)[i].name)))
  {
    var r := FirstExact(Targets(c, safe), Effective(c, requested), 0);
    assert r.Some?;
  }

  /** Without any exact match, a base-name match returns the installed
      model's full name, which has the requested base name, on the most
      preferred target that has one. */
  lemma BaseNameMatch(c: Client, requested: string, safe: bool, i: nat)
    requires forall k :: 0 <= k < |Targets(c, safe)| ==> !HasExact(Targets(c, safe)[k], Effective(c, requested))
    requires i < |Targets(c, safe)| && HasBase(Targets(c, safe)[i], BeforeChar(Effective(c, requested), ':'))
    requires forall k :: 0 <= k < i ==> !HasBase(Targets(c, safe)[k], BeforeChar(Effective(c, requested), ':'))
    ensures var r := Choose(c, requested, safe);
      r.Ok? ==> r.value.Some? && r.value.value.url == Targets(c, safe)[i].url &&
                BeforeChar(r.value.value.model, ':') == BeforeChar(Effective(c, requested), ':') &&
                exists j :: 0 <= j < |Targets(c, safe)[i].models| &&
                            Targets(c, safe)[i].models[j].name == Some(r.value.value.model)
  {
    var ts, base := Targets(c, safe), BeforeChar(Effective(c, requested), ':');
    var e := FirstExact(ts, Effective(c, requested), 0);
    assert e.None?;
    var b := FirstBase(ts, base, 0);
    assert b.Some?;
  }

  /** With no target, or no exact or base-name match for a request other
      than 'auto', nothing is selected. */
  lemma NothingChosen(c: Client, requested: string, safe: bool)
    requires Targets(c, safe) == [] ||
             (requested != "auto" &&
              forall k :: 0 <= k < |Targets(c, safe)| ==>
                !HasExact(Targets(c, safe)[k], Effective(c, requested)) &&
                !HasBase(Targets(c, safe)[k], BeforeChar(Effective(c, requested), ':')))
    ensures Choose(c, requested, safe) == Ok(None)
  {
    var ts := Targets(c, safe);
    if ts != [] {
      var e := FirstExact(ts, Effective(c, requested), 0);
      var b := FirstBase(ts, BeforeChar(Effective(c, requested), ':'), 0);
      assert e.None? && b.None?;
    }
  }

  /** 'auto' with no match falls back to the first model of the most
      preferred target, when that model has a name. */
  lemma AutoFallback(c: Client, safe: bool)
    requires Targets(c, safe) != []
    requires forall k :: 0 <= k < |Targets(c, safe)| ==>
               !HasExact(Targets(c, safe)[k], c.defaultModel) &&
               !HasBase(Targets(c, safe)[k], BeforeChar(c.defaultModel, ':'))
    ensures var t := Targets(c, safe)[0];
      Choose(c, "auto", safe) ==
        if TruthyStr(t.models[0].name) then Ok(Some(Selection(t.url, t.models[0].name.value, t.name))) else Ok(None)
  {
    var ts := Targets(c, safe);
    var e := FirstExact(ts, c.defaultModel, 0);
    var b := FirstBase(ts, BeforeChar(c.defaultModel, ':'), 0);
    assert e.None? && b.None?;
  }

  // ------------------------------------------------------------------- ask

  /** One line of a streamed reply: empty, not JSON, or a JSON object with
      an optional "response" and a truthy or falsy "done". */
  datatype StreamLine = Blank | Garbled | Chunk(response: Option<string>, done: bool)

  /** The text `_stream_response_generator` yields. */
  function Streamed(lines: seq<StreamLine>): seq<string> {
    if lines == [] then []
    else match lines[0]
      case Blank => Streamed(lines[1..])
      case Garbled => Streamed(lines[1..])
      case Chunk(response, done) =>
        (if response.Some? then [response.value] else []) + (if done then [] else Streamed(lines[1..]))
  }

  predicate Ends(l: StreamLine) { l.Chunk? && l.done }

  function Responses(lines: seq<StreamLine>): seq<string> {
    if lines == [] then []
    else (if lines[0].Chunk? && lines[0].response.Some? then [lines[0].response.value] else []) +
         Responses(lines[1..])
  }

  /** Before the first chunk with "done" set, the generator yields every
      "response" in order and skips empty and undecodable lines. */
  lemma {:induction false} StreamedInOrder(lines: seq<StreamLine>)
    requires forall i :: 0 <= i < |lines| ==> !Ends(lines[i])
    ensures Streamed(lines) == Responses(lines)
  {
    if lines != [] {
      StreamedInOrder(lines[1..]);
    }
  }

  /** The generator stops after the first chunk with "done" set, once that
      chunk's response is yielded: later lines are never read. */
  lemma {:induction false} StreamedStops(lines: seq<StreamLine>, i: nat)
    requires i < |lines| && Ends(lines[i]) && forall k :: 0 <= k < i ==> !Ends(lines[k])
    ensures Streamed(lines) == Responses(lines[..i + 1])
  {
    if i == 0 {
      assert lines[..1][1..] == [];
    } else {
      StreamedStops(lines[1..], i - 1);
      assert lines[..i + 1][1..] == lines[1..][..i];
    }
  }

  /** `_stream_response_generator`, collected: the loop over the lines with
      its `break` on "done". */
  method StreamResponseGenerator(lines: seq<StreamLine>) returns (out: seq<string>)
    ensures out == Streamed(lines)
  {
    out := [];
    var i := 0;
    while i < |lines|
      invariant i <= |lines|
      invariant out + Streamed(lines[i..]) == Streamed(lines)
    {
      assert lines[i..][1..] == lines[i + 1..];
      if lines[i].Chunk? {
        if lines[i].response.Some? {
          out := out + [lines[i].response.value];
        }
        if lines[i].done {
          return;
        }
      }
      i := i + 1;
    }
  }

  /** How the generate request ended. `Answered` carries the "response" of
      the JSON body and the lines of a streamed body. */
  datatype Reply =
    | Timeout
    | RequestError(text: string)
    | BadJson
    | Unexpected(text: string)
    | Answered(response: Option<string>, lines: seq<StreamLine>)

  /** The third element of `ask`'s tuple: the reply text, the generator's
      yield for a stream, or an error message. */
  datatype Content = Text(text: string) | Yields(chunks: seq<string>) | ErrorText(message: string)

  datatype AskResult = AskResult(instance: Option<string>, model: Option<string>, content: Content)

  function PyBool(b: bool): string { if b then "True" else "False" }

  /** The error text when no instance or model is found. */
  function NotFoundMessage(model: string, safe: bool): string {
    "Error: Could not find suitable Ollama instance/model (model='" + model + "', safe='" + PyBool(safe) + "')."
  }

  /** What the generate request gives once the instance and model are known. */
  function Generate(c: Client, sel: Selection, stream: bool, reply: Reply): (r: Content)
    ensures r.ErrorText? <==> !reply.Answered?
    ensures reply.Answered? ==> (r.Yields? <==> stream)
    ensures reply.Answered? && stream ==> r.chunks == Streamed(reply.lines)
    ensures reply.Answered? && !stream ==> r.text == OrElse(reply.response, "")
  {
    var at := "(" + sel.instance + " at " + sel.url + "/api/generate)";
    match reply
    case Timeout =>
      ErrorText("Timeout connecting to Ollama " + at + " after " + IntToString(c.requestTimeout) + "s.")
    case RequestError(text) => ErrorText("Request error connecting to Ollama " + at + ": " + text)
    case BadJson => ErrorText("Could not decode JSON response from Ollama " + at + ".")
    case Unexpected(text) => ErrorText("An unexpected error occurred " + at + ": " + text)
    case Answered(response, lines) =>
      if stream then Yields(Streamed(lines)) else Text(OrElse(response, ""))
  }

  /** `ask`, without its tracing: no instance or model gives
      (None, None, error text), and every other path reports the chosen
      instance type and model. */
  function Ask(c: Client, model: string, safe: bool, stream: bool, reply: Reply): (r: Result<AskResult>)
    ensures Choose(c, model, safe).Raised? ==> r == Raised(Choose(c, model, safe).exc)
    ensures Choose(c, model, safe) == Ok(None) ==>
      r == Ok(AskResult(None, None, ErrorText(NotFoundMessage(model, safe))))
    ensures r.Ok? && r.value.instance.Some? ==>
      var sel := Choose(c, model, safe).value.value;
      r.value.instance == Some(sel.instance) && r.value.model == Some(sel.model) && sel.model != "" &&
      r.value.content == Generate(c, sel, stream, reply)
  {
    match Choose(c, model, safe)
    case Raised(e) => Raised(e)
    case Ok(None) => Ok(AskResult(None, None, ErrorText(NotFoundMessage(model, safe))))
    case Ok(Some(sel)) =>
      if sel.url == "" || sel.model == "" then Ok(AskResult(None, None, ErrorText(NotFoundMessage(model, safe))))
      else Ok(AskResult(Some(sel.instance), Some(sel.model), Generate(c, sel, stream, reply)))
  }
}
