/** The notify tool: a message posted to an ntfy topic, with optional
    Title, Priority and Tags headers. Without both a server url and a topic
    the tool is a stub that only logs. The POST itself is a parameter: the
    reply the server (or the network) gives to a request. */
module NotifyTool {
  import opened Common
  import opened Json

  /** The ntfy attributes of the settings object; None stands for an
      attribute the object does not have. */
  datatype NtfySettings = NtfySettings(serverUrl: Option<Json>, topic: Option<Json>)

  /** A POST: the url, the message as body, the headers and the timeout
      in seconds. */
  datatype Request = Request(url: string, body: string, headers: map<string, Json>, timeout: nat)

  /** What `requests.post` does: a response with its status code and
      reason, a timeout, another request failure, or any other error. */
  datatype PostReply =
    | Answered(status: int, reason: string)
    | TimedOut
    | RequestFailed(msg: string)
    | Crashed(msg: string)

  const StubMessage := "Notification logged instead of sent (STUB MODE - Ntfy not fully configured)."
  const StubStatus := "success_stub_mode"
  const PostTimeout := 10

  /** Whether settings configure a real ntfy endpoint: both attributes
      present and truthy. */
  predicate Configured(settings: Option<NtfySettings>) {
    settings.Some? && settings.value.serverUrl.Some? && settings.value.topic.Some? &&
    Truthy(settings.value.serverUrl.value) && Truthy(settings.value.topic.value)
  }

  // ------------------------------------------------------------- headers

  /** The index of the first item that is not a string, if any. */
  function FirstNonStr(items: seq<Json>): (r: Option<nat>)
    ensures r.None? <==> forall j :: 0 <= j < |items| ==> items[j].JStr?
    ensures r.Some? ==> r.value < |items| && !items[r.value].JStr? &&
                        forall j :: 0 <= j < r.value ==> items[j].JStr?
  {
    if items == [] then None
    else if !items[0].JStr? then Some(0)
    else match FirstNonStr(items[1..])
      case None => None
      case Some(k) => Some(k + 1)
  }

  /** The strings of a list of strings. */
  function Strs(items: seq<Json>): (r: seq<string>)
    requires forall j :: 0 <= j < |items| ==> items[j].JStr?
    ensures |r| == |items| && forall j :: 0 <= j < |items| ==> r[j] == items[j].s
  {
    seq(|items|, j requires 0 <= j < |items| => items[j].s)
  }

  /** `sep.join(items)`: raises at the first item that is not a string. */
  function JoinItems(sep: string, items: seq<Json>): Result<string> {
    match FirstNonStr(items)
    case None => Ok(Join(sep, Strs(items)))
    case Some(i) =>
      Raised(Exc("TypeError", "sequence item " + NatToString(i) + ": expected str instance, " + TypeName(items[i]) + " found"))
  }

  /** The headers dict: Title for a truthy title, Priority for a priority
      from 1 to 5 (a priority that is neither None nor an integer cannot be
      compared with 1), Tags for a non-empty list of strings. */
  function Headers(title: Json, priority: Json, tags: Json): Result<map<string, Json>> {
    if !priority.JNull? && !IsInt(priority) then Raised(PriorityError(priority))
    else WithTags(WithPriority(WithTitle(map[], title), priority), tags)
  }

  /** What `1 <= priority` raises for a value that is not a number. */
  function PriorityError(priority: Json): Exc {
    Exc("TypeError", "'<=' not supported between instances of 'int' and '" + TypeName(priority) + "'")
  }

  /** The headers with Tags added for a non-empty list: the items joined
      by commas, which raises for an item that is not a string. */
  function WithTags(headers: map<string, Json>, tags: Json): Result<map<string, Json>> {
    if Truthy(tags) && tags.JList? then
      match JoinItems(",", tags.items)
      case Raised(e) => Raised(e)
      case Ok(joined) => Ok(headers["Tags" := JStr(joined)])
    else Ok(headers)
  }

  /** The headers with Title added for a truthy title. */
  function WithTitle(headers: map<string, Json>, title: Json): map<string, Json> {
    if Truthy(title) then headers["Title" := title] else headers
  }

  /** The headers with Priority added for an integer priority from 1 to 5. */
  function WithPriority(headers: map<string, Json>, priority: Json): map<string, Json> {
    if IsInt(priority) && 1 <= IntValue(priority) <= 5 then headers["Priority" := JStr(Str(priority))] else headers
  }

  /** The header rules: each header is present exactly under its
      condition, with the value given; the call raises only for a priority
      that is not an integer or None, or a tag list holding a non-string. */
  lemma HeaderRules(title: Json, priority: Json, tags: Json)
    ensures Headers(title, priority, tags).Raised? <==>
              (!priority.JNull? && !IsInt(priority)) ||
              (Truthy(tags) && tags.JList? && FirstNonStr(tags.items).Some?)
    ensures var h := Headers(title, priority, tags);
            h.Ok? ==>
              h.value.Keys <= {"Title", "Priority", "Tags"} &&
              ("Title" in h.value <==> Truthy(title)) &&
              ("Title" in h.value ==> h.value["Title"] == title) &&
              ("Priority" in h.value <==> IsInt(priority) && 1 <= IntValue(priority) <= 5) &&
              ("Priority" in h.value ==> h.value["Priority"] == JStr(Str(priority))) &&
              ("Tags" in h.value <==> tags.JList? && tags.items != []) &&
              ("Tags" in h.value ==> h.value["Tags"] == JStr(Join(",", Strs(tags.items))))
  {
  }

  // ----------------------------------------------------------------- url

  /** The ntfy endpoint: the server without trailing slashes, one slash,
      the topic without leading slashes. */
  function NtfyUrl(server: string, topic: string): string {
    RStripChar(server, '/') + "/" + LStripChar(topic, '/')
  }

  /** The three properties of `rstrip(c)` determine its result. */
  lemma RStripCharUnique(s: string, c: char, r: string)
    requires r <= s && (r != [] ==> r[|r| - 1] != c)
    requires forall i :: |r| <= i < |s| ==> s[i] == c
    ensures r == RStripChar(s, c)
  {
    var t := RStripChar(s, c);
    if |t| > 0 {
      assert s[|t| - 1] == t[|t| - 1] != c;
    }
    if |r| > 0 {
      assert s[|r| - 1] == r[|r| - 1] != c;
    }
    assert |r| == |t|;
  }

  /** The three properties of `lstrip(c)` determine its result. */
  lemma LStripCharUnique(s: string, c: char, r: string)
    requires |r| <= |s| && r == s[|s| - |r|..] && (r != [] ==> r[0] != c)
    requires forall i :: 0 <= i < |s| - |r| ==> s[i] == c
    ensures r == LStripChar(s, c)
  {
    var t := LStripChar(s, c);
    if |t| > 0 {
      assert s[|s| - |t|] == t[0] != c;
    }
    if |r| > 0 {
      assert s[|s| - |r|] == r[0] != c;
    }
    assert |r| == |t|;
  }

  /** The url joins server and topic with exactly one slash: the
      character before it and the one after it are not slashes, and extra
      slashes at the end of the server or the start of the topic make no
      difference. */
  lemma NtfyUrlSpec(server: string, topic: string)
    ensures var k := |RStripChar(server, '/')|;
            var url := NtfyUrl(server, topic);
            k < |url| && url[k] == '/' && url[..k] <= server &&
            (k > 0 ==> url[k - 1] != '/') && (k + 1 < |url| ==> url[k + 1] != '/') &&
            url[k + 1..] == LStripChar(topic, '/')
    ensures NtfyUrl(server + "/", topic) == NtfyUrl(server, topic)
    ensures NtfyUrl(server, "/" + topic) == NtfyUrl(server, topic)
  {
    var r := RStripChar(server, '/');
    var l := LStripChar(topic, '/');
    var url := NtfyUrl(server, topic);
    assert url[..|r|] == r;
    assert url[|r| + 1..] == l;
    RStripCharUnique(server + "/", '/', r);
    LStripCharUnique("/" + topic, '/', l);
  }

  // ------------------------------------------------------------- answers

  /** `raise_for_status`'s message for an error status. */
  function HttpErrorText(status: int, reason: string, url: string): string {
    IntToString(status) + (if status < 500 then " Client Error: " else " Server Error: ") + reason + " for url: " + url
  }

  /** The answer to a POST of the notification for `topic` at `url`. */
  function PostAnswer(reply: PostReply, topic: string, url: string): (r: Json)
    ensures r.JObj? && "status" in r.fields
    ensures r.fields["status"] == JStr("success") <==> reply.Answered? && !(400 <= reply.status < 600)
  {
    match reply
    case Answered(status, reason) =>
      if 400 <= status < 600 then
        ErrorResult("Error sending notification to Ntfy: " + HttpErrorText(status, reason, url))
      else
        SuccessResult(JStr("Notification sent successfully to Ntfy topic '" + topic + "'."), "success")
    case TimedOut => ErrorResult("Timeout sending notification to Ntfy server " + url + ".")
    case RequestFailed(msg) => ErrorResult("Error sending notification to Ntfy: " + msg)
    case Crashed(msg) => ErrorResult("An unexpected error occurred while sending notification: " + msg)
  }

  /** The notify tool with the configuration its constructor read. */
  class NotifyTool {
    const serverUrl: Json
    const topic: Json
    const stubMode: bool

    /** Takes both ntfy attributes when the settings have both, and is a
        stub unless both are truthy. */
    constructor(settings: Option<NtfySettings>)
      ensures stubMode <==> !Configured(settings)
      ensures settings.Some? && settings.value.serverUrl.Some? && settings.value.topic.Some? ==>
                serverUrl == settings.value.serverUrl.value && topic == settings.value.topic.value
      ensures !(settings.Some? && settings.value.serverUrl.Some? && settings.value.topic.Some?) ==>
                serverUrl == JNull && topic == JNull
    {
      if settings.Some? && settings.value.serverUrl.Some? && settings.value.topic.Some? {
        serverUrl := settings.value.serverUrl.value;
        topic := settings.value.topic.value;
        stubMode := !(Truthy(settings.value.serverUrl.value) && Truthy(settings.value.topic.value));
      } else {
        serverUrl := JNull;
        topic := JNull;
        stubMode := true;
      }
    }

    /** The headers, built one by one. */
    method BuildHeaders(title: Json, priority: Json, tags: Json) returns (r: Result<map<string, Json>>)
      ensures r == Headers(title, priority, tags)
    {
      var headers: map<string, Json> := map[];
      if Truthy(title) {
        headers := headers["Title" := title];
      }
      if !priority.JNull? {
        if !IsInt(priority) {
          return Raised(PriorityError(priority));
        }
        if 1 <= IntValue(priority) <= 5 {
          headers := headers["Priority" := JStr(Str(priority))];
        }
      }
      assert headers == WithPriority(WithTitle(map[], title), priority);
      r := AddTags(headers, tags);
    }

    /** The Tags header, added last. */
    method AddTags(headers: map<string, Json>, tags: Json) returns (r: Result<map<string, Json>>)
      ensures r == WithTags(headers, tags)
    {
      var result := headers;
      if Truthy(tags) && tags.JList? {
        var joined := JoinItems(",", tags.items);
        if joined.Raised? {
          return Raised(joined.exc);
        }
        result := result["Tags" := JStr(joined.value)];
      }
      r := Ok(result);
    }

    /** Sends `message`: a stub answers at once and sends nothing; otherwise
        the headers and the url are built (either can raise) and the one
        request is posted with a 10 second timeout. `sent` is that request. */
    method Execute(message: string, title: Json, priority: Json, tags: Json, post: Request -> PostReply)
      returns (r: Result<Json>, sent: Option<Request>)
      ensures stubMode || !Truthy(serverUrl) || !Truthy(topic) ==>
                r == Ok(SuccessResult(JStr(StubMessage), StubStatus)) && sent.None?
      ensures !stubMode && Truthy(serverUrl) && Truthy(topic) ==>
                (Headers(title, priority, tags).Raised? ==> r == Raised(Headers(title, priority, tags).exc) && sent.None?) &&
                (Headers(title, priority, tags).Ok? && !serverUrl.JStr? ==> r.Raised? && r.exc.kind == "AttributeError" && sent.None?) &&
                (Headers(title, priority, tags).Ok? && serverUrl.JStr? && !topic.JStr? ==> r.Raised? && r.exc.kind == "AttributeError" && sent.None?)
      ensures sent.Some? <==> !stubMode && Truthy(serverUrl) && Truthy(topic) && serverUrl.JStr? && topic.JStr? &&
                              Headers(title, priority, tags).Ok?
      ensures sent.Some? ==>
                sent.value == Request(NtfyUrl(serverUrl.s, topic.s), message, Headers(title, priority, tags).value, PostTimeout) &&
                r == Ok(PostAnswer(post(sent.value), topic.s, sent.value.url))
    {
      if stubMode || !Truthy(serverUrl) || !Truthy(topic) {
        return Ok(SuccessResult(JStr(StubMessage), StubStatus)), None;
      }
      var headers := BuildHeaders(title, priority, tags);
      if headers.Raised? {
        return Raised(headers.exc), None;
      }
      if !serverUrl.JStr? {
        return Raised(Exc("AttributeError", "'" + TypeName(serverUrl) + "' object has no attribute 'rstrip'")), None;
      }
      if !topic.JStr? {
        return Raised(Exc("AttributeError", "'" + TypeName(topic) + "' object has no attribute 'lstrip'")), None;
      }
      var url := NtfyUrl(serverUrl.s, topic.s);
      var request := Request(url, message, headers.value, PostTimeout);
      var reply := post(request);
      r := Ok(PostAnswer(reply, topic.s, url));
      sent := Some(request);
    }
  }
}
