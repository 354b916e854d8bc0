/** The fetch_url tool: an http or https url is fetched with a GET whose
    body is read in chunks, stopping once `max_bytes` bytes have been read.
    The GET and the decoding of bytes are parameters: the reply the server
    (or the network) gives to a request, and the text a byte string decodes
    to under an encoding with `errors='replace'`. */
module FetchUrlTool {
  import opened Common
  import opened Json

  newtype byte = x: int | 0 <= x < 256

  // ------------------------------------------------------------- urls

  predicate IsAsciiAlpha(c: char) {
    IsLowerAscii(c) || IsUpperAscii(c)
  }

  /** The characters a url scheme may contain. */
  predicate IsSchemeChar(c: char) {
    IsAlnum(c) || c == '+' || c == '-' || c == '.'
  }

  /** `urlsplit`'s scheme step: text before the first ':' is the scheme,
      lower-cased, when it is non-empty, starts with a letter and holds only
      scheme characters; otherwise there is no scheme. Returns the scheme
      and the rest of the url. */
  function SplitScheme(url: string): (string, string) {
    var i := |BeforeChar(url, ':')|;
    if 0 < i < |url| && IsAsciiAlpha(url[0]) && forall j :: 0 <= j < i ==> IsSchemeChar(url[j]) then
      (Lower(url[..i]), url[i + 1..])
    else ("", url)
  }

  predicate EndsNetloc(c: char) {
    c == '/' || c == '?' || c == '#'
  }

  /** The first index from `k` on that holds '/', '?' or '#', or the end. */
  function NetlocEnd(s: string, k: nat): (r: nat)
    requires k <= |s|
    decreases |s| - k
    ensures k <= r <= |s|
    ensures r < |s| ==> EndsNetloc(s[r])
    ensures forall j :: k <= j < r ==> !EndsNetloc(s[j])
  {
    if k == |s| || EndsNetloc(s[k]) then k else NetlocEnd(s, k + 1)
  }

  /** The network location: after a leading "//", up to the next '/', '?'
      or '#'; empty without the "//". */
  function Netloc(rest: string): string {
    if |rest| >= 2 && rest[..2] == "//" then rest[2..NetlocEnd(rest, 2)] else ""
  }

  /** `urlsplit` raises ValueError for a netloc with one bracket of a pair
      but not the other. */
  predicate BracketsUnbalanced(netloc: string) {
    ('[' in netloc) != (']' in netloc)
  }

  /** `_is_valid_url`: the scheme is http or https and the netloc is not
      empty; a url `urlparse` refuses is not valid. */
  predicate IsValidUrl(url: string) {
    var (scheme, rest) := SplitScheme(url);
    var netloc := Netloc(rest);
    !BracketsUnbalanced(netloc) && (scheme == "http" || scheme == "https") && netloc != ""
  }

  /** A valid url starts with "http" or "https" in any case, then "://",
      then a character that is not '/', '?' or '#'. */
  lemma ValidUrlForm(url: string)
    requires IsValidUrl(url)
    ensures var i := |BeforeChar(url, ':')|;
            i + 3 < |url| && Lower(url[..i]) in {"http", "https"} && url[i..i + 3] == "://" && !EndsNetloc(url[i + 3])
  {
    var i := |BeforeChar(url, ':')|;
    var (scheme, rest) := SplitScheme(url);
    assert scheme != "";
    assert 0 < i < |url| && scheme == Lower(url[..i]) && rest == url[i + 1..];
    assert |rest| >= 2 && rest[..2] == "//";
    assert NetlocEnd(rest, 2) > 2;
    assert url[i] == ':' && url[i + 1] == rest[0] && url[i + 2] == rest[1] && url[i + 3] == rest[2];
    assert url[i..i + 3] == "://";
  }

  /** `BeforeChar` finds the first occurrence. */
  lemma BeforeCharAt(s: string, c: char, k: nat)
    requires k < |s| && s[k] == c && forall j :: 0 <= j < k ==> s[j] != c
    ensures |BeforeChar(s, c)| == k
  {
    var r := BeforeChar(s, c);
    if |r| > k {
      assert r[k] == s[k];
    }
  }

  /** A scheme of letters is split off at its ':'. */
  lemma SplitSchemeAt(scheme: string, rest: string)
    requires scheme != [] && forall j :: 0 <= j < |scheme| ==> IsAsciiAlpha(scheme[j])
    ensures SplitScheme(scheme + ":" + rest) == (Lower(scheme), rest)
  {
    var url := scheme + ":" + rest;
    assert url[|scheme|] == ':';
    assert forall j :: 0 <= j < |scheme| ==> url[j] == scheme[j];
    BeforeCharAt(url, ':', |scheme|);
    assert url[..|scheme|] == scheme;
    assert url[|scheme| + 1..] == rest;
  }

  /** After "//", the netloc is the host when the host holds no '/', '?'
      or '#' and what follows it starts with one of them. */
  lemma NetlocAt(host: string, tail: string)
    requires forall j :: 0 <= j < |host| ==> !EndsNetloc(host[j])
    requires tail == "" || EndsNetloc(tail[0])
    ensures Netloc("//" + host + tail) == host
  {
    var rest := "//" + host + tail;
    assert rest[..2] == "//";
    assert forall j :: 2 <= j < 2 + |host| ==> rest[j] == host[j - 2];
    if tail != "" {
      assert rest[2 + |host|] == tail[0];
    }
    assert NetlocEnd(rest, 2) == 2 + |host|;
    assert rest[2..2 + |host|] == host;
  }

  /** Every url made of an http or https scheme (in any case), "://", a
      non-empty host without '/', '?', '#' or brackets, and a remainder
      that starts a path, query or fragment, is valid. */
  lemma ValidUrlsAccepted(scheme: string, host: string, tail: string)
    requires Lower(scheme) == "http" || Lower(scheme) == "https"
    requires host != "" && forall j :: 0 <= j < |host| ==> !EndsNetloc(host[j]) && host[j] != '[' && host[j] != ']'
    requires tail == "" || EndsNetloc(tail[0])
    ensures IsValidUrl(scheme + "://" + host + tail)
  {
    var l := Lower(scheme);
    forall j | 0 <= j < |scheme|
      ensures IsAsciiAlpha(scheme[j])
    {
      assert IsLowerAscii(l[j]);
    }
    var rest := "//" + host + tail;
    assert scheme + "://" + host + tail == scheme + ":" + rest;
    SplitSchemeAt(scheme, rest);
    NetlocAt(host, tail);
  }

  // --------------------------------------------------------- timeouts

  /** The settings attribute the global timeout is taken from; None stands
      for an attribute the settings object does not have. */
  datatype AppSettings = AppSettings(ollamaRequestTimeout: Option<Json>)

  const DefaultTimeout := 30

  /** The global timeout: 30, or the settings' `ollama_request_timeout`
      when there are settings that have it. */
  function GlobalTimeout(settings: Option<AppSettings>): Json {
    if settings.Some? && settings.value.ollamaRequestTimeout.Some? then settings.value.ollamaRequestTimeout.value
    else JInt(DefaultTimeout)
  }

  /** The timeout of one call: the call's own when it is a positive
      number, the global one when it is None or not positive; anything else
      cannot be compared with 0. */
  function EffectiveTimeout(timeout: Json, global: Json): (r: Result<Json>)
    ensures r.Ok? <==> timeout.JNull? || IsInt(timeout)
    ensures r.Ok? ==> (r.value == timeout <==> IsInt(timeout) && IntValue(timeout) > 0) || r.value == global
    ensures r.Ok? && IsInt(timeout) && IntValue(timeout) > 0 ==> r.value == timeout
    ensures r.Ok? && !(IsInt(timeout) && IntValue(timeout) > 0) ==> r.value == global
  {
    if timeout.JNull? then Ok(global)
    else if !IsInt(timeout) then
      Raised(Exc("TypeError", "'>' not supported between instances of '" + TypeName(timeout) + "' and 'int'"))
    else if IntValue(timeout) > 0 then Ok(timeout)
    else Ok(global)
  }

  // ----------------------------------------------------------- chunks

  /** All the bytes of a chunk stream. */
  function Flatten(chunks: seq<seq<byte>>): seq<byte> {
    if chunks == [] then [] else chunks[0] + Flatten(chunks[1..])
  }

  /** Each piece decoded on its own, the texts joined. */
  function DecodeEach(pieces: seq<seq<byte>>, encoding: string, decode: (string, seq<byte>) -> string): string {
    if pieces == [] then "" else decode(encoding, pieces[0]) + DecodeEach(pieces[1..], encoding, decode)
  }

  lemma {:induction false} FlattenAppend(a: seq<seq<byte>>, b: seq<seq<byte>>)
    ensures Flatten(a + b) == Flatten(a) + Flatten(b)
  {
    if a != [] {
      assert (a + b)[0] == a[0] && (a + b)[1..] == a[1..] + b;
      FlattenAppend(a[1..], b);
      assert Flatten(a + b) == a[0] + (Flatten(a[1..]) + Flatten(b));
    } else {
      assert a + b == b;
    }
  }

  lemma {:induction false} DecodeEachAppend(a: seq<seq<byte>>, b: seq<seq<byte>>, encoding: string, decode: (string, seq<byte>) -> string)
    ensures DecodeEach(a + b, encoding, decode) == DecodeEach(a, encoding, decode) + DecodeEach(b, encoding, decode)
  {
    if a != [] {
      assert (a + b)[0] == a[0] && (a + b)[1..] == a[1..] + b;
      DecodeEachAppend(a[1..], b, encoding, decode);
      assert DecodeEach(a + b, encoding, decode) ==
             decode(encoding, a[0]) + (DecodeEach(a[1..], encoding, decode) + DecodeEach(b, encoding, decode));
    } else {
      assert a + b == b;
    }
  }

  /** The byte limit: a positive `max_bytes`, or 0 for no limit. */
  function Limit(maxBytes: Option<int>): nat {
    if maxBytes.Some? && maxBytes.value > 0 then maxBytes.value else 0
  }

  /** The pieces of the chunk stream the loop decodes, once `read` bytes
      have been read: with a limit, the chunk that reaches it is cut to the
      bytes still allowed and ends the stream. */
  function Pieces(chunks: seq<seq<byte>>, limit: nat, read: nat): seq<seq<byte>>
    requires limit == 0 || read < limit
  {
    if chunks == [] then []
    else if limit > 0 && read + |chunks[0]| >= limit then [chunks[0][..limit - read]]
    else [chunks[0]] + Pieces(chunks[1..], limit, read + |chunks[0]|)
  }

  function Min(a: int, b: int): int {
    if a < b then a else b
  }

  /** Without a limit every chunk is read whole. */
  lemma {:induction false} PiecesUnlimited(chunks: seq<seq<byte>>, read: nat)
    ensures Pieces(chunks, 0, read) == chunks
  {
    if chunks != [] {
      PiecesUnlimited(chunks[1..], read + |chunks[0]|);
    }
  }

  /** With a limit, the bytes read are the first `limit - read` bytes of
      the stream, or all of them when it is shorter. */
  lemma {:induction false} PiecesLimited(chunks: seq<seq<byte>>, limit: nat, read: nat)
    requires read < limit
    ensures Flatten(Pieces(chunks, limit, read)) == Flatten(chunks)[..Min(limit - read, |Flatten(chunks)|)]
  {
    if chunks != [] {
      var c := chunks[0];
      if read + |c| >= limit {
        assert Flatten([c[..limit - read]]) == c[..limit - read] + Flatten([]);
        assert Flatten(chunks) == c + Flatten(chunks[1..]);
      } else {
        PiecesLimited(chunks[1..], limit, read + |c|);
        WholeChunk(chunks, limit, read);
      }
    }
  }

  /** The step of PiecesLimited where the first chunk is read whole. */
  lemma WholeChunk(chunks: seq<seq<byte>>, limit: nat, read: nat)
    requires chunks != [] && read + |chunks[0]| < limit
    requires var n := Min(limit - read - |chunks[0]|, |Flatten(chunks[1..])|);
             Flatten(Pieces(chunks[1..], limit, read + |chunks[0]|)) == Flatten(chunks[1..])[..n]
    ensures Flatten(Pieces(chunks, limit, read)) == Flatten(chunks)[..Min(limit - read, |Flatten(chunks)|)]
  {
    var c := chunks[0];
    var tail := Flatten(chunks[1..]);
    var n := Min(limit - read - |c|, |tail|);
    FlattenAppend([c], Pieces(chunks[1..], limit, read + |c|));
    assert Flatten([c]) == c + Flatten([]);
    assert Flatten(chunks) == c + tail;
    assert (c + tail)[..|c| + n] == c + tail[..n];
  }

  /** The bytes read with a positive limit: a prefix of the stream, no
      longer than the limit, and all of it when it is shorter. */
  lemma BytesReadBounded(chunks: seq<seq<byte>>, maxBytes: Option<int>)
    requires Limit(maxBytes) > 0
    ensures var got := Flatten(Pieces(chunks, Limit(maxBytes), 0));
            got <= Flatten(chunks) && |got| <= maxBytes.value &&
            (|Flatten(chunks)| <= maxBytes.value ==> got == Flatten(chunks))
  {
    PiecesLimited(chunks, Limit(maxBytes), 0);
  }

  // ------------------------------------------------------------ fetch

  const UserAgent := "OdysseyAgent/0.1 (+http://example.com/odyssey)"

  /** A GET: the url, the User-Agent header and the timeout. */
  datatype FetchRequest = FetchRequest(url: string, userAgent: string, timeout: Json)

  /** What the streamed `requests.get` does: a response with its status,
      reason, encoding and body chunks, a timeout, another request failure,
      or any other error. */
  datatype GetReply =
    | Responded(status: int, reason: string, encoding: Option<string>, chunks: seq<seq<byte>>)
    | TimedOut
    | RequestFailed(msg: string)
    | Crashed(msg: string)

  /** The `max_bytes` a call leaves out. */
  const DefaultMaxBytes := 8192

  /** Leaving `max_bytes` out keeps the first 8192 bytes of the body (all of
      a shorter one), while passing None or a limit below 1 keeps every
      chunk whole. */
  lemma OmittedLimit(chunks: seq<seq<byte>>, given: Option<int>)
    requires given.None? || given.value <= 0
    ensures var got := Flatten(Pieces(chunks, Limit(ArgOr(Omitted, Some(DefaultMaxBytes))), 0));
            got <= Flatten(chunks) && |got| <= 8192 && (|Flatten(chunks)| <= 8192 ==> got == Flatten(chunks))
    ensures Pieces(chunks, Limit(ArgOr(Given(given), Some(DefaultMaxBytes))), 0) == chunks
  {
    BytesReadBounded(chunks, Some(DefaultMaxBytes));
    PiecesUnlimited(chunks, 0);
  }

  function InvalidUrl(url: string): string {
    "Invalid URL: '" + url + "'. Must be a valid HTTP/HTTPS URL."
  }

  /** The text of a successful response: its pieces decoded under the
      response's encoding, utf-8 when it has none. */
  function Content(chunks: seq<seq<byte>>, encoding: Option<string>, maxBytes: Option<int>,
                   decode: (string, seq<byte>) -> string): string {
    DecodeEach(Pieces(chunks, Limit(maxBytes), 0), OrElse(encoding, "utf-8"), decode)
  }

  /** The answer to the GET of `url` made with timeout `timeout`. */
  function FetchAnswer(reply: GetReply, url: string, timeout: Json, maxBytes: Option<int>,
                       decode: (string, seq<byte>) -> string): (r: Json)
    ensures r.JObj? && "status" in r.fields
    ensures r.fields["status"] == JStr("success") <==> reply.Responded? && !(400 <= reply.status < 600)
    ensures reply.Responded? && !(400 <= reply.status < 600) ==>
              r == SuccessResult(JStr(Content(reply.chunks, reply.encoding, maxBytes, decode)), "success")
  {
    match reply
    case Responded(status, reason, encoding, chunks) =>
      if 400 <= status < 600 then
        ErrorResult("HTTP error fetching URL '" + url + "': " + IntToString(status) + " " + reason)
      else SuccessResult(JStr(Content(chunks, encoding, maxBytes, decode)), "success")
    case TimedOut => ErrorResult("Timeout fetching URL '" + url + "' after " + Str(timeout) + "s.")
    case RequestFailed(msg) => ErrorResult("Error fetching URL '" + url + "': " + msg)
    case Crashed(msg) => ErrorResult("An unexpected error occurred while fetching URL '" + url + "': " + msg)
  }

  /** The fetch_url tool with the global timeout its constructor chose. */
  class FetchUrlTool {
    const globalTimeout: Json

    constructor(settings: Option<AppSettings>)
      ensures globalTimeout == GlobalTimeout(settings)
    {
      globalTimeout := JInt(DefaultTimeout);
      if settings.Some? && settings.value.ollamaRequestTimeout.Some? {
        globalTimeout := settings.value.ollamaRequestTimeout.value;
      }
    }

    /** The chunk loop: each chunk is decoded and counted; with a positive
        `max_bytes`, the chunk that would pass it is cut to the bytes still
        allowed, and the loop stops once the limit is reached. */
    method ReadChunks(chunks: seq<seq<byte>>, maxBytes: Option<int>, encoding: string,
                      decode: (string, seq<byte>) -> string)
      returns (content: string, bytesRead: nat)
      ensures content == DecodeEach(Pieces(chunks, Limit(maxBytes), 0), encoding, decode)
      ensures bytesRead == |Flatten(Pieces(chunks, Limit(maxBytes), 0))|
    {
      var limit := Limit(maxBytes);
      content := "";
      bytesRead := 0;
      var rest := chunks;
      ghost var done: seq<seq<byte>> := [];
      while rest != []
        invariant limit == 0 || bytesRead < limit
        invariant Pieces(chunks, limit, 0) == done + Pieces(rest, limit, bytesRead)
        invariant bytesRead == |Flatten(done)|
        invariant content == DecodeEach(done, encoding, decode)
        decreases |rest|
      {
        var chunk := rest[0];
        ReadStep(done, rest, limit, bytesRead, encoding, decode);
        if limit > 0 && bytesRead + |chunk| > limit {
          var remaining := limit - bytesRead;
          content := content + decode(encoding, chunk[..remaining]);
          bytesRead := bytesRead + remaining;
          break;
        }
        ghost var before := bytesRead;
        content := content + decode(encoding, chunk);
        bytesRead := bytesRead + |chunk|;
        if limit > 0 && bytesRead >= limit {
          assert chunk[..limit - before] == chunk;
          break;
        }
        done := done + [chunk];
        rest := rest[1..];
      }
      assert done + [] == done;
    }

    /** Fetches `url`: the timeout is chosen (a timeout that is not a
        number raises), an invalid url is refused before any request, and
        otherwise the one GET is made and its reply turned into the answer.
        `sent` is that request. A call that leaves `max_bytes` out reads
        at most 8192 bytes; one that passes None reads the whole body. */
    method Execute(url: string, maxBytesArg: Arg<Option<int>>, timeout: Json,
                   get: FetchRequest -> GetReply, decode: (string, seq<byte>) -> string)
      returns (r: Result<Json>, sent: Option<FetchRequest>)
      ensures EffectiveTimeout(timeout, globalTimeout).Raised? ==>
                r == Raised(EffectiveTimeout(timeout, globalTimeout).exc) && sent.None?
      ensures EffectiveTimeout(timeout, globalTimeout).Ok? && !IsValidUrl(url) ==>
                r == Ok(ErrorResult(InvalidUrl(url))) && sent.None?
      ensures sent.Some? <==> EffectiveTimeout(timeout, globalTimeout).Ok? && IsValidUrl(url)
      ensures sent.Some? ==>
                sent.value == FetchRequest(url, UserAgent, EffectiveTimeout(timeout, globalTimeout).value) &&
                r == Ok(FetchAnswer(get(sent.value), url, sent.value.timeout, ArgOr(maxBytesArg, Some(DefaultMaxBytes)), decode))
    {
      var maxBytes := ArgOr(maxBytesArg, Some(DefaultMaxBytes));
      var effective := EffectiveTimeout(timeout, globalTimeout);
      if effective.Raised? {
        return Raised(effective.exc), None;
      }
      if !IsValidUrl(url) {
        return Ok(ErrorResult(InvalidUrl(url))), None;
      }
      var request := FetchRequest(url, UserAgent, effective.value);
      sent := Some(request);
      var reply := get(request);
      var answer := Answer(reply, url, effective.value, maxBytes, decode);
      r := Ok(answer);
    }

    /** The reply turned into the answer: an error status raises in
        `raise_for_status`, a good one has its body read. */
    method Answer(reply: GetReply, url: string, timeout: Json, maxBytes: Option<int>,
                  decode: (string, seq<byte>) -> string) returns (answer: Json)
      ensures answer == FetchAnswer(reply, url, timeout, maxBytes, decode)
    {
      match reply
      case Responded(status, reason, encoding, chunks) =>
        if 400 <= status < 600 {
          answer := ErrorResult("HTTP error fetching URL '" + url + "': " + IntToString(status) + " " + reason);
        } else {
          var content, _ := ReadChunks(chunks, maxBytes, OrElse(encoding, "utf-8"), decode);
          answer := SuccessResult(JStr(content), "success");
        }
      case TimedOut =>
        answer := ErrorResult("Timeout fetching URL '" + url + "' after " + Str(timeout) + "s.");
      case RequestFailed(msg) =>
        answer := ErrorResult("Error fetching URL '" + url + "': " + msg);
      case Crashed(msg) =>
        answer := ErrorResult("An unexpected error occurred while fetching URL '" + url + "': " + msg);
    }
  }

  /** Appending one piece extends the bytes and the text by that piece. */
  lemma LastPiece(done: seq<seq<byte>>, piece: seq<byte>, encoding: string, decode: (string, seq<byte>) -> string)
    ensures Flatten(done + [piece]) == Flatten(done) + piece
    ensures DecodeEach(done + [piece], encoding, decode) == DecodeEach(done, encoding, decode) + decode(encoding, piece)
  {
    FlattenAppend(done, [piece]);
    DecodeEachAppend(done, [piece], encoding, decode);
    assert [piece][1..] == [];
    assert Flatten([piece]) == piece;
    assert DecodeEach([piece], encoding, decode) == decode(encoding, piece);
  }

  /** One turn of the chunk loop, after the chunks `done`: the next chunk
      either reaches the limit and is the last piece, cut to the bytes still
      allowed, or is read whole and the pieces go on from the chunk after. */
  lemma ReadStep(done: seq<seq<byte>>, rest: seq<seq<byte>>, limit: nat, read: nat, encoding: string,
                 decode: (string, seq<byte>) -> string)
    requires rest != [] && (limit == 0 || read < limit)
    ensures var c := rest[0];
            limit > 0 && read + |c| >= limit ==>
              var all := done + [c[..limit - read]];
              done + Pieces(rest, limit, read) == all &&
              DecodeEach(all, encoding, decode) == DecodeEach(done, encoding, decode) + decode(encoding, c[..limit - read]) &&
              |Flatten(all)| == |Flatten(done)| + (limit - read)
    ensures var c := rest[0];
            !(limit > 0 && read + |c| >= limit) ==>
              done + Pieces(rest, limit, read) == (done + [c]) + Pieces(rest[1..], limit, read + |c|) &&
              DecodeEach(done + [c], encoding, decode) == DecodeEach(done, encoding, decode) + decode(encoding, c) &&
              |Flatten(done + [c])| == |Flatten(done)| + |c|
  {
    var c := rest[0];
    if limit > 0 && read + |c| >= limit {
      LastPiece(done, c[..limit - read], encoding, decode);
    } else {
      LastPiece(done, c, encoding, decode);
    }
  }
}
