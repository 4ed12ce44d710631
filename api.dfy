/** The two FastAPI endpoints of backend/app/main.py: the `/pdf` history
    normalisation and response header, the `/chat` reply extraction, and the
    mapping of any exception to HTTP 500. The agent run, ReportLab's layout
    and `urllib.parse.quote` arrive as parameters. */
module Api {
  import opened Base
  import opened Protocol
  import Graph
  import PdfService

  /** One `history` entry: only `role` and `content` survive, with the
      defaults `"unknown"` and `""`. */
  function NormalizeEntry(msg: map<string, string>): (e: map<string, string>)
    ensures e.Keys == {"role", "content"}
    ensures e["role"] == (if "role" in msg then msg["role"] else "unknown")
    ensures e["content"] == (if "content" in msg then msg["content"] else "")
  {
    map["role" := PdfService.Get(msg, "role", "unknown"), "content" := PdfService.Get(msg, "content", "")]
  }

  function NormalizedHistory(messages: seq<map<string, string>>): (h: seq<map<string, string>>)
    ensures |h| == |messages|
    ensures forall i :: 0 <= i < |messages| ==> h[i] == NormalizeEntry(messages[i])
  {
    seq(|messages|, i requires 0 <= i < |messages| => NormalizeEntry(messages[i]))
  }

  /** The loop in `pdf_endpoint` that builds `history`. */
  method BuildHistory(messages: seq<map<string, string>>) returns (history: seq<map<string, string>>)
    ensures history == NormalizedHistory(messages)
  {
    history := [];
    if |messages| > 0 {
      for i := 0 to |messages|
        invariant |history| == i
        invariant forall j :: 0 <= j < i ==> history[j] == NormalizeEntry(messages[j])
      {
        var msg := messages[i];
        var role := if "role" in msg then msg["role"] else "unknown";
        history := history + [map["role" := role, "content" := if "content" in msg then msg["content"] else ""]];
      }
    }
  }

  /** Normalising twice changes nothing more. */
  lemma NormalizeIdempotent(messages: seq<map<string, string>>)
    ensures NormalizedHistory(NormalizedHistory(messages)) == NormalizedHistory(messages)
  {
    var h := NormalizedHistory(messages);
    forall i | 0 <= i < |h|
      ensures NormalizeEntry(h[i]) == h[i]
    {
      assert NormalizeEntry(h[i]).Keys == h[i].Keys;
    }
  }

  /** The records the client sends (`{role, content}` for every message)
      come through normalisation unchanged. */
  lemma ClientMessagesUnchanged(ms: seq<Message>)
    ensures NormalizedHistory(ToDicts(ms)) == ToDicts(ms)
  {
    var d := ToDicts(ms);
    forall i | 0 <= i < |d|
      ensures NormalizeEntry(d[i]) == d[i]
    {
      assert NormalizeEntry(d[i]).Keys == d[i].Keys;
    }
  }

  /** The `filename*` parameter name, then an ext-value's charset and its
      (empty) language tag. */
  const DispositionPrefix := "attachment; filename*=" + "UTF-8''"

  /** The `Content-Disposition` value for a title; `quote` is
      `urllib.parse.quote`. */
  function ContentDisposition(title: string, quote: string -> string): (v: string)
    ensures |v| == |DispositionPrefix| + |quote(title)| + 4
  {
    DispositionPrefix + quote(title) + ".pdf"
  }

  /** The filename a client reads back out of a `filename*` value with our
      prefix. */
  function FilenameOf(disposition: string): Option<string>
  {
    if |DispositionPrefix| <= |disposition| && disposition[..|DispositionPrefix|] == DispositionPrefix
    then Some(disposition[|DispositionPrefix|..])
    else None
  }

  lemma FilenameRoundTrip(title: string, quote: string -> string)
    ensures FilenameOf(ContentDisposition(title, quote)) == Some(quote(title) + ".pdf")
  {
    var v := ContentDisposition(title, quote);
    assert v == DispositionPrefix + (quote(title) + ".pdf");
  }

  /** `attr-char` of section 3.2.1 of RFC 5987. */
  predicate IsAttrChar(c: char)
  {
    ('a' <= c <= 'z') || ('A' <= c <= 'Z') || ('0' <= c <= '9') ||
    c in "!#$&+-.^_`|~"
  }

  predicate IsHexDigit(c: char)
  {
    ('0' <= c <= '9') || ('A' <= c <= 'F') || ('a' <= c <= 'f')
  }

  /** `value-chars = *( pct-encoded / attr-char )` of section 3.2.1 of
      RFC 5987. */
  predicate IsValueChars(s: string)
    decreases |s|
  {
    if s == [] then true
    else if s[0] == '%' then |s| >= 3 && IsHexDigit(s[1]) && IsHexDigit(s[2]) && IsValueChars(s[3..])
    else IsAttrChar(s[0]) && IsValueChars(s[1..])
  }

  lemma {:induction false} ValueCharsAppend(a: string, b: string)
    requires IsValueChars(a) && IsValueChars(b)
    ensures IsValueChars(a + b)
    decreases |a|
  {
    if a == [] {
      assert a + b == b;
    } else if a[0] == '%' {
      var ab := a + b;
      assert ab[0] == '%' && ab[1] == a[1] && ab[2] == a[2];
      assert ab[3..] == a[3..] + b;
      ValueCharsAppend(a[3..], b);
    } else {
      var ab := a + b;
      assert ab[0] == a[0];
      assert ab[1..] == a[1..] + b;
      ValueCharsAppend(a[1..], b);
    }
  }

  /** `ext-value = charset "'" [ language ] "'" value-chars` of section 3.2
      of RFC 5987. */
  function ExtValue(charset: string, language: string, chars: string): string
  {
    charset + "'" + language + "'" + chars
  }

  lemma PdfSuffixIsValueChars()
    ensures IsValueChars(".pdf")
  {
    assert ".pdf"[1..] == "pdf";
    assert "pdf"[1..] == "df";
    assert "df"[1..] == "f";
    assert "f"[1..] == "";
  }

  /** When `quote` yields well-formed value characters, the header value is
      the `filename*` parameter of section 4.3 of RFC 6266 holding an
      `ext-value` of section 3.2 of RFC 5987: charset UTF-8, no language
      tag, value characters ending in ".pdf". */
  lemma DispositionIsExtValue(title: string, quote: string -> string)
    requires IsValueChars(quote(title))
    ensures ContentDisposition(title, quote) == "attachment; filename*=" + ExtValue("UTF-8", "", quote(title) + ".pdf")
    ensures IsValueChars(quote(title) + ".pdf")
  {
    var q := quote(title) + ".pdf";
    assert "UTF-8''" == "UTF-8" + "'" + "" + "'";
    assert ContentDisposition(title, quote) == "attachment; filename*=" + ("UTF-8''" + q);
    PdfSuffixIsValueChars();
    ValueCharsAppend(quote(title), ".pdf");
  }

  datatype Body = Json(fields: map<string, string>) | PdfDocument(story: seq<PdfService.Flowable>)

  datatype HttpResponse =
    | Response(status: nat, body: Body, headers: map<string, string>)
    | HttpException(status: nat, detail: string)

  /** `raise HTTPException(status_code=500, detail=str(e))` */
  function ServerError(detail: string): (r: HttpResponse)
    ensures r.HttpException? && r.status == 500 && r.detail == detail
  {
    HttpException(500, detail)
  }

  /** `/health` */
  function Health(): (r: HttpResponse)
    ensures r.Response? && r.status == 200 && r.body == Json(map["status" := "ok", "version" := "1.0.0-lite"])
  {
    Response(200, Json(map["status" := "ok", "version" := "1.0.0-lite"]), map[])
  }

  /** `/pdf`. `generatedAt` is the formatted clock; `fontFileExists` and
      `registrationFails` stand for the font file; `raised` is the message of
      an exception ReportLab throws while laying the story out, if any. */
  method PdfEndpoint(fonts: PdfService.FontRegistry, request: PdfRequest, quote: string -> string,
                     generatedAt: string, fontFileExists: bool, registrationFails: bool,
                     raised: Option<string>)
    returns (resp: HttpResponse)
    modifies fonts
    ensures fonts.registered == (old(fonts.registered) || (fontFileExists && !registrationFails))
    ensures raised.Some? ==> resp == ServerError(raised.value)
    ensures raised.None? ==> resp == Response(200,
      PdfDocument(PdfService.StoryOf(NormalizedHistory(request.messages), request.title, generatedAt,
                                     PdfService.FontFor(fonts.registered))),
      map["Content-Disposition" := ContentDisposition(request.title, quote)])
  {
    var history := BuildHistory(request.messages);
    var story := PdfService.GeneratePdf(fonts, history, request.title, generatedAt, fontFileExists, registrationFails);
    if raised.Some? {
      return ServerError(raised.value);
    }
    var encodedTitle := quote(request.title);
    resp := Response(200, PdfDocument(story),
      map["Content-Disposition" := DispositionPrefix + encodedTitle + ".pdf"]);
  }

  /** The reply `chat_endpoint` returns for the messages the agent run left,
      or the message of the exception it raised. */
  function ChatReply(run: Result<seq<Graph.AgentMessage>>): (r: HttpResponse)
    ensures run.Err? ==> r == ServerError(run.error)
    ensures run.Ok? && run.value == [] ==> r == ServerError("list index out of range")
    ensures run.Ok? && run.value != [] ==>
      r == Response(200, Json(map["content" := run.value[|run.value| - 1].content]), map[])
  {
    match run
    case Err(e) => ServerError(e)
    case Ok(messages) =>
      if messages == [] then ServerError("list index out of range")
      else Response(200, Json(map["content" := messages[|messages| - 1].content]), map[])
  }

  /** `/chat`. `buildError` is the message of an exception the tool or LLM
      constructors raise inside `get_graph_engine` (after the environment
      was updated), if any; `invoke` is the agent run on the built engine,
      for the session's thread and the user's message; `engine` is the
      engine the request was answered with. */
  method ChatEndpoint(env: map<string, string>, request: ChatRequest, buildError: Option<string>,
                      invoke: (Graph.Engine, string, string) -> Result<seq<Graph.AgentMessage>>)
    returns (env': map<string, string>, engine: Graph.Engine, resp: HttpResponse)
    ensures env' == env["TAVILY_API_KEY" := request.tavilyApiKey]
    ensures engine.llm.model == Graph.InferModelName(request.model, request.baseUrl)
    ensures engine.llm.apiKey == request.openaiApiKey && engine.llm.baseUrl == request.baseUrl
    ensures buildError.Some? ==> resp == ServerError(buildError.value)
    ensures buildError.None? ==> resp == ChatReply(invoke(engine, request.sessionId, request.message))
  {
    env', engine := Graph.GetGraphEngine(env, request.openaiApiKey, request.tavilyApiKey, request.baseUrl, request.model);
    if buildError.Some? {
      return env', engine, ServerError(buildError.value);
    }
    resp := ChatReply(invoke(engine, request.sessionId, request.message));
  }
}
