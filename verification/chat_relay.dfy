/** The chat relay (`POST /api/chat`): it shapes the outbound request for the
    selected backend, translates the backend's stream into uniform frames
    `data: {"content": ...}` / `data: [DONE]`, or extracts the whole reply
    when streaming is off, and maps failures to error responses. */
module ChatRelay {
  import opened Js
  import opened Text
  import opened Wire
  import opened Chat

  /** The fields of a backend's JSON reply the relay reads; absent fields are `None`. */
  datatype BackendJson = BackendJson(
    messageContent: Option<string>,  // `message.content` (Ollama)
    done: bool,                      // truthiness of `done` (Ollama)
    deltaContent: Option<string>,    // `choices[0].delta.content` (LM Studio, streamed)
    choiceContent: Option<string>)   // `choices[0].message.content` (LM Studio, complete)

  /** Ollama's `options` object. */
  datatype OllamaOptions = OllamaOptions(
    temperature: real, numPredict: int, topP: real, topK: int, repeatPenalty: real)

  /** The outbound JSON body, one shape per backend. */
  datatype Body =
    | OllamaBody(model: string, messages: seq<Turn>, stream: bool, options: OllamaOptions)
    | CompletionsBody(model: string, messages: seq<Turn>, temperature: real, maxTokens: int,
                      topP: real, stream: bool)

  datatype Request = Request(endpoint: string, body: Body)

  /** One event of the relay's stream. */
  datatype Frame = Content(text: string) | Done

  const ConnectFallback := "Failed to connect to AI service"
  const ApiErrorPrefix := "API Error: "

  /** The number of turns with the given role. */
  function CountRole(turns: seq<Turn>, role: Role): nat {
    if turns == [] then 0
    else (if turns[0].role == role then 1 else 0) + CountRole(turns[1..], role)
  }

  /** The turns sent to the backend: a system turn holding a non-empty
      system prompt goes first; the caller's turns follow unchanged. */
  function OutboundTurns(messages: seq<Turn>, systemPrompt: string): (r: seq<Turn>)
    ensures systemPrompt == "" ==> r == messages
    ensures systemPrompt != "" ==> |r| == |messages| + 1 && r[0] == Turn(System, systemPrompt) && r[1..] == messages
  {
    if systemPrompt != "" then [Turn(System, systemPrompt)] + messages else messages
  }

  /** A system turn the caller already sent is kept: a non-empty prompt adds
      exactly one more. */
  lemma SystemTurnNotDeduplicated(messages: seq<Turn>, systemPrompt: string)
    requires systemPrompt != ""
    ensures CountRole(OutboundTurns(messages, systemPrompt), System) == CountRole(messages, System) + 1
  {
    var r := OutboundTurns(messages, systemPrompt);
    assert r[1..] == messages;
  }

  /** The endpoint and body for the selected backend. */
  function BuildRequest(messages: seq<Turn>, s: Settings): (r: Request)
    ensures r.body.messages == OutboundTurns(messages, s.systemPrompt)
    ensures r.body.model == s.model && r.body.stream == s.streamResponse
    ensures IsOllama(s.provider) ==>
      && r.endpoint == s.baseUrl + "/api/chat"
      && r.body.OllamaBody?
      && r.body.options == OllamaOptions(s.temperature, s.maxTokens, s.topP, s.topK, s.repeatPenalty)
    ensures !IsOllama(s.provider) ==>
      && r.endpoint == s.baseUrl + "/v1/chat/completions"
      && r.body.CompletionsBody?
      && r.body.temperature == s.temperature
      && r.body.maxTokens == s.maxTokens
      && r.body.topP == s.topP
  {
    var turns := OutboundTurns(messages, s.systemPrompt);
    if IsOllama(s.provider) then
      Request(s.baseUrl + "/api/chat",
              OllamaBody(s.model, turns, s.streamResponse,
                         OllamaOptions(s.temperature, s.maxTokens, s.topP, s.topK, s.repeatPenalty)))
    else
      Request(s.baseUrl + "/v1/chat/completions",
              CompletionsBody(s.model, turns, s.temperature, s.maxTokens, s.topP, s.streamResponse))
  }

  /** An LM Studio request never carries `topK` or `repeatPenalty`: changing
      them does not change the request. */
  lemma CompletionsIgnoreTopKAndRepeatPenalty(messages: seq<Turn>, s: Settings, topK: int, repeatPenalty: real)
    requires !IsOllama(s.provider)
    ensures BuildRequest(messages, s.(topK := topK, repeatPenalty := repeatPenalty)) == BuildRequest(messages, s)
  {
  }

  // ---------------------------------------------------------------------------
  // Stream translation

  /** Every content frame carries a non-empty fragment. */
  predicate ContentNonEmpty(frames: seq<Frame>) {
    forall i :: 0 <= i < |frames| ==> frames[i].Content? ==> frames[i].text != ""
  }

  lemma ContentNonEmptyAppend(a: seq<Frame>, b: seq<Frame>)
    requires ContentNonEmpty(a) && ContentNonEmpty(b)
    ensures ContentNonEmpty(a + b)
  {
    forall i | 0 <= i < |a + b| && (a + b)[i].Content?
      ensures (a + b)[i].text != ""
    {
      if i >= |a| {
        assert (a + b)[i] == b[i - |a|];
      }
    }
  }

  /** One line of Ollama's newline-delimited JSON: a content frame when
      `message.content` is truthy, then a `Done` frame when `done` is truthy;
      an unparsable line yields nothing. */
  function OllamaLine(line: string, parse: string -> Parsed<BackendJson>): (r: seq<Frame>)
    ensures |r| <= 2 && ContentNonEmpty(r)
    ensures parse(line).Malformed? ==> r == []
    ensures (|r| > 0 && r[0].Content?) <==> parse(line).Parsed? && Truthy(parse(line).value.messageContent)
    ensures |r| > 0 && r[0].Content? ==> r[0].text == parse(line).value.messageContent.value
    ensures (|r| > 0 && r[|r| - 1] == Done) <==> parse(line).Parsed? && parse(line).value.done
    ensures forall k :: 0 <= k < |r| - 1 ==> r[k].Content?
    ensures forall k :: 0 < k < |r| ==> r[k] == Done
  {
    match parse(line)
    case Malformed(_) => []
    case Parsed(j) =>
      (if Truthy(j.messageContent) then [Content(j.messageContent.value)] else [])
      + (if j.done then [Done] else [])
  }

  /** One line of LM Studio's server-sent events: only `data: ` lines count;
      a payload of exactly `[DONE]` is a `Done` frame, otherwise a truthy
      `choices[0].delta.content` is a content frame and anything else,
      unparsable payloads included, yields nothing. */
  function LmStudioLine(line: string, parse: string -> Parsed<BackendJson>): (r: seq<Frame>)
    ensures |r| <= 1 && ContentNonEmpty(r)
    ensures !StartsWith(line, DataPrefix) ==> r == []
    ensures StartsWith(line, DataPrefix) && EventData(line) == DoneMarker ==> r == [Done]
    ensures StartsWith(line, DataPrefix) && EventData(line) != DoneMarker ==>
      var p := parse(EventData(line));
      && (r != [] <==> p.Parsed? && Truthy(p.value.deltaContent))
      && (r != [] ==> r == [Content(p.value.deltaContent.value)])
  {
    if !StartsWith(line, DataPrefix) then []
    else
      var data := EventData(line);
      if data == DoneMarker then [Done]
      else
        match parse(data)
        case Malformed(_) => []
        case Parsed(j) => if Truthy(j.deltaContent) then [Content(j.deltaContent.value)] else []
  }

  function TranslateLine(provider: string, line: string, parse: string -> Parsed<BackendJson>): (r: seq<Frame>)
    ensures ContentNonEmpty(r)
  {
    if IsOllama(provider) then OllamaLine(line, parse) else LmStudioLine(line, parse)
  }

  /** The frames of a list of lines, in line order. */
  function TranslateLines(provider: string, lines: seq<string>, parse: string -> Parsed<BackendJson>): (r: seq<Frame>)
    ensures ContentNonEmpty(r)
  {
    if lines == [] then []
    else
      var head := TranslateLine(provider, lines[0], parse);
      var tail := TranslateLines(provider, lines[1..], parse);
      ContentNonEmptyAppend(head, tail);
      head + tail
  }

  /** The frames of one chunk: its non-blank lines, translated in order.
      Nothing is carried over from one chunk to the next. */
  function TranslateChunk(provider: string, chunk: string, parse: string -> Parsed<BackendJson>): (r: seq<Frame>)
    ensures ContentNonEmpty(r)
  {
    TranslateLines(provider, NonBlankLines(chunk), parse)
  }

  /** The non-blank lines of every chunk, chunk after chunk. */
  function StreamLines(chunks: seq<string>): (r: seq<string>)
    ensures forall i :: 0 <= i < |r| ==> !IsBlank(r[i]) && '\n' !in r[i]
  {
    if chunks == [] then []
    else
      var head := NonBlankLines(chunks[0]);
      var tail := StreamLines(chunks[1..]);
      assert forall i :: |head| <= i < |head + tail| ==> (head + tail)[i] == tail[i - |head|];
      head + tail
  }

  /** The frames of a whole stream: its chunks' non-blank lines translated in
      order. No `Done` is added at the end and repeated ones are kept. */
  function RelayFrames(provider: string, chunks: seq<string>, parse: string -> Parsed<BackendJson>): (r: seq<Frame>)
    ensures ContentNonEmpty(r)
  {
    TranslateLines(provider, StreamLines(chunks), parse)
  }

  lemma {:induction false} TranslateLinesAppend(provider: string, a: seq<string>, b: seq<string>,
                                                parse: string -> Parsed<BackendJson>)
    ensures TranslateLines(provider, a + b, parse) == TranslateLines(provider, a, parse) + TranslateLines(provider, b, parse)
  {
    if a == [] {
      assert a + b == b;
    } else {
      assert (a + b)[0] == a[0] && (a + b)[1..] == a[1..] + b;
      TranslateLinesAppend(provider, a[1..], b, parse);
    }
  }

  lemma {:induction false} StreamLinesAppend(a: seq<string>, b: seq<string>)
    ensures StreamLines(a + b) == StreamLines(a) + StreamLines(b)
  {
    if a == [] {
      assert a + b == b;
    } else {
      assert (a + b)[0] == a[0] && (a + b)[1..] == a[1..] + b;
      StreamLinesAppend(a[1..], b);
    }
  }

  /** Frames follow chunk order: the frames of two consecutive stretches of
      the stream are the frames of the first followed by those of the second. */
  lemma RelayFramesAppend(provider: string, a: seq<string>, b: seq<string>,
                          parse: string -> Parsed<BackendJson>)
    ensures RelayFrames(provider, a + b, parse) == RelayFrames(provider, a, parse) + RelayFrames(provider, b, parse)
  {
    StreamLinesAppend(a, b);
    TranslateLinesAppend(provider, StreamLines(a), StreamLines(b), parse);
  }

  /** A stream of one chunk yields that chunk's frames. */
  lemma RelayFramesOfChunk(provider: string, chunk: string, parse: string -> Parsed<BackendJson>)
    ensures RelayFrames(provider, [chunk], parse) == TranslateChunk(provider, chunk, parse)
  {
    StreamLinesOfChunk(chunk);
  }

  lemma StreamLinesOfChunk(chunk: string)
    ensures StreamLines([chunk]) == NonBlankLines(chunk)
  {
    assert [chunk][1..] == [];
    assert StreamLines([chunk][1..]) == [];
    assert NonBlankLines(chunk) + [] == NonBlankLines(chunk);
  }

  /** A line whose JSON cannot be parsed: a bare line for Ollama, the
      payload of a `data: ` line other than `[DONE]` for LM Studio. */
  predicate Unparsable(provider: string, line: string, parse: string -> Parsed<BackendJson>) {
    if IsOllama(provider) then parse(line).Malformed?
    else StartsWith(line, DataPrefix) && EventData(line) != DoneMarker && parse(EventData(line)).Malformed?
  }

  /** An unparsable line among valid ones is skipped: the stream neither
      aborts nor changes. */
  lemma UnparsableLineSkipped(provider: string, before: seq<string>, line: string, after: seq<string>,
                              parse: string -> Parsed<BackendJson>)
    requires Unparsable(provider, line, parse)
    ensures TranslateLines(provider, before + [line] + after, parse) == TranslateLines(provider, before + after, parse)
  {
    assert TranslateLine(provider, line, parse) == [];
    TranslateLinesAppend(provider, before + [line], after, parse);
    TranslateLinesAppend(provider, before, [line], parse);
    TranslateLinesAppend(provider, before, after, parse);
  }

  /** Blank lines emit nothing: a chunk made of the given lines yields the
      frames of its non-blank lines alone. */
  lemma ChunkOfLines(provider: string, lines: seq<string>, parse: string -> Parsed<BackendJson>)
    requires |lines| > 0
    requires forall i :: 0 <= i < |lines| ==> '\n' !in lines[i]
    ensures TranslateChunk(provider, JoinLines(lines), parse) == TranslateLines(provider, KeepNonBlank(lines), parse)
  {
    LinesOfJoinLines(lines);
  }

  /** The line signals the end of the backend's reply. */
  predicate SignalsDone(provider: string, line: string, parse: string -> Parsed<BackendJson>) {
    if IsOllama(provider) then parse(line).Parsed? && parse(line).value.done
    else StartsWith(line, DataPrefix) && EventData(line) == DoneMarker
  }

  function CountSignals(provider: string, lines: seq<string>, parse: string -> Parsed<BackendJson>): nat {
    if lines == [] then 0
    else (if SignalsDone(provider, lines[0], parse) then 1 else 0) + CountSignals(provider, lines[1..], parse)
  }

  function CountDone(frames: seq<Frame>): nat {
    if frames == [] then 0
    else (if frames[0] == Done then 1 else 0) + CountDone(frames[1..])
  }

  lemma {:induction false} CountDoneAppend(a: seq<Frame>, b: seq<Frame>)
    ensures CountDone(a + b) == CountDone(a) + CountDone(b)
  {
    if a == [] {
      assert a + b == b;
    } else {
      assert (a + b)[1..] == a[1..] + b;
      CountDoneAppend(a[1..], b);
    }
  }

  /** Every done-signal of the backend yields exactly one `Done` frame, and
      no other `Done` frame is produced. */
  lemma {:induction false} DoneFramesMatchSignals(provider: string, lines: seq<string>,
                                                  parse: string -> Parsed<BackendJson>)
    ensures CountDone(TranslateLines(provider, lines, parse)) == CountSignals(provider, lines, parse)
  {
    if lines != [] {
      var head := TranslateLine(provider, lines[0], parse);
      DoneFramesMatchSignals(provider, lines[1..], parse);
      CountDoneAppend(head, TranslateLines(provider, lines[1..], parse));
      if IsOllama(provider) {
        assert CountDone(head) == if SignalsDone(provider, lines[0], parse) then 1 else 0 by {
          if |head| == 2 {
            assert head[1..][1..] == [];
          } else if |head| == 1 {
            assert head[1..] == [];
          }
        }
      } else {
        if |head| == 1 {
          assert head[1..] == [];
        }
      }
    }
  }

  // ---------------------------------------------------------------------------
  // Output framing and the handler

  /** The fragments the frames carry, in order. */
  function Contents(frames: seq<Frame>): seq<string> {
    if frames == [] then [] else (if frames[0].Content? then [frames[0].text] else []) + Contents(frames[1..])
  }

  /** The frames before the first `Done`. */
  function UpToDone(frames: seq<Frame>): seq<Frame> {
    if frames == [] || frames[0] == Done then [] else [frames[0]] + UpToDone(frames[1..])
  }

  /** The line of a frame, without its terminating blank line. */
  function FrameLine(f: Frame, stringify: Payload -> string): (r: string)
    ensures StartsWith(r, DataPrefix)
    ensures f.Done? ==> EventData(r) == DoneMarker
    ensures f.Content? ==> EventData(r) == stringify(ContentPayload(f.text))
  {
    match f
    case Content(c) => DataPrefix + stringify(ContentPayload(c))
    case Done => DataPrefix + DoneMarker
  }

  /** A frame as the relay writes it: `data: <json>\n\n`. */
  function EncodeFrame(f: Frame, stringify: Payload -> string): (r: string)
    ensures |r| >= 2 && r[..|r| - 2] == FrameLine(f, stringify) && r[|r| - 2..] == "\n\n"
  {
    FrameLine(f, stringify) + "\n\n"
  }

  /** Each frame is enqueued as a chunk of its own. */
  function EncodeFrames(frames: seq<Frame>, stringify: Payload -> string): (r: seq<string>)
    ensures |r| == |frames|
    ensures forall i :: 0 <= i < |r| ==> r[i] == EncodeFrame(frames[i], stringify)
  {
    if frames == [] then [] else [EncodeFrame(frames[0], stringify)] + EncodeFrames(frames[1..], stringify)
  }

  /** The whole reply of a non-streamed call: `message.content` for Ollama,
      `choices[0].message.content` otherwise, and `""` when that field is
      absent or empty. */
  function CompleteContent(provider: string, j: BackendJson): (r: string)
    ensures IsOllama(provider) ==> (r != "" <==> Truthy(j.messageContent))
    ensures !IsOllama(provider) ==> (r != "" <==> Truthy(j.choiceContent))
    ensures r != "" ==> Some(r) == (if IsOllama(provider) then j.messageContent else j.choiceContent)
  {
    if IsOllama(provider) then OrElse(j.messageContent, "") else OrElse(j.choiceContent, "")
  }

  /** The handler. `backend` stands for `fetch`; `parse` for `JSON.parse` of a
      backend reply and `stringify` for `JSON.stringify` of the relay's own
      payloads. */
  function Post(messages: seq<Turn>, settings: Settings, backend: Request -> Fetched,
                parse: string -> Parsed<BackendJson>, stringify: Payload -> string): (r: HttpResponse)
    ensures var f := backend(BuildRequest(messages, settings));
      && (f.Threw? ==> r == JsonResponse(500, ErrorPayload(Or(f.message, ConnectFallback)), stringify))
      && (f.Received? && !f.response.Ok() ==>
            r == JsonResponse(f.response.status, ErrorPayload(ApiErrorPrefix + f.response.Body()), stringify))
      && (f.Received? && f.response.Ok() && settings.streamResponse ==>
            r == HttpResponse(200, EncodeFrames(RelayFrames(settings.provider, f.response.chunks, parse), stringify)))
      && (f.Received? && f.response.Ok() && !settings.streamResponse ==>
            match parse(f.response.Body())
            case Malformed(m) => r == JsonResponse(500, ErrorPayload(Or(m, ConnectFallback)), stringify)
            case Parsed(j) => r == JsonResponse(200, ContentPayload(CompleteContent(settings.provider, j)), stringify))
    ensures var f := backend(BuildRequest(messages, settings));
      r.Ok() <==> f.Received? && f.response.Ok() && (settings.streamResponse || parse(f.response.Body()).Parsed?)
  {
    match backend(BuildRequest(messages, settings))
    case Threw(m) => JsonResponse(500, ErrorPayload(Or(m, ConnectFallback)), stringify)
    case Received(resp) =>
      if !resp.Ok() then
        JsonResponse(resp.status, ErrorPayload(ApiErrorPrefix + resp.Body()), stringify)
      else if settings.streamResponse then
        HttpResponse(200, EncodeFrames(RelayFrames(settings.provider, resp.chunks, parse), stringify))
      else
        match parse(resp.Body())
        case Malformed(m) => JsonResponse(500, ErrorPayload(Or(m, ConnectFallback)), stringify)
        case Parsed(j) => JsonResponse(200, ContentPayload(CompleteContent(settings.provider, j)), stringify)
  }
}
