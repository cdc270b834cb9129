/** The page and the relay together: what the relay writes, the page reads
    back. The properties of `JSON.parse`/`JSON.stringify` the page and the
    relay share are the hypothesis `Inverse(parse, stringify)`. */
module EndToEnd {
  import opened Js
  import opened Text
  import opened Wire
  import opened Chat
  import opened Store
  import opened ChatRelay
  import opened ModelCatalog
  import opened Page
  import opened SettingsPanel

  /** The page's `fetch('/api/chat')` answered by the relay talking to `backend`. */
  function Relay(backend: Request -> Fetched, backendParse: string -> Parsed<BackendJson>,
                 stringify: Payload -> string): (seq<Turn>, Settings) -> Fetched
  {
    (turns: seq<Turn>, settings: Settings) => Received(Post(turns, settings, backend, backendParse, stringify))
  }

  /** The panel's `fetch('/api/models?...')` answered by the catalog talking
      to `backend`; both query parameters are always present. */
  function Catalog(backend: string -> Fetched, catalogParse: string -> Parsed<CatalogJson>,
                   stringify: Payload -> string): (string, string) -> Fetched
  {
    (provider: string, baseUrl: string) => Received(Get(Some(provider), Some(baseUrl), backend, catalogParse, stringify))
  }

  /** A JSON response of the relay or the catalog reads back as its payload. */
  lemma JsonResponseRead(status: int, p: Payload, parse: string -> Parsed<Payload>, stringify: Payload -> string)
    requires Inverse(parse, stringify)
    ensures JsonResponse(status, p, stringify).Body() == stringify(p)
    ensures parse(JsonResponse(status, p, stringify).Body()) == Parsed(p)
  {
    assert Concat([stringify(p)]) == stringify(p) + Concat([]);
  }

  lemma NoLineFeedInFrameLine(f: Frame, stringify: Payload -> string)
    requires forall p :: '\n' !in stringify(p)
    ensures '\n' !in FrameLine(f, stringify)
  {
    if f.Content? {
      var j := stringify(ContentPayload(f.text));
      assert FrameLine(f, stringify) == DataPrefix + j;
      forall k | 0 <= k < |DataPrefix + j| ensures (DataPrefix + j)[k] != '\n' {
        if k >= |DataPrefix| {
          assert (DataPrefix + j)[k] == j[k - |DataPrefix|];
        }
      }
    }
  }

  /** The page reads a frame's own line back as the frame's fragment, or as
      the end of the chunk for `Done`. */
  lemma FrameLineRead(f: Frame, parse: string -> Parsed<Payload>, stringify: Payload -> string)
    requires Inverse(parse, stringify)
    ensures var line := FrameLine(f, stringify);
      && !IsBlank(line) && '\n' !in line
      && ClientLine(line, parse) == (if f.Done? then Stop else if f.text != "" then Append(f.text) else Skip)
  {
    var line := FrameLine(f, stringify);
    NoLineFeedInFrameLine(f, stringify);
    assert line[0] == 'd';
    assert StartsWith(line, DataPrefix);
    if f.Content? {
      var j := stringify(ContentPayload(f.text));
      assert EventData(line) == j;
      assert StartsWith(j, "{");
      assert j != DoneMarker by {
        assert j[0] == '{';
      }
      assert parse(j) == Parsed(ContentPayload(f.text));
    } else {
      assert EventData(line) == DoneMarker;
    }
  }

  /** A frame enqueued as a chunk of its own: one non-blank line, then the
      blank line that ends the event. */
  lemma FrameChunkLines(f: Frame, parse: string -> Parsed<Payload>, stringify: Payload -> string)
    requires Inverse(parse, stringify)
    ensures NonBlankLines(EncodeFrame(f, stringify)) == [FrameLine(f, stringify)]
  {
    FrameLineRead(f, parse, stringify);
    EventLines(FrameLine(f, stringify));
  }

  /** The page decodes a relayed frame sent as its own chunk back into its fragment. */
  lemma FrameChunkRead(f: Frame, parse: string -> Parsed<Payload>, stringify: Payload -> string)
    requires Inverse(parse, stringify)
    requires f.Content? ==> f.text != ""
    ensures ClientChunk(EncodeFrame(f, stringify), parse) == Contents([f])
  {
    FrameChunkLines(f, parse, stringify);
    FrameLineRead(f, parse, stringify);
    var line := FrameLine(f, stringify);
    assert ClientChunk(EncodeFrame(f, stringify), parse) == ClientLines([line], parse);
    assert [line][1..] == [];
    assert [f][1..] == [];
    if f.Done? {
      assert ClientLines([line], parse) == [];
      assert Contents([f]) == [];
    } else {
      assert ClientLines([line], parse) == [f.text] + ClientLines([], parse);
      assert Contents([f]) == [f.text] + Contents([]);
    }
  }

  /** Round trip: the frames the relay writes, one chunk each, decoded by the
      page give back the fragments they carry, in order. `Done` frames add
      nothing and stop nothing. */
  lemma {:induction false} StreamRoundTrip(frames: seq<Frame>, parse: string -> Parsed<Payload>,
                                           stringify: Payload -> string)
    requires Inverse(parse, stringify)
    requires ContentNonEmpty(frames)
    ensures ClientStream(EncodeFrames(frames, stringify), parse) == Contents(frames)
  {
    if frames != [] {
      var chunks := EncodeFrames(frames, stringify);
      assert chunks[0] == EncodeFrame(frames[0], stringify);
      assert chunks[1..] == EncodeFrames(frames[1..], stringify);
      FrameChunkRead(frames[0], parse, stringify);
      assert ContentNonEmpty(frames[1..]) by {
        forall i | 0 <= i < |frames[1..]| && frames[1..][i].Content? ensures frames[1..][i].text != "" {
          assert frames[1..][i] == frames[i + 1];
        }
      }
      StreamRoundTrip(frames[1..], parse, stringify);
      assert [frames[0]][1..] == [];
    }
  }

  /** The same frames run together in a single chunk: the page keeps only
      the fragments before the first `Done`, because a `[DONE]` line drops
      the rest of its chunk. */
  lemma {:induction false} CoalescedStreamStopsAtDone(frames: seq<Frame>, parse: string -> Parsed<Payload>,
                                                      stringify: Payload -> string)
    requires Inverse(parse, stringify)
    requires ContentNonEmpty(frames)
    ensures ClientChunk(Concat(EncodeFrames(frames, stringify)), parse) == Contents(UpToDone(frames))
  {
    CoalescedLines(frames, parse, stringify);
    CoalescedLinesRead(frames, parse, stringify);
  }

  /** The lines of frames written back to back are the frames' own lines. */
  function FrameLines(frames: seq<Frame>, stringify: Payload -> string): (r: seq<string>)
    ensures |r| == |frames|
    ensures forall i :: 0 <= i < |r| ==> r[i] == FrameLine(frames[i], stringify)
  {
    if frames == [] then [] else [FrameLine(frames[0], stringify)] + FrameLines(frames[1..], stringify)
  }

  lemma {:induction false} CoalescedLines(frames: seq<Frame>, parse: string -> Parsed<Payload>,
                                          stringify: Payload -> string)
    requires Inverse(parse, stringify)
    ensures NonBlankLines(Concat(EncodeFrames(frames, stringify))) == FrameLines(frames, stringify)
  {
    if frames == [] {
      assert Concat(EncodeFrames(frames, stringify)) == "";
      assert Lines("") == [""];
    } else {
      var line := FrameLine(frames[0], stringify);
      var enc := EncodeFrames(frames, stringify);
      var rest := Concat(EncodeFrames(frames[1..], stringify));
      assert enc[1..] == EncodeFrames(frames[1..], stringify);
      assert Concat(enc) == line + "\n\n" + rest;
      FrameLineRead(frames[0], parse, stringify);
      EventLinesThen(line, rest);
      CoalescedLines(frames[1..], parse, stringify);
    }
  }

  lemma {:induction false} CoalescedLinesRead(frames: seq<Frame>, parse: string -> Parsed<Payload>,
                                              stringify: Payload -> string)
    requires Inverse(parse, stringify)
    requires ContentNonEmpty(frames)
    ensures ClientLines(FrameLines(frames, stringify), parse) == Contents(UpToDone(frames))
  {
    if frames != [] {
      FrameLineRead(frames[0], parse, stringify);
      var lines := FrameLines(frames, stringify);
      assert lines[1..] == FrameLines(frames[1..], stringify);
      if frames[0] != Done {
        assert ContentNonEmpty(frames[1..]) by {
          forall i | 0 <= i < |frames[1..]| && frames[1..][i].Content? ensures frames[1..][i].text != "" {
            assert frames[1..][i] == frames[i + 1];
          }
        }
        CoalescedLinesRead(frames[1..], parse, stringify);
        var up := UpToDone(frames);
        assert up[0] == frames[0] && up[1..] == UpToDone(frames[1..]);
      }
    }
  }

  /** The whole chain for a streamed reply: the assistant message the page
      builds is the concatenation of the fragments the relay extracted from
      the backend's stream. */
  lemma StreamedReplyRebuildsContent(s: State, content: string, userStamp: Stamp, replyStamp: Stamp,
                                     backend: Request -> Fetched, backendParse: string -> Parsed<BackendJson>,
                                     parse: string -> Parsed<Payload>, stringify: Payload -> string)
    requires Inverse(parse, stringify)
    requires s.settings.streamResponse
    requires backend(BuildRequest(OutboundHistory(s.messages, content), s.settings)).Received?
    requires backend(BuildRequest(OutboundHistory(s.messages, content), s.settings)).response.Ok()
    ensures var r := HandleSend(s, content, userStamp, replyStamp, Relay(backend, backendParse, stringify), parse);
      var chunks := backend(BuildRequest(OutboundHistory(s.messages, content), s.settings)).response.chunks;
      r.messages[|s.messages| + 1] == Message(Assistant, Concat(Contents(RelayFrames(s.settings.provider, chunks, backendParse))), replyStamp)
  {
    var chunks := backend(BuildRequest(OutboundHistory(s.messages, content), s.settings)).response.chunks;
    var frames := RelayFrames(s.settings.provider, chunks, backendParse);
    StreamRoundTrip(frames, parse, stringify);
    var sent := SetLoading(AddMessage(s, User, content, userStamp), true);
    var texts := ClientStream(EncodeFrames(frames, stringify), parse);
    var opening := AddMessage(sent, Assistant, "", replyStamp);
    UpdateLastMessagesIsOneUpdate(opening, texts);
    assert UpdateLastMessage(opening, Concat(texts)).messages[|s.messages| + 1] == Message(Assistant, "" + Concat(texts), replyStamp);
  }

  /** A backend that answers with an error status: the user reads `Error:
      API Error: ` followed by the backend's body. */
  lemma BackendErrorShownToUser(s: State, content: string, userStamp: Stamp, replyStamp: Stamp,
                                backend: Request -> Fetched, backendParse: string -> Parsed<BackendJson>,
                                parse: string -> Parsed<Payload>, stringify: Payload -> string)
    requires Inverse(parse, stringify)
    requires backend(BuildRequest(OutboundHistory(s.messages, content), s.settings)).Received?
    requires !backend(BuildRequest(OutboundHistory(s.messages, content), s.settings)).response.Ok()
    ensures var r := HandleSend(s, content, userStamp, replyStamp, Relay(backend, backendParse, stringify), parse);
      var body := backend(BuildRequest(OutboundHistory(s.messages, content), s.settings)).response.Body();
      r.messages[|s.messages| + 1].content == "Error: API Error: " + body
  {
    var turns := OutboundHistory(s.messages, content);
    var body := backend(BuildRequest(turns, s.settings)).response.Body();
    var e := ErrorPayload(ApiErrorPrefix + body);
    var relay := Relay(backend, backendParse, stringify);
    var resp := Post(turns, s.settings, backend, backendParse, stringify);
    assert relay(turns, s.settings) == Received(resp);
    assert resp == JsonResponse(backend(BuildRequest(turns, s.settings)).response.status, e, stringify);
    JsonResponseRead(backend(BuildRequest(turns, s.settings)).response.status, e, parse, stringify);
    assert !resp.Ok();
    assert ErrorPrefix + OrElse(e.error, ResponseFallback) == "Error: API Error: " + body;
  }

  /** A backend that cannot be reached: the user reads the relay's error
      message, `Failed to connect to AI service` when the failure has none. */
  lemma UnreachableBackendShownToUser(s: State, content: string, userStamp: Stamp, replyStamp: Stamp,
                                      backend: Request -> Fetched, backendParse: string -> Parsed<BackendJson>,
                                      parse: string -> Parsed<Payload>, stringify: Payload -> string)
    requires Inverse(parse, stringify)
    requires backend(BuildRequest(OutboundHistory(s.messages, content), s.settings)).Threw?
    ensures var r := HandleSend(s, content, userStamp, replyStamp, Relay(backend, backendParse, stringify), parse);
      var m := backend(BuildRequest(OutboundHistory(s.messages, content), s.settings)).message;
      r.messages[|s.messages| + 1].content == "Error: " + (if m != "" then m else "Failed to connect to AI service")
  {
    var turns := OutboundHistory(s.messages, content);
    var m := backend(BuildRequest(turns, s.settings)).message;
    var e := ErrorPayload(Or(m, ChatRelay.ConnectFallback));
    var relay := Relay(backend, backendParse, stringify);
    var resp := Post(turns, s.settings, backend, backendParse, stringify);
    assert relay(turns, s.settings) == Received(resp);
    assert resp == JsonResponse(500, e, stringify);
    JsonResponseRead(500, e, parse, stringify);
    assert Or(m, ChatRelay.ConnectFallback) != "";
    assert OrElse(e.error, ResponseFallback) == Or(m, ChatRelay.ConnectFallback);
  }

  /** A complete (non-streamed) reply: the user reads the content the relay
      extracted from the backend's reply. */
  lemma CompletedReplyShown(s: State, content: string, userStamp: Stamp, replyStamp: Stamp,
                            backend: Request -> Fetched, backendParse: string -> Parsed<BackendJson>,
                            parse: string -> Parsed<Payload>, stringify: Payload -> string)
    requires Inverse(parse, stringify)
    requires !s.settings.streamResponse
    requires backend(BuildRequest(OutboundHistory(s.messages, content), s.settings)).Received?
    requires backend(BuildRequest(OutboundHistory(s.messages, content), s.settings)).response.Ok()
    requires backendParse(backend(BuildRequest(OutboundHistory(s.messages, content), s.settings)).response.Body()).Parsed?
    ensures var r := HandleSend(s, content, userStamp, replyStamp, Relay(backend, backendParse, stringify), parse);
      var j := backendParse(backend(BuildRequest(OutboundHistory(s.messages, content), s.settings)).response.Body()).value;
      r.messages[|s.messages| + 1].content == CompleteContent(s.settings.provider, j)
  {
    var turns := OutboundHistory(s.messages, content);
    var j := backendParse(backend(BuildRequest(turns, s.settings)).response.Body()).value;
    var c := ContentPayload(CompleteContent(s.settings.provider, j));
    var relay := Relay(backend, backendParse, stringify);
    var resp := Post(turns, s.settings, backend, backendParse, stringify);
    assert relay(turns, s.settings) == Received(resp);
    assert resp == JsonResponse(200, c, stringify);
    JsonResponseRead(200, c, parse, stringify);
  }

  /** Refreshing the model list against a reachable backend: the panel lists
      exactly the identifiers the catalog projected from the backend's
      reply, and reconciles the selected model with them. */
  lemma CatalogReachesSettings(s: State, backend: string -> Fetched, catalogParse: string -> Parsed<CatalogJson>,
                               parse: string -> Parsed<Payload>, stringify: Payload -> string)
    requires Inverse(parse, stringify)
    requires var (p, u) := Query(Some(s.settings.provider), Some(s.settings.baseUrl));
      backend(Endpoint(p, u)).Received? && backend(Endpoint(p, u)).response.Ok()
      && catalogParse(backend(Endpoint(p, u)).response.Body()).Parsed?
    ensures var (p, u) := Query(Some(s.settings.provider), Some(s.settings.baseUrl));
      var j := catalogParse(backend(Endpoint(p, u)).response.Body()).value;
      FetchModels(s, Catalog(backend, catalogParse, stringify), parse).store == Reconcile(s, ModelIds(p, j))
  {
    var (p, u) := Query(Some(s.settings.provider), Some(s.settings.baseUrl));
    var j := catalogParse(backend(Endpoint(p, u)).response.Body()).value;
    var m := ModelsPayload(ModelIds(p, j));
    var catalog := Catalog(backend, catalogParse, stringify);
    var resp := Get(Some(s.settings.provider), Some(s.settings.baseUrl), backend, catalogParse, stringify);
    assert catalog(s.settings.provider, s.settings.baseUrl) == Received(resp);
    assert resp == JsonResponse(200, m, stringify);
    JsonResponseRead(200, m, parse, stringify);
  }
}
