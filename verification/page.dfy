/** The page's send handler: it records the user's turn, posts the
    conversation to the relay and turns the relay's reply into an assistant
    message, decoding the relay's event stream fragment by fragment. */
module Page {
  import opened Js
  import opened Text
  import opened Wire
  import opened Chat
  import opened Store

  const ErrorPrefix := "Error: "
  const ResponseFallback := "Failed to get response"
  const ConnectFallback := "Failed to connect to AI service. Make sure Ollama or LM Studio is running."

  /** The stored messages as the relay receives them: role and content only. */
  function Project(history: seq<Message>): (r: seq<Turn>)
    ensures |r| == |history|
    ensures forall i :: 0 <= i < |r| ==> r[i] == Turn(history[i].role, history[i].content)
  {
    if history == [] then [] else [Turn(history[0].role, history[0].content)] + Project(history[1..])
  }

  /** The conversation posted to the relay: the history as it was when the
      handler started, then the new user turn. */
  function OutboundHistory(history: seq<Message>, content: string): (r: seq<Turn>)
    ensures |r| == |history| + 1
    ensures forall i :: 0 <= i < |history| ==> r[i] == Turn(history[i].role, history[i].content)
    ensures r[|history|] == Turn(User, content)
  {
    Project(history) + [Turn(User, content)]
  }

  // ---------------------------------------------------------------------------
  // Decoding the relay's stream

  /** What one line of the relay's stream does to the reader's inner loop. */
  datatype LineEvent = Skip | Stop | Append(text: string)

  /** A `data: ` line whose payload is `[DONE]` stops the chunk; one whose
      payload parses to a truthy `content` appends it; every other line,
      malformed payloads included, is skipped. */
  function ClientLine(line: string, parse: string -> Parsed<Payload>): (r: LineEvent)
    ensures r == Stop <==> StartsWith(line, DataPrefix) && EventData(line) == DoneMarker
    ensures r.Append? <==>
      && StartsWith(line, DataPrefix) && EventData(line) != DoneMarker
      && parse(EventData(line)).Parsed? && Truthy(parse(EventData(line)).value.content)
    ensures r.Append? ==> r.text == parse(EventData(line)).value.content.value && r.text != ""
  {
    if !StartsWith(line, DataPrefix) then Skip
    else
      var data := EventData(line);
      if data == DoneMarker then Stop
      else
        match parse(data)
        case Malformed(_) => Skip
        case Parsed(p) => if Truthy(p.content) then Append(p.content.value) else Skip
  }

  /** The fragments of the lines of one chunk, up to the first `[DONE]` line. */
  function ClientLines(lines: seq<string>, parse: string -> Parsed<Payload>): (r: seq<string>)
    ensures forall i :: 0 <= i < |r| ==> r[i] != ""
  {
    if lines == [] then []
    else
      match ClientLine(lines[0], parse)
      case Stop => []
      case Skip => ClientLines(lines[1..], parse)
      case Append(t) =>
        var tail := ClientLines(lines[1..], parse);
        assert forall i :: 1 <= i < |[t] + tail| ==> ([t] + tail)[i] == tail[i - 1];
        [t] + tail
  }

  /** The fragments of one chunk: its non-blank lines, up to a `[DONE]` line. */
  function ClientChunk(chunk: string, parse: string -> Parsed<Payload>): (r: seq<string>)
    ensures forall i :: 0 <= i < |r| ==> r[i] != ""
  {
    ClientLines(NonBlankLines(chunk), parse)
  }

  /** The fragments of the whole stream. A `[DONE]` line ends only the loop
      over its own chunk: reading goes on with the next chunk. */
  function ClientStream(chunks: seq<string>, parse: string -> Parsed<Payload>): (r: seq<string>)
    ensures forall i :: 0 <= i < |r| ==> r[i] != ""
  {
    if chunks == [] then []
    else
      var head := ClientChunk(chunks[0], parse);
      var tail := ClientStream(chunks[1..], parse);
      NonEmptyAppend(head, tail);
      head + tail
  }

  lemma NonEmptyAppend(a: seq<string>, b: seq<string>)
    requires forall i :: 0 <= i < |a| ==> a[i] != ""
    requires forall i :: 0 <= i < |b| ==> b[i] != ""
    ensures forall i :: 0 <= i < |a + b| ==> (a + b)[i] != ""
  {
    forall i | 0 <= i < |a + b| ensures (a + b)[i] != "" {
      if i >= |a| {
        assert (a + b)[i] == b[i - |a|];
      }
    }
  }

  /** A `[DONE]` line drops the rest of its chunk, whatever it holds. */
  lemma {:induction false} StopDropsRestOfChunk(before: seq<string>, line: string, after: seq<string>,
                                                parse: string -> Parsed<Payload>)
    requires ClientLine(line, parse) == Stop
    ensures ClientLines(before + [line] + after, parse) == ClientLines(before, parse)
  {
    var all := before + [line] + after;
    if before == [] {
      assert all[0] == line;
    } else {
      assert all[0] == before[0] && all[1..] == before[1..] + [line] + after;
      StopDropsRestOfChunk(before[1..], line, after, parse);
    }
  }

  /** A line the page skips (no `data: ` prefix, a malformed payload, no
      truthy `content`) leaves the chunk's fragments as they are, wherever
      it stands. */
  lemma {:induction false} SkippedLineIgnored(before: seq<string>, line: string, after: seq<string>,
                                              parse: string -> Parsed<Payload>)
    requires ClientLine(line, parse) == Skip
    ensures ClientLines(before + [line] + after, parse) == ClientLines(before + after, parse)
  {
    if before == [] {
      var all := before + [line] + after;
      assert all[0] == line && all[1..] == after;
      assert before + after == after;
    } else {
      var all := before + [line] + after;
      assert all[0] == before[0] && all[1..] == before[1..] + [line] + after;
      assert (before + after)[0] == before[0] && (before + after)[1..] == before[1..] + after;
      SkippedLineIgnored(before[1..], line, after, parse);
    }
  }

  /** Chunks are decoded independently: a `[DONE]` in one chunk leaves the
      following chunks' fragments in place. */
  lemma {:induction false} ClientStreamAppend(a: seq<string>, b: seq<string>, parse: string -> Parsed<Payload>)
    ensures ClientStream(a + b, parse) == ClientStream(a, parse) + ClientStream(b, parse)
  {
    if a == [] {
      assert a + b == b;
    } else {
      assert (a + b)[0] == a[0] && (a + b)[1..] == a[1..] + b;
      ClientStreamAppend(a[1..], b, parse);
    }
  }

  // ---------------------------------------------------------------------------
  // The handler

  /** The assistant message reporting an error. */
  function ErrorText(message: string, fallback: string): string {
    ErrorPrefix + Or(message, fallback)
  }

  /** The state after the reply has been recorded, loading still on. Every
      path records exactly one assistant message: the error text, the
      concatenated stream fragments, or the complete content. */
  function Reply(sent: State, streaming: bool, fetched: Fetched, replyStamp: Stamp,
                 parse: string -> Parsed<Payload>): (r: State)
    ensures |r.messages| == |sent.messages| + 1
    ensures r.messages[..|sent.messages|] == sent.messages
    ensures r.messages[|sent.messages|].role == Assistant
    ensures r.(messages := sent.messages) == sent
    ensures var reply := r.messages[|sent.messages|].content;
      && (fetched.Threw? ==> reply == ErrorText(fetched.message, ConnectFallback))
      && (fetched.Received? && !fetched.response.Ok() && parse(fetched.response.Body()).Parsed? ==>
            reply == ErrorPrefix + OrElse(parse(fetched.response.Body()).value.error, ResponseFallback))
      && (fetched.Received? && fetched.response.Ok() && streaming ==>
            reply == Concat(ClientStream(fetched.response.chunks, parse)))
      && (fetched.Received? && fetched.response.Ok() && !streaming && parse(fetched.response.Body()).Parsed? ==>
            reply == parse(fetched.response.Body()).value.content.GetOr(""))
      && (fetched.Received? && (!fetched.response.Ok() || !streaming) && parse(fetched.response.Body()).Malformed? ==>
            reply == ErrorText(parse(fetched.response.Body()).message, ConnectFallback))
  {
    match fetched
    case Threw(m) => AddMessage(sent, Assistant, ErrorText(m, ConnectFallback), replyStamp)
    case Received(resp) =>
      if !resp.Ok() then
        match parse(resp.Body())
        case Malformed(m) => AddMessage(sent, Assistant, ErrorText(m, ConnectFallback), replyStamp)
        case Parsed(p) => AddMessage(sent, Assistant, ErrorPrefix + OrElse(p.error, ResponseFallback), replyStamp)
      else if streaming then
        var texts := ClientStream(resp.chunks, parse);
        StreamedReply(sent, texts, replyStamp);
        UpdateLastMessages(AddMessage(sent, Assistant, "", replyStamp), texts)
      else
        match parse(resp.Body())
        case Malformed(m) => AddMessage(sent, Assistant, ErrorText(m, ConnectFallback), replyStamp)
        case Parsed(p) => AddMessage(sent, Assistant, p.content.GetOr(""), replyStamp)
  }

  /** `handleSend(content)`. `relay` stands for the `fetch` of the chat
      relay with the outbound conversation and the current settings, and
      `parse` for `JSON.parse` of its replies. */
  function HandleSend(s: State, content: string, userStamp: Stamp, replyStamp: Stamp,
                      relay: (seq<Turn>, Settings) -> Fetched, parse: string -> Parsed<Payload>): (r: State)
    ensures |r.messages| == |s.messages| + 2
    ensures r.messages[..|s.messages|] == s.messages
    ensures r.messages[|s.messages|] == Message(User, content, userStamp)
    ensures r.messages[|s.messages| + 1].role == Assistant
    ensures !r.isLoading
    ensures r.(messages := s.messages, isLoading := s.isLoading) == s
    ensures var f := relay(OutboundHistory(s.messages, content), s.settings);
      var reply := r.messages[|s.messages| + 1].content;
      && (f.Threw? ==> reply == ErrorText(f.message, ConnectFallback))
      && (f.Received? && !f.response.Ok() && parse(f.response.Body()).Parsed? ==>
            reply == ErrorPrefix + OrElse(parse(f.response.Body()).value.error, ResponseFallback))
      && (f.Received? && f.response.Ok() && s.settings.streamResponse ==>
            reply == Concat(ClientStream(f.response.chunks, parse)))
      && (f.Received? && f.response.Ok() && !s.settings.streamResponse && parse(f.response.Body()).Parsed? ==>
            reply == parse(f.response.Body()).value.content.GetOr(""))
      && (f.Received? && (!f.response.Ok() || !s.settings.streamResponse) && parse(f.response.Body()).Malformed? ==>
            reply == ErrorText(parse(f.response.Body()).message, ConnectFallback))
  {
    var sent := SetLoading(AddMessage(s, User, content, userStamp), true);
    var fetched := relay(OutboundHistory(s.messages, content), s.settings);
    var replied := Reply(sent, s.settings.streamResponse, fetched, replyStamp, parse);
    SetLoading(replied, false)
  }

  /** The streaming path: an empty assistant message is opened and every
      fragment is appended to it, so it ends up holding their concatenation
      and nothing else in the state changes. */
  lemma StreamedReply(sent: State, texts: seq<string>, replyStamp: Stamp)
    ensures var r := UpdateLastMessages(AddMessage(sent, Assistant, "", replyStamp), texts);
      && |r.messages| == |sent.messages| + 1
      && r.messages[..|sent.messages|] == sent.messages
      && r.messages[|sent.messages|] == Message(Assistant, Concat(texts), replyStamp)
      && r.(messages := sent.messages) == sent
  {
    var opening := AddMessage(sent, Assistant, "", replyStamp);
    UpdateLastMessagesIsOneUpdate(opening, texts);
    assert LastIsAssistant(opening.messages);
    var r := UpdateLastMessage(opening, Concat(texts));
    assert r.messages[|sent.messages|].content == "" + Concat(texts);
    assert r.messages[..|sent.messages|] == opening.messages[..|sent.messages|];
  }
}
