/** What travels over HTTP between the page, the relay and a backend: the
    outcome of a `fetch`, a response as a status and a list of body chunks,
    the JSON payload the relay sends to the page, and the server-sent-event
    framing of the relay's stream. */
module Wire {
  import opened Js
  import opened Text

  /** A response: its status and its body, as the chunks a reader delivers. */
  datatype HttpResponse = HttpResponse(status: int, chunks: seq<string>) {

    /** `response.ok`. */
    predicate Ok() {
      200 <= status <= 299
    }

    /** `response.text()`: the whole body. */
    function Body(): string {
      Concat(chunks)
    }
  }

  /** The outcome of a `fetch`: it throws (backend unreachable, DNS failure,
      ...) with a message, or a response arrives. */
  datatype Fetched = Threw(message: string) | Received(response: HttpResponse)

  /** The relay's JSON replies to the page: `{content}`, `{error}` or `{models}`,
      seen through the fields the page reads. */
  datatype Payload = Payload(content: Option<string>, error: Option<string>, models: Option<seq<string>>)

  function ContentPayload(c: string): Payload {
    Payload(Some(c), None, None)
  }

  function ErrorPayload(e: string): Payload {
    Payload(None, Some(e), None)
  }

  function ModelsPayload(ms: seq<string>): Payload {
    Payload(None, None, Some(ms))
  }

  /** The properties of `JSON.parse` and `JSON.stringify` the round trips rest
      on: parsing a stringified payload gives it back, and the text is an
      object literal on one line. */
  ghost predicate Inverse(parse: string -> Parsed<Payload>, stringify: Payload -> string) {
    forall p :: parse(stringify(p)) == Parsed(p) && StartsWith(stringify(p), "{") && '\n' !in stringify(p)
  }

  /** `new Response(JSON.stringify(p), {status})`. */
  function JsonResponse(status: int, p: Payload, stringify: Payload -> string): HttpResponse {
    HttpResponse(status, [stringify(p)])
  }

  /** Server-sent-event framing shared by the LM Studio backend and the relay. */
  const DataPrefix := "data: "
  const DoneMarker := "[DONE]"

  /** The text after `data: ` on a line that starts with it (`line.slice(6)`). */
  function EventData(line: string): (r: string)
    requires StartsWith(line, DataPrefix)
    ensures DataPrefix + r == line
  {
    line[|DataPrefix|..]
  }
}
