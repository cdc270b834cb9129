/** The model catalog (`GET /api/models`): it fills in the query defaults,
    asks the selected backend for its models and answers with their
    identifiers. */
module ModelCatalog {
  import opened Js
  import opened Text
  import opened Wire
  import opened Chat

  /** One entry of a backend's model list, through the fields read. */
  datatype Entry = Entry(name: string, id: string)

  /** A backend's catalog reply: Ollama's `models` and LM Studio's `data`. */
  datatype CatalogJson = CatalogJson(models: Option<seq<Entry>>, data: Option<seq<Entry>>)

  const FetchFailed := "Failed to fetch models"

  /** `searchParams.get(name) || fallback`: a missing or empty parameter takes the default. */
  function Param(value: Option<string>, fallback: string): (r: string)
    ensures Truthy(value) ==> r == value.value
    ensures !Truthy(value) ==> r == fallback
  {
    OrElse(value, fallback)
  }

  /** The provider and base URL a request names, defaults filled in. */
  function Query(provider: Option<string>, baseUrl: Option<string>): (r: (string, string))
    ensures r.0 != "" && r.1 != ""
    ensures Truthy(provider) ==> r.0 == provider.value
    ensures !Truthy(provider) ==> r.0 == Ollama
    ensures Truthy(baseUrl) ==> r.1 == baseUrl.value
    ensures !Truthy(baseUrl) ==> r.1 == OllamaDefaultUrl
  {
    (Param(provider, Ollama), Param(baseUrl, OllamaDefaultUrl))
  }

  /** The backend's catalog endpoint: `/api/tags` for Ollama, `/v1/models` for any other provider. */
  function Endpoint(provider: string, baseUrl: string): (r: string)
    ensures IsOllama(provider) ==> r == baseUrl + "/api/tags"
    ensures !IsOllama(provider) ==> r == baseUrl + "/v1/models"
  {
    if IsOllama(provider) then baseUrl + "/api/tags" else baseUrl + "/v1/models"
  }

  /** `entries.map(m => m.name)`. */
  function Names(entries: seq<Entry>): (r: seq<string>)
    ensures |r| == |entries|
    ensures forall i :: 0 <= i < |r| ==> r[i] == entries[i].name
  {
    if entries == [] then [] else [entries[0].name] + Names(entries[1..])
  }

  /** `entries.map(m => m.id)`. */
  function Ids(entries: seq<Entry>): (r: seq<string>)
    ensures |r| == |entries|
    ensures forall i :: 0 <= i < |r| ==> r[i] == entries[i].id
  {
    if entries == [] then [] else [entries[0].id] + Ids(entries[1..])
  }

  /** The identifiers of a catalog reply: the `name` of each entry of
      `models` for Ollama, the `id` of each entry of `data` otherwise, in
      order; an absent list gives none. */
  function ModelIds(provider: string, j: CatalogJson): (r: seq<string>)
    ensures IsOllama(provider) && j.models.None? ==> r == []
    ensures IsOllama(provider) && j.models.Some? ==>
      |r| == |j.models.value| && forall i :: 0 <= i < |r| ==> r[i] == j.models.value[i].name
    ensures !IsOllama(provider) && j.data.None? ==> r == []
    ensures !IsOllama(provider) && j.data.Some? ==>
      |r| == |j.data.value| && forall i :: 0 <= i < |r| ==> r[i] == j.data.value[i].id
  {
    if IsOllama(provider) then
      (if j.models.Some? then Names(j.models.value) else [])
    else
      (if j.data.Some? then Ids(j.data.value) else [])
  }

  /** The handler. `backend` stands for `fetch` of the catalog endpoint,
      `parse` for `response.json()` of the backend's reply and `stringify`
      for `JSON.stringify` of the answer. */
  function Get(provider: Option<string>, baseUrl: Option<string>, backend: string -> Fetched,
               parse: string -> Parsed<CatalogJson>, stringify: Payload -> string): (r: HttpResponse)
    ensures var (p, u) := Query(provider, baseUrl);
      var f := backend(Endpoint(p, u));
      && (f.Threw? ==> r == JsonResponse(500, ErrorPayload(Or(f.message, FetchFailed)), stringify))
      && (f.Received? && !f.response.Ok() ==> r == JsonResponse(f.response.status, ErrorPayload(FetchFailed), stringify))
      && (f.Received? && f.response.Ok() ==>
            match parse(f.response.Body())
            case Malformed(m) => r == JsonResponse(500, ErrorPayload(Or(m, FetchFailed)), stringify)
            case Parsed(j) => r == JsonResponse(200, ModelsPayload(ModelIds(p, j)), stringify))
  {
    var (p, u) := Query(provider, baseUrl);
    match backend(Endpoint(p, u))
    case Threw(m) => JsonResponse(500, ErrorPayload(Or(m, FetchFailed)), stringify)
    case Received(resp) =>
      if !resp.Ok() then
        JsonResponse(resp.status, ErrorPayload(FetchFailed), stringify)
      else
        match parse(resp.Body())
        case Malformed(m) => JsonResponse(500, ErrorPayload(Or(m, FetchFailed)), stringify)
        case Parsed(j) => JsonResponse(200, ModelsPayload(ModelIds(p, j)), stringify)
  }

  /** A failed catalog call never passes the backend's body on: the error
      text is the same whatever the body says. */
  lemma ErrorHidesBackendBody(provider: Option<string>, baseUrl: Option<string>, status: int,
                              chunks1: seq<string>, chunks2: seq<string>,
                              parse: string -> Parsed<CatalogJson>, stringify: Payload -> string)
    requires !(200 <= status <= 299)
    ensures Get(provider, baseUrl, _ => Received(HttpResponse(status, chunks1)), parse, stringify)
         == Get(provider, baseUrl, _ => Received(HttpResponse(status, chunks2)), parse, stringify)
  {
  }
}
