/**
 * The upstream HTTP client of the gateway (backend/internal/proxy/client.go):
 * URL, header and query construction for a provider, the per-proxy client
 * cache, and the error shape of a non-200 answer. The network itself is a
 * parameter: every request's outcome is supplied by the caller.
 */
module Upstream {
  import opened Wrappers
  import opened Text
  import opened Json

  const VertexExpress := "vertex_express"
  const VertexUrlHead := "https://aiplatform.googleapis.com/v1beta1/projects/"

  datatype ProviderConfig = ProviderConfig(
    baseUrl: string,
    apiKey: string,
    providerType: string,
    vertexProject: string,
    vertexLocation: string,
    extraHeaders: map<string, string>,
    proxyUrl: string)

  predicate IsVertex(cfg: ProviderConfig) {
    cfg.providerType == VertexExpress
  }

  /** The location used in a Vertex URL: "global" stands in for an empty one. */
  function VertexLocationOrGlobal(cfg: ProviderConfig): (loc: string)
    ensures cfg.vertexLocation != "" ==> loc == cfg.vertexLocation
    ensures cfg.vertexLocation == "" ==> loc == "global"
  {
    if cfg.vertexLocation == "" then "global" else cfg.vertexLocation
  }

  /** getChatURL. */
  function ChatUrl(cfg: ProviderConfig): (url: string)
    ensures IsVertex(cfg) ==> HasPrefix(url, VertexUrlHead)
    ensures IsVertex(cfg) ==>
      url == VertexUrlHead + cfg.vertexProject + "/locations/" + VertexLocationOrGlobal(cfg)
             + "/endpoints/openapi/chat/completions"
    ensures !IsVertex(cfg) ==> url == TrimSuffix(cfg.baseUrl, "/") + "/chat/completions"
  {
    if IsVertex(cfg) then
      VertexUrlHead + cfg.vertexProject + "/locations/" + VertexLocationOrGlobal(cfg)
      + "/endpoints/openapi/chat/completions"
    else TrimSuffix(cfg.baseUrl, "/") + "/chat/completions"
  }

  /** getModelsURL: Vertex providers have no model listing (the empty URL). */
  function ModelsUrl(cfg: ProviderConfig): (url: string)
    ensures url == "" <==> IsVertex(cfg)
    ensures !IsVertex(cfg) ==> url == TrimSuffix(cfg.baseUrl, "/") + "/models"
  {
    if IsVertex(cfg) then "" else TrimSuffix(cfg.baseUrl, "/") + "/models"
  }

  /**
   * A base URL with or without one trailing slash gives the same endpoints:
   * exactly one "/" is removed before the path is appended.
   */
  lemma TrailingSlashInsensitive(cfg: ProviderConfig)
    requires !IsVertex(cfg) && !HasSuffix(cfg.baseUrl, "/")
    ensures ChatUrl(cfg.(baseUrl := cfg.baseUrl + "/")) == ChatUrl(cfg)
    ensures ModelsUrl(cfg.(baseUrl := cfg.baseUrl + "/")) == ModelsUrl(cfg)
  {
    var b := cfg.baseUrl + "/";
    assert HasSuffix(b, "/");
    assert b[..|b| - 1] == cfg.baseUrl;
  }

  /** getHeaders: Content-Type always, a bearer token unless Vertex, extra headers last. */
  function Headers(cfg: ProviderConfig): (h: map<string, string>)
    ensures forall k :: k in cfg.extraHeaders ==> k in h && h[k] == cfg.extraHeaders[k]
    ensures "Content-Type" in h
    ensures "Content-Type" !in cfg.extraHeaders ==> h["Content-Type"] == "application/json"
    ensures "Authorization" in h <==> !IsVertex(cfg) || "Authorization" in cfg.extraHeaders
    ensures !IsVertex(cfg) && "Authorization" !in cfg.extraHeaders ==>
      h["Authorization"] == "Bearer " + cfg.apiKey
    ensures forall k :: k in h ==> k in cfg.extraHeaders || k == "Content-Type" || k == "Authorization"
  {
    var base := map["Content-Type" := "application/json"];
    var withAuth := if IsVertex(cfg) then base else base["Authorization" := "Bearer " + cfg.apiKey];
    withAuth + cfg.extraHeaders
  }

  /** getQueryParams: `key=<api key>` exactly for Vertex providers. */
  function QueryParams(cfg: ProviderConfig): (q: map<string, string>)
    ensures "key" in q <==> IsVertex(cfg)
    ensures IsVertex(cfg) ==> q["key"] == cfg.apiKey
    ensures forall k :: k in q ==> k == "key"
  {
    if IsVertex(cfg) then map["key" := cfg.apiKey] else map[]
  }

  /** The error text for a non-200 answer: "status <code>: <body>". */
  function StatusError(code: int, body: string): (msg: string)
    ensures HasPrefix(msg, "status ")
    ensures HasSuffix(msg, ": " + body)
  {
    "status " + Itoa(code) + ": " + body
  }

  /** Equal strings `head + a + sep + tail` and `head + b + sep + tail` have a == b. */
  lemma CancelAround(head: string, a: string, b: string, sep: string, tail: string)
    requires head + a + sep + tail == head + b + sep + tail
    ensures a == b
  {
    var x, y := head + a + sep + tail, head + b + sep + tail;
    assert a == x[|head|..|x| - |sep| - |tail|];
    assert b == y[|head|..|y| - |sep| - |tail|];
  }

  /** Two different status codes never give the same message. */
  lemma StatusErrorDistinguishesCodes(c1: int, c2: int, body: string)
    requires c1 != c2
    ensures StatusError(c1, body) != StatusError(c2, body)
  {
    if StatusError(c1, body) == StatusError(c2, body) {
      CancelAround("status ", Itoa(c1), Itoa(c2), ": ", body);
      ItoaInjective(c1, c2);
    }
  }

  /** An outgoing request as the client builds it. */
  datatype Request = Request(
    verb: string, url: string, headers: map<string, string>, query: map<string, string>, body: string)

  /**
   * The API key travels one way only: as the `key` query parameter for Vertex
   * (with no Authorization header unless one is configured), as a bearer
   * header otherwise (with no query parameters).
   */
  function BuildRequest(cfg: ProviderConfig, verb: string, url: string, body: string): (r: Request)
    ensures r.verb == verb && r.url == url && r.body == body
    ensures IsVertex(cfg) ==> r.query == map["key" := cfg.apiKey]
    ensures IsVertex(cfg) && "Authorization" in r.headers ==> "Authorization" in cfg.extraHeaders
    ensures !IsVertex(cfg) ==> r.query == map[] && "Authorization" in r.headers
  {
    Request(verb, url, Headers(cfg), QueryParams(cfg), body)
  }

  /**
   * What the network answered: a transport failure, or a status with its body
   * and the result of decoding that body as JSON.
   */
  datatype HttpOutcome =
    | TransportError(message: string)
    | Response(status: int, body: string, decoded: Result<Json, string>)

  /** The error path shared by ListModels and ChatCompletion. */
  function Answer(outcome: HttpOutcome): (r: Result<Json, string>)
    ensures outcome.TransportError? ==> r == Err(outcome.message)
    ensures outcome.Response? && outcome.status != 200 ==> r == Err(StatusError(outcome.status, outcome.body))
    ensures outcome.Response? && outcome.status == 200 ==> r == outcome.decoded
  {
    match outcome
    case TransportError(m) => Err(m)
    case Response(status, body, decoded) =>
      if status != 200 then Err(StatusError(status, body)) else decoded
  }

  /** The decoder's complaint when the JSON does not fit the Go type it is read into. */
  const TypeMismatch := "json: cannot unmarshal"

  /** An element of `[]map[string]interface{}`: an object or null. */
  predicate IsObjectOrNull(j: Json) {
    j.Obj? || j.Null?
  }

  /** The sixteen spellings of "data" up to ASCII case, the exact one first. */
  const DataSpellings: seq<string> := ["data", "datA", "daTa", "daTA", "dAta", "dAtA", "dATa", "dATA", "Data", "DatA", "DaTa", "DaTA", "DAta", "DAtA", "DATa", "DATA"]

  /** The key `k` fills the field tagged `json:"data"`: it equals "data" up to ASCII case. */
  predicate IsDataKey(k: string) {
    ToLower(k) == "data"
  }

  lemma DataSpellingsComplete(k: string)
    ensures IsDataKey(k) <==> k in DataSpellings
  {
    if IsDataKey(k) {
      DataKeySpelled(k);
    }
    if k in DataSpellings {
      SpellingIsDataKey(k);
    }
  }

  lemma DataKeySpelled(k: string)
    requires IsDataKey(k)
    ensures k in DataSpellings
  {
    assert |k| == 4;
    assert LowerChar(k[0]) == 'd' && LowerChar(k[1]) == 'a' && LowerChar(k[2]) == 't' && LowerChar(k[3]) == 'a';
    assert k == [k[0], k[1], k[2], k[3]];
  }

  lemma SpellingIsDataKey(k: string)
    requires k in DataSpellings
    ensures IsDataKey(k)
  {
    assert |k| == 4 && k[0] in "dD" && k[1] in "aA" && k[2] in "tT" && k[3] in "aA";
    assert ToLower(k) == [LowerChar(k[0]), LowerChar(k[1]), LowerChar(k[2]), LowerChar(k[3])];
  }

  /** The first of `keys` present in `fields`. */
  function FirstPresent(fields: map<string, Json>, keys: seq<string>): (r: Option<string>)
    ensures r.Some? ==> r.value in fields && r.value in keys
    ensures r.None? ==> forall i :: 0 <= i < |keys| ==> keys[i] !in fields
    ensures keys != [] && keys[0] in fields ==> r == Some(keys[0])
  {
    if keys == [] then None
    else if keys[0] in fields then Some(keys[0])
    else FirstPresent(fields, keys[1..])
  }

  /**
   * The value encoding/json reads into the field tagged `json:"data"`: the
   * key "data" when present, otherwise a key equal to it up to case.
   */
  function DataField(fields: map<string, Json>): (f: Option<Json>)
    ensures "data" in fields ==> f == Some(fields["data"])
    ensures f.None? <==> forall k :: k in fields ==> !IsDataKey(k)
    ensures f.Some? ==> exists k :: k in fields && IsDataKey(k) && fields[k] == f.value
  {
    match FirstPresent(fields, DataSpellings)
    case Some(k) =>
      DataSpellingsComplete(k);
      Some(fields[k])
    case None =>
      assert forall k :: k in fields ==> !IsDataKey(k) by {
        forall k | k in fields
          ensures !IsDataKey(k)
        {
          DataSpellingsComplete(k);
        }
      }
      None
  }

  /** A sole key spelled "data" in another case is the one read. */
  lemma SoleDataKeyRead(fields: map<string, Json>, k: string)
    requires k in fields && IsDataKey(k)
    requires forall k' :: k' in fields && IsDataKey(k') ==> k' == k
    ensures DataField(fields) == Some(fields[k])
  {
  }

  /**
   * Decoding a listing into `struct { Data []map[string]interface{} }`: null,
   * a missing or null `data` give no entries; `data` must otherwise be an array
   * of objects (or nulls). The key matches as encoding/json matches a field tag.
   */
  function ListingData(j: Json): (r: Result<seq<Json>, string>)
    ensures r.Ok? ==> forall i :: 0 <= i < |r.value| ==> IsObjectOrNull(r.value[i])
    ensures r.Ok? && r.value != [] ==> j.Obj? && DataField(j.fields) == Some(Arr(r.value))
    ensures j.Obj? && (forall k :: k in j.fields ==> !IsDataKey(k)) ==> r == Ok([])
    ensures j.Obj? && "data" in j.fields && j.fields["data"].Arr? ==>
      (r == Ok(j.fields["data"].items) <==>
       forall i :: 0 <= i < |j.fields["data"].items| ==> IsObjectOrNull(j.fields["data"].items[i]))
    ensures j.Obj? && DataField(j.fields).Some? && DataField(j.fields).value.Arr? ==>
      (r == Ok(DataField(j.fields).value.items) <==>
       forall i :: 0 <= i < |DataField(j.fields).value.items| ==> IsObjectOrNull(DataField(j.fields).value.items[i]))
  {
    if j.Null? then Ok([])
    else if !j.Obj? then Err(TypeMismatch)
    else match DataField(j.fields)
      case None => Ok([])
      case Some(d) =>
        if d.Null? then Ok([])
        else if !d.Arr? then Err(TypeMismatch)
        else if forall i :: 0 <= i < |d.items| ==> IsObjectOrNull(d.items[i]) then Ok(d.items)
        else Err(TypeMismatch)
  }

  /** A listing under "Data" is read like one under "data". */
  lemma CapitalisedDataListed(items: seq<Json>)
    requires forall i :: 0 <= i < |items| ==> IsObjectOrNull(items[i])
    ensures ListingData(Obj(map["Data" := Arr(items)])) == Ok(items)
  {
    var fields := map["Data" := Arr(items)];
    DataSpellingsComplete("Data");
    assert forall k' :: k' in fields && IsDataKey(k') ==> k' == "Data";
    SoleDataKeyRead(fields, "Data");
  }

  /** Decoding a chat answer into `map[string]interface{}`: an object or null. */
  function ChatObject(j: Json): (r: Result<Json, string>)
    ensures r.Ok? <==> IsObjectOrNull(j)
    ensures r.Ok? ==> r.value == j
  {
    if IsObjectOrNull(j) then Ok(j) else Err(TypeMismatch)
  }

  /** What ListModels yields for a provider, given the network's answer. */
  function Listing(cfg: ProviderConfig, outcome: HttpOutcome): (r: Result<seq<Json>, string>)
    ensures IsVertex(cfg) ==> r == Ok([])
    ensures !IsVertex(cfg) && outcome.TransportError? ==> r == Err(outcome.message)
    ensures !IsVertex(cfg) && outcome.Response? && outcome.status != 200 ==>
      r == Err(StatusError(outcome.status, outcome.body))
  {
    if IsVertex(cfg) then Ok([])
    else match Answer(outcome)
         case Ok(j) => ListingData(j)
         case Err(e) => Err(e)
  }

  /** A pooled HTTP client: 300 s timeout, routed through the proxy when one parses. */
  class HttpClient {
    const proxy: Option<string>
    const timeoutSeconds: int
    const maxIdleConns: int
    const maxIdleConnsPerHost: int
    const idleConnTimeoutSeconds: int

    constructor (proxyUrl: string, proxyParses: bool)
      ensures proxy == (if proxyUrl != "" && proxyParses then Some(proxyUrl) else None)
      ensures timeoutSeconds == 300 && maxIdleConns == 100
      ensures maxIdleConnsPerHost == 20 && idleConnTimeoutSeconds == 90
    {
      proxy := if proxyUrl != "" && proxyParses then Some(proxyUrl) else None;
      timeoutSeconds := 300;
      maxIdleConns := 100;
      maxIdleConnsPerHost := 20;
      idleConnTimeoutSeconds := 90;
    }
  }

  /** The process-wide clientPool: one client per proxy URL. */
  class ClientPool {
    var clients: map<string, HttpClient>

    constructor ()
      ensures clients == map[]
    {
      clients := map[];
    }

    /** getClient: the cached client when there is one, else a new one that is cached. */
    method GetClient(proxyUrl: string, proxyParses: bool) returns (c: HttpClient)
      modifies this
      ensures proxyUrl in old(clients) ==> c == old(clients)[proxyUrl] && clients == old(clients)
      ensures proxyUrl !in old(clients) ==> fresh(c) && clients == old(clients)[proxyUrl := c]
      ensures proxyUrl !in old(clients) ==>
        c.proxy == (if proxyUrl != "" && proxyParses then Some(proxyUrl) else None)
    {
      if proxyUrl in clients {
        return clients[proxyUrl];
      }
      c := new HttpClient(proxyUrl, proxyParses);
      clients := clients[proxyUrl := c];
    }

    /** InvalidateClient: drops exactly that proxy URL's entry. */
    method InvalidateClient(proxyUrl: string)
      modifies this
      ensures clients == old(clients) - {proxyUrl}
    {
      clients := clients - {proxyUrl};
    }

    /**
     * ListModels: for a Vertex provider, (nil, nil) without a request and
     * without touching the pool; otherwise a GET of the models URL whose
     * answer is turned into the `data` list or an error.
     */
    method ListModels(cfg: ProviderConfig, proxyParses: bool, outcome: HttpOutcome)
      returns (r: Result<seq<Json>, string>, sent: Option<Request>)
      modifies this
      ensures r == Listing(cfg, outcome)
      ensures IsVertex(cfg) ==> sent == None && clients == old(clients)
      ensures !IsVertex(cfg) ==> sent == Some(BuildRequest(cfg, "GET", ModelsUrl(cfg), ""))
      ensures !IsVertex(cfg) ==> cfg.proxyUrl in clients && clients.Keys == old(clients).Keys + {cfg.proxyUrl}
    {
      var url := ModelsUrl(cfg);
      if url == "" {
        return Ok([]), None;
      }
      var client := GetClient(cfg.proxyUrl, proxyParses);
      sent := Some(BuildRequest(cfg, "GET", url, ""));
      match Answer(outcome)
      case Ok(j) => r := ListingData(j);
      case Err(e) => r := Err(e);
    }

    /** ChatCompletion: a POST of the payload to the chat URL. */
    method ChatCompletion(cfg: ProviderConfig, proxyParses: bool, body: string, outcome: HttpOutcome)
      returns (r: Result<Json, string>, sent: Request)
      modifies this
      ensures sent == BuildRequest(cfg, "POST", ChatUrl(cfg), body)
      ensures r == match Answer(outcome)
                   case Ok(j) => ChatObject(j)
                   case Err(e) => Err(e)
      ensures cfg.proxyUrl in clients && clients.Keys == old(clients).Keys + {cfg.proxyUrl}
    {
      var client := GetClient(cfg.proxyUrl, proxyParses);
      sent := BuildRequest(cfg, "POST", ChatUrl(cfg), body);
      match Answer(outcome)
      case Ok(j) => r := ChatObject(j);
      case Err(e) => r := Err(e);
    }
  }
}
