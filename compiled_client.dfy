/**
 * The older compiled context client: the same bodies and failure mapping,
 * but an `Authorization` header in every request, rendered from the key by a
 * template literal even when no key is configured.
 */
module CompiledClient {
  import opened Wrappers
  import opened Json
  import opened Types
  import opened RequestBodies
  import opened Transport

  /** A template literal's rendering of an optional string. */
  function Interpolate(v: Option<string>): string
  {
    if v.Some? then v.value else "undefined"
  }

  /** The header literal of the constructor. */
  function Headers(apiKey: Option<string>): (h: map<string, string>)
    ensures h.Keys == {"Content-Type", "Authorization", "User-Agent"}
    ensures h["Content-Type"] == "application/json" && h["User-Agent"] == "MCP-Context-Server/1.0.0"
    ensures apiKey.None? ==> h["Authorization"] == "Bearer undefined"
    ensures apiKey.Some? ==> h["Authorization"] == "Bearer " + apiKey.value
  {
    map[
      "Content-Type" := "application/json",
      "Authorization" := "Bearer " + Interpolate(apiKey),
      "User-Agent" := "MCP-Context-Server/1.0.0"
    ]
  }

  class ContextApiClient {
    const config: ClientConfig
    const headers: map<string, string>

    constructor (cfg: ClientConfig)
      ensures config == cfg && headers == Headers(cfg.apiKey)
    {
      config := cfg;
      headers := Headers(cfg.apiKey);
    }

    method InsertContext(request: InsertRequest, now: string, outcome: FetchOutcome)
      returns (sent: HttpRequest, s: Settlement)
      ensures sent == HttpRequest("POST", config.insertEndpoint, headers, InsertBody(request, now))
      ensures s == Settle(Insert, outcome)
    {
      sent, s := Post(Insert, config.insertEndpoint, headers, InsertBody(request, now), outcome);
    }

    method SearchContext(request: SearchRequest, outcome: FetchOutcome)
      returns (sent: HttpRequest, s: Settlement)
      ensures sent == HttpRequest("POST", config.searchEndpoint, headers, SearchBody(request))
      ensures s == Settle(Search, outcome)
    {
      sent, s := Post(Search, config.searchEndpoint, headers, SearchBody(request), outcome);
    }
  }
}
