/**
 * The context client as written in TypeScript: the `Authorization` header is
 * added only when an API key is configured.
 */
module SourceClient {
  import opened Wrappers
  import opened Json
  import opened Types
  import opened RequestBodies
  import opened Transport

  class ContextApiClient {
    const config: ClientConfig
    /** Built in the constructor and never written again. */
    const headers: map<string, string>

    constructor (cfg: ClientConfig)
      ensures config == cfg
      ensures headers.Keys == {"Content-Type", "User-Agent"}
                              + (if cfg.apiKey.Some? && cfg.apiKey.value != "" then {"Authorization"} else {})
      ensures headers["Content-Type"] == "application/json"
      ensures headers["User-Agent"] == "MCP-Context-Server/1.0.0"
      ensures "Authorization" in headers ==> headers["Authorization"] == "Bearer " + cfg.apiKey.value
    {
      config := cfg;
      var h := map["Content-Type" := "application/json", "User-Agent" := "MCP-Context-Server/1.0.0"];
      if cfg.apiKey.Some? && cfg.apiKey.value != "" {
        h := h["Authorization" := "Bearer " + cfg.apiKey.value];
      }
      headers := h;
    }

    /** `insertContext(request)`, with the clock reading `now` and the network's `outcome`. */
    method InsertContext(request: InsertRequest, now: string, outcome: FetchOutcome)
      returns (sent: HttpRequest, s: Settlement)
      ensures sent == HttpRequest("POST", config.insertEndpoint, headers, InsertBody(request, now))
      ensures s == Settle(Insert, outcome)
    {
      sent, s := Post(Insert, config.insertEndpoint, headers, InsertBody(request, now), outcome);
    }

    /** `searchContext(request)` with the network's `outcome`. */
    method SearchContext(request: SearchRequest, outcome: FetchOutcome)
      returns (sent: HttpRequest, s: Settlement)
      ensures sent == HttpRequest("POST", config.searchEndpoint, headers, SearchBody(request))
      ensures s == Settle(Search, outcome)
    {
      sent, s := Post(Search, config.searchEndpoint, headers, SearchBody(request), outcome);
    }
  }
}
