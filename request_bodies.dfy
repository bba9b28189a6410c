/**
 * The JSON bodies the context client posts. Each nested object is built as
 * defaults first (each guarded by a `||` fallback) and the caller's object
 * spread over them, so a key the caller gives always wins, even when its
 * value is falsy.
 */
module RequestBodies {
  import opened Wrappers
  import opened Json
  import opened Types

  const DefaultContext: string := "user_data"
  const DefaultClient: string := "mcp-server"

  /** The metadata an insert gets when the caller gives none; `now` is the clock's ISO-8601 time. */
  function DefaultMetadata(now: string): map<string, Json>
  {
    map["context" := JStr(DefaultContext), "tags" := JArr([]), "timestamp" := JStr(now), "client" := JStr(DefaultClient)]
  }

  /** The `metadata` object of the insert body. */
  function InsertMetadata(metadata: Option<map<string, Json>>, now: string): (m: map<string, Json>)
    ensures m == DefaultMetadata(now) + Spread(metadata)
    ensures m.Keys == {"context", "tags", "timestamp", "client"} + Spread(metadata).Keys
    ensures forall k :: k in Spread(metadata) ==> m[k] == Spread(metadata)[k]
    ensures metadata.None? ==> m == DefaultMetadata(now)
  {
    map[
      "context" := Or(Get(metadata, "context"), JStr(DefaultContext)),
      "tags" := Or(Get(metadata, "tags"), JArr([])),
      "timestamp" := Or(Get(metadata, "timestamp"), JStr(now)),
      "client" := Or(Get(metadata, "client"), JStr(DefaultClient))
    ] + Spread(metadata)
  }

  /** The insert body: `content` verbatim and the merged metadata. */
  function InsertBody(request: InsertRequest, now: string): (body: Json)
    ensures body.JObj? && body.fields.Keys == {"content", "metadata"}
    ensures body.fields["content"] == JStr(request.content)
    ensures body.fields["metadata"] == JObj(InsertMetadata(request.metadata, now))
  {
    JObj(map["content" := JStr(request.content), "metadata" := JObj(InsertMetadata(request.metadata, now))])
  }

  /** The `filters` object of the search body. */
  function SearchFilters(filters: Option<map<string, Json>>): (m: map<string, Json>)
    ensures m == map["tags" := JArr([])] + Spread(filters)
    ensures m.Keys == {"tags"} + Spread(filters).Keys
    ensures m["tags"] == (if "tags" in Spread(filters) then Spread(filters)["tags"] else JArr([]))
  {
    map["tags" := Or(Get(filters, "tags"), JArr([]))] + Spread(filters)
  }

  /**
   * The search body: `query` and `k` as given (no default for `k` here; an
   * absent `k` is dropped by the JSON serialisation), and the merged filters.
   */
  function SearchBody(request: SearchRequest): (body: Json)
    ensures body.JObj? && body.fields.Keys == {"query", "filters"} + (if request.k.Some? then {"k"} else {})
    ensures body.fields["query"] == JStr(request.query)
    ensures request.k.Some? ==> body.fields["k"] == JNum(request.k.value)
    ensures body.fields["filters"] == JObj(SearchFilters(request.filters))
  {
    JObj(map["query" := JStr(request.query)]
         + (if request.k.Some? then map["k" := JNum(request.k.value)] else map[])
         + map["filters" := JObj(SearchFilters(request.filters))])
  }
}
