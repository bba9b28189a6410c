/**
 * The two request schemas of the context bridge (`InsertContextSchema`,
 * `SearchContextSchema`) as validators from a parsed JSON argument to a
 * normalised request or the list of field paths that failed, in schema order.
 * Unknown keys are stripped, optional fields may be absent but not `null`,
 * and an absent `k` becomes 5.
 */
module Types {
  import opened Wrappers
  import opened Json

  /** A validated insert request; `metadata` holds only the keys the caller gave. */
  datatype InsertRequest = InsertRequest(content: string, metadata: Option<map<string, Json>>)

  /** A search request; `k` is `None` only when a caller skipped validation. */
  datatype SearchRequest = SearchRequest(query: string, k: Option<real>, filters: Option<map<string, Json>>)

  const MetadataKeys: seq<string> := ["context", "tags", "timestamp", "client"]
  const FilterKeys: seq<string> := ["tags"]
  const DefaultK: real := 5.0
  const MinK: real := 1.0
  const MaxK: real := 100.0

  /** `z.array(z.string())` */
  predicate IsStringArray(v: Json)
  {
    v.JArr? && forall i :: 0 <= i < |v.items| ==> v.items[i].JStr?
  }

  /** What an optional metadata or filter field must be when present: `tags` a string array, the rest strings. */
  predicate FieldOk(key: string, v: Json)
  {
    if key == "tags" then IsStringArray(v) else v.JStr?
  }

  /** Every listed key that is present holds a value of its type. */
  ghost predicate FieldsOk(m: map<string, Json>, keys: seq<string>)
  {
    forall i :: 0 <= i < |keys| && keys[i] in m ==> FieldOk(keys[i], m[keys[i]])
  }

  /** The paths of the optional fields of a nested object that fail their type, in key order. */
  function FieldIssues(prefix: string, m: map<string, Json>, keys: seq<string>): (issues: seq<string>)
    ensures issues == [] <==> FieldsOk(m, keys)
    ensures |issues| <= |keys|
  {
    if keys == [] then []
    else
      var rest := FieldIssues(prefix, m, keys[1..]);
      assert FieldsOk(m, keys) <==> (keys[0] in m ==> FieldOk(keys[0], m[keys[0]])) && FieldsOk(m, keys[1..]) by {
        if FieldsOk(m, keys[1..]) && (keys[0] in m ==> FieldOk(keys[0], m[keys[0]])) {
          forall i | 0 <= i < |keys| && keys[i] in m ensures FieldOk(keys[i], m[keys[i]]) {
            if i > 0 { assert keys[i] == keys[1..][i - 1]; }
          }
        }
        if FieldsOk(m, keys) {
          forall i | 0 <= i < |keys[1..]| && keys[1..][i] in m ensures FieldOk(keys[1..][i], m[keys[1..][i]]) {
            assert keys[1..][i] == keys[i + 1];
          }
        }
      }
      (if keys[0] in m && !FieldOk(keys[0], m[keys[0]]) then [prefix + keys[0]] else []) + rest
  }

  /** zod's default `strip`: only the listed keys survive. */
  function Strip(m: map<string, Json>, keys: seq<string>): (r: map<string, Json>)
    ensures r.Keys == set k | k in m && k in keys
    ensures forall k :: k in r ==> r[k] == m[k]
    ensures (forall k :: k in m ==> k in keys) ==> r == m
  {
    map k | k in m && k in keys :: m[k]
  }

  /** Stripping an object a second time removes nothing more. */
  lemma StripIdempotent(m: map<string, Json>, keys: seq<string>)
    ensures Strip(Strip(m, keys), keys) == Strip(m, keys)
  {
    var r := Strip(m, keys);
    assert forall k :: k in r ==> k in keys;
  }

  /** `z.string().min(1)` on a required field. */
  predicate NonEmptyString(fields: map<string, Json>, key: string)
  {
    key in fields && fields[key].JStr? && |fields[key].s| >= 1
  }

  /** `z.object({...}).optional()`: absent, or an object (never `null`). */
  predicate OptionalObject(fields: map<string, Json>, key: string)
  {
    key !in fields || fields[key].JObj?
  }

  /** The issues of an optional nested object: the object itself, or its fields. */
  function NestedIssues(fields: map<string, Json>, key: string, keys: seq<string>): seq<string>
  {
    if key !in fields then []
    else if fields[key].JObj? then FieldIssues(key + ".", fields[key].fields, keys)
    else [key]
  }

  /** The normalised form of an optional nested object. */
  function Nested(fields: map<string, Json>, key: string, keys: seq<string>): Option<map<string, Json>>
  {
    if key in fields && fields[key].JObj? then Some(Strip(fields[key].fields, keys)) else None
  }

  /** An argument `InsertContextSchema` accepts, stated field by field. */
  ghost predicate AcceptsInsert(input: Json)
  {
    && input.JObj?
    && NonEmptyString(input.fields, "content")
    && OptionalObject(input.fields, "metadata")
    && ("metadata" in input.fields ==> FieldsOk(input.fields["metadata"].fields, MetadataKeys))
  }

  /** `InsertContextSchema.safeParse(input)` */
  function ValidateInsert(input: Json): (r: Result<InsertRequest, seq<string>>)
    ensures r.Success? <==> AcceptsInsert(input)
    ensures r.Failure? ==> r.error != []
    ensures r.Success? ==>
      && r.value.content == input.fields["content"].s
      && |r.value.content| >= 1
      && (r.value.metadata.Some? <==> "metadata" in input.fields)
      && (r.value.metadata.Some? ==> r.value.metadata.value == Strip(input.fields["metadata"].fields, MetadataKeys))
  {
    if !input.JObj? then Failure([""])
    else
      var f := input.fields;
      var issues := (if NonEmptyString(f, "content") then [] else ["content"])
                    + NestedIssues(f, "metadata", MetadataKeys);
      if issues != [] then Failure(issues)
      else Success(InsertRequest(f["content"].s, Nested(f, "metadata", MetadataKeys)))
  }

  /** An argument `SearchContextSchema` accepts, stated field by field. */
  ghost predicate AcceptsSearch(input: Json)
  {
    && input.JObj?
    && NonEmptyString(input.fields, "query")
    && ("k" in input.fields ==> input.fields["k"].JNum? && MinK <= input.fields["k"].n <= MaxK)
    && OptionalObject(input.fields, "filters")
    && ("filters" in input.fields ==> FieldsOk(input.fields["filters"].fields, FilterKeys))
  }

  /** `SearchContextSchema.safeParse(input)`; no integer check is made on `k`. */
  function ValidateSearch(input: Json): (r: Result<SearchRequest, seq<string>>)
    ensures r.Success? <==> AcceptsSearch(input)
    ensures r.Failure? ==> r.error != []
    ensures r.Success? ==>
      && r.value.query == input.fields["query"].s
      && |r.value.query| >= 1
      && r.value.k.Some? && MinK <= r.value.k.value <= MaxK
      && r.value.k.value == (if "k" in input.fields then input.fields["k"].n else DefaultK)
      && (r.value.filters.Some? <==> "filters" in input.fields)
      && (r.value.filters.Some? ==> r.value.filters.value == Strip(input.fields["filters"].fields, FilterKeys))
  {
    if !input.JObj? then Failure([""])
    else
      var f := input.fields;
      var kOk := "k" !in f || (f["k"].JNum? && MinK <= f["k"].n <= MaxK);
      var issues := (if NonEmptyString(f, "query") then [] else ["query"])
                    + (if kOk then [] else ["k"])
                    + NestedIssues(f, "filters", FilterKeys);
      if issues != [] then Failure(issues)
      else
        var k := if "k" in f then f["k"].n else DefaultK;
        Success(SearchRequest(f["query"].s, Some(k), Nested(f, "filters", FilterKeys)))
  }

  /** A request as the validator leaves it: non-empty text and only known, well-typed metadata. */
  ghost predicate WellFormedInsert(r: InsertRequest)
  {
    && |r.content| >= 1
    && (r.metadata.Some? ==>
          && (forall k :: k in r.metadata.value ==> k in MetadataKeys)
          && FieldsOk(r.metadata.value, MetadataKeys))
  }

  ghost predicate WellFormedSearch(r: SearchRequest)
  {
    && |r.query| >= 1
    && r.k.Some? && MinK <= r.k.value <= MaxK
    && (r.filters.Some? ==>
          && (forall k :: k in r.filters.value ==> k in FilterKeys)
          && FieldsOk(r.filters.value, FilterKeys))
  }

  /** The JSON argument that carries a request. */
  function InsertToJson(r: InsertRequest): Json
  {
    JObj(map["content" := JStr(r.content)]
         + (if r.metadata.Some? then map["metadata" := JObj(r.metadata.value)] else map[]))
  }

  function SearchToJson(r: SearchRequest): Json
  {
    JObj(map["query" := JStr(r.query)]
         + (if r.k.Some? then map["k" := JNum(r.k.value)] else map[])
         + (if r.filters.Some? then map["filters" := JObj(r.filters.value)] else map[]))
  }

  /** Every accepted insert argument normalises to a well-formed request. */
  lemma ValidatedInsertIsWellFormed(input: Json)
    requires ValidateInsert(input).Success?
    ensures WellFormedInsert(ValidateInsert(input).value)
  {
    var r := ValidateInsert(input).value;
    if r.metadata.Some? {
      var md := input.fields["metadata"].fields;
      assert forall i :: 0 <= i < |MetadataKeys| && MetadataKeys[i] in r.metadata.value ==> MetadataKeys[i] in md;
    }
  }

  /** A well-formed request survives a trip through JSON and validation unchanged. */
  lemma InsertRoundTrip(r: InsertRequest)
    requires WellFormedInsert(r)
    ensures ValidateInsert(InsertToJson(r)) == Success(r)
  {
    var f := InsertToJson(r).fields;
    if r.metadata.Some? {
      assert f["metadata"].fields == r.metadata.value;
      assert Strip(r.metadata.value, MetadataKeys) == r.metadata.value;
    }
  }

  /** Re-validating a normalised insert request gives the same request. */
  lemma InsertValidationIdempotent(input: Json)
    requires ValidateInsert(input).Success?
    ensures ValidateInsert(InsertToJson(ValidateInsert(input).value)) == ValidateInsert(input)
  {
    ValidatedInsertIsWellFormed(input);
    InsertRoundTrip(ValidateInsert(input).value);
  }

  lemma ValidatedSearchIsWellFormed(input: Json)
    requires ValidateSearch(input).Success?
    ensures WellFormedSearch(ValidateSearch(input).value)
  {
    var r := ValidateSearch(input).value;
    if r.filters.Some? {
      var fm := input.fields["filters"].fields;
      assert forall i :: 0 <= i < |FilterKeys| && FilterKeys[i] in r.filters.value ==> FilterKeys[i] in fm;
    }
  }

  lemma SearchRoundTrip(r: SearchRequest)
    requires WellFormedSearch(r)
    ensures ValidateSearch(SearchToJson(r)) == Success(r)
  {
    var f := SearchToJson(r).fields;
    assert f["k"] == JNum(r.k.value);
    if r.filters.Some? {
      assert f["filters"].fields == r.filters.value;
      assert Strip(r.filters.value, FilterKeys) == r.filters.value;
    }
  }

  /**
   * Re-validating a normalised search request gives the same request: the
   * default 5 lies inside the accepted range of `k`.
   */
  lemma SearchValidationIdempotent(input: Json)
    requires ValidateSearch(input).Success?
    ensures ValidateSearch(SearchToJson(ValidateSearch(input).value)) == ValidateSearch(input)
  {
    ValidatedSearchIsWellFormed(input);
    SearchRoundTrip(ValidateSearch(input).value);
  }
}
