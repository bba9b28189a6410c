# Context bridge of ArchiveNET, modelled in Dafny

ArchiveNET's MCP server forwards two tool calls from an AI assistant, "insert
context" and "search context", to a remote HTTP API. This project models the
logic that surrounds those calls:

- the request schemas the tool arguments must satisfy (`src/types.ts`, compiled
  as `dist/types.js`);
- the configuration loader of the MCP server (`mcp/src/config.ts`);
- the `ContextAPIClient`, in its TypeScript form (`src/api-client.ts`) and its
  older compiled form (`dist/api-client.js`). This covers its header set, the
  request bodies it builds, and how every outcome of a call settles into a
  result or an error message;
- the Claude Desktop setup script (`setup-claude-mcp.js`). This covers the
  platform table for the configuration path, the check for required files,
  the `.env` parser with its required-key check, and the registration of the
  server under `mcpServers`.

Layout, one module per file:

| module | file | models |
|---|---|---|
| `Wrappers` | wrappers.dfy | `Option` (with `None` for `undefined`) and `Result` |
| `Json` | json.dfy | parsed JSON values, JavaScript truthiness, `m?.k`, `x \|\| d`, `{...m}` |
| `Text` | text.dfy | `trim`, `startsWith`, `split` / `join` on one character, decimal rendering |
| `Types` | types.dfy | `InsertContextSchema`, `SearchContextSchema` |
| `Config` | config.dfy | `ConfigSchema`, `loadConfig` |
| `RequestBodies` | request_bodies.dfy | the insert and search bodies |
| `Transport` | transport.dfy | one POST: timer, status check, body parse, `catch` mapping |
| `SourceClient` | source_client.dfy | `ContextAPIClient` of `src/api-client.ts` |
| `CompiledClient` | compiled_client.dfy | `ContextAPIClient` of `dist/api-client.js` |
| `EnvFile` | env_file.dfy | `readEnvFile` |
| `ClaudeSetup` | claude_setup.dfy | `getClaudeConfigPath`, `checkRequiredFiles`, `readClaudeConfig`, `updateClaudeConfig` |

Everything outside the process is an input. This covers the network's answer
to `fetch`, the clock reading used for the default timestamp, the environment
map, the content of `.env` and of the desktop configuration, the set of files
that exist, and whether the final write succeeds. The schema library's URL
check and `parseInt` are function parameters of `Config.LoadConfig`.

The client classes keep their header map in a `const` field. It is set once
in the constructor. `InsertContext` and `SearchContext` have no `modifies`
clause, so the verifier itself rules out any change to the headers during a
call.

Four points where the code is narrower than a reader might expect. The
model follows the code in each.

- `dist/api-client.d.ts:7` declares a private `normalizeSearchResponse`,
  but neither client has a body for it. Both return the parsed response
  JSON unchanged (`src/api-client.ts:54-55`, `src/api-client.ts:95-96`),
  which is what `Transport.Settle` returns.
- The abort timer is armed at `src/api-client.ts:27` and cleared only at
  `src/api-client.ts:48`, after `fetch` resolves. A `fetch` rejected for any
  reason other than the abort leaves it pending (`TimerState.Pending`).
- `mcp/src/config.ts:18-20` reads one `BASE_API_URL`, an optional `TOKEN`,
  and `parseInt(API_TIMEOUT)` when that is non-empty. The schema at
  `mcp/src/config.ts:11` checks only that this is a number, so zero and
  negative timeouts are accepted.
- `dist/types.d.ts:40` declares the search `filters` with a default, but
  the compiled schema at `dist/types.js:16-18` makes it optional. The model
  follows `dist/types.js` and `src/types.ts:18-20`.

## Model

| member | source | states |
|---|---|---|
| `Types.FieldIssues` | src/types.ts:6-11 | a nested object's field issues are empty exactly when every present listed field has its type (`tags` an array of strings, the others strings) |
| `Types.Strip` | src/types.ts:6-11 | normalisation keeps exactly the schema's keys the input has, with their values, and leaves an object that holds only schema keys unchanged |
| `Types.StripIdempotent` | src/types.ts:6-11 | stripping an already stripped object removes nothing more |
| `Types.ValidateInsert` | src/types.ts:4-12 | accepted exactly when `content` is a string of length at least 1 and `metadata` is absent or an object whose present known fields have their types; `null` is rejected; the result copies `content`, keeps only known metadata keys, and a rejection lists at least one path |
| `Types.ValidateSearch` | src/types.ts:15-21 | accepted exactly when `query` has length at least 1, `k` is absent or a number in [1, 100] (fractions allowed) and `filters` is absent or an object with an optional string-array `tags`; an absent `k` becomes 5 |
| `Types.ValidatedInsertIsWellFormed` | dist/types.js:3-11 | every accepted insert argument normalises to a well-formed request |
| `Types.InsertRoundTrip` | dist/types.js:3-11 | a well-formed insert request, written as JSON and validated, comes back unchanged |
| `Types.InsertValidationIdempotent` | src/types.ts:4-12 | re-validating a normalised insert request yields the same request |
| `Types.ValidatedSearchIsWellFormed` | dist/types.js:13-19 | every accepted search argument normalises to a well-formed request with `k` in range |
| `Types.SearchRoundTrip` | dist/types.js:13-19 | a well-formed search request, written as JSON and validated, comes back unchanged |
| `Types.SearchValidationIdempotent` | src/types.ts:17 | re-validating a normalised search request yields the same request, because the default 5 lies inside [1, 100] |
| `Config.Issues` | mcp/src/config.ts:8-21 | the issue list is empty exactly when the URL is present and valid and the timeout parses; it holds exactly one issue per failing field and none for a passing one, `baseApiUrl` before `apiTimeout`, each with its own message (Required, invalid URL, NaN) |
| `Config.Reports` | mcp/src/config.ts:27-29 | one `- <path>: <message>` line per issue, in issue order |
| `Config.LoadConfig` | mcp/src/config.ts:8-33 | succeeds exactly when `BASE_API_URL` is set and a URL and the timeout is not `NaN`; then `baseApiUrl` is copied, `token` is `TOKEN` when set, and `apiTimeout` is `parseInt(API_TIMEOUT)` when non-empty, else 30000; a failure exits with status 1 after the header line |
| `Config.EveryIssueReported` | mcp/src/config.ts:25-33 | a failed load reports every failing field, not only the first, with one line per issue |
| `Config.TimeoutNotRangeChecked` | mcp/src/config.ts:11 | whatever number `parseInt` yields (zero, negative) becomes the timeout |
| `RequestBodies.InsertMetadata` | src/api-client.ts:32-38 | the metadata is the four defaults overridden by the caller's metadata: keys are the four defaulted keys plus the caller's; every caller value, even a falsy one, wins; with no metadata it is exactly the defaults |
| `RequestBodies.InsertBody` | src/api-client.ts:30-39 | the body has exactly `content` (verbatim) and `metadata`, which is the defaulted and overridden `InsertMetadata` object |
| `RequestBodies.SearchFilters` | src/api-client.ts:76-79 | `tags` is the caller's when given, else `[]`; every other caller filter key is copied |
| `RequestBodies.SearchBody` | src/api-client.ts:73-80 | `query` and `k` are copied unchanged; `k` is present only when the caller gave it, so the client adds no default |
| `Transport.TimeoutIsUnprefixed` | src/api-client.ts:58-63 | the timeout message never starts with the operation's failure prefix |
| `Transport.CatchMessage` | src/api-client.ts:56-64 | an abort gives the bare timeout message; every other thrown value gives the operation prefix, followed by the error's message or "Unknown error", so the two can be told apart |
| `Transport.Settle` | src/api-client.ts:41-64 | success exactly for a 2xx status with a parsed body, returned unchanged; a non-2xx status gives `<Op> context failed: HTTP <status>: <statusText>`; an abort gives the timeout message; a non-Error gives "Unknown error"; any other rejection of `fetch`, and a failing `response.json()`, give the `catch` message of what was thrown (`<Op> context failed: <message>`); the timer is cleared exactly when `fetch` resolved and stays pending exactly when it rejected without an abort |
| `Transport.Post` | dist/api-client.js:12-47 | the per-call steps (arm the timer, post, clear it on resolve, check the status, parse, catch) settle as `Settle` says, and the request sent is a POST of the given headers and body |
| `SourceClient.ContextApiClient.constructor` | src/api-client.ts:12-22 | headers always hold `Content-Type: application/json` and `User-Agent: MCP-Context-Server/1.0.0`; `Authorization: Bearer <key>` is present exactly when the key is configured and non-empty |
| `SourceClient.ContextApiClient.InsertContext` | src/api-client.ts:24-65 | posts the insert body with the constructor's headers to the insert endpoint and settles as `Settle` says |
| `SourceClient.ContextApiClient.SearchContext` | src/api-client.ts:67-106 | posts the search body with the constructor's headers to the search endpoint and settles as `Settle` says |
| `CompiledClient.Headers` | dist/api-client.js:5-9 | the three headers are always present; `Authorization` is `Bearer ` followed by the key, or by `undefined` when none is configured |
| `CompiledClient.ContextApiClient.constructor` | dist/api-client.js:4-10 | the headers are the single literal `Headers` gives |
| `CompiledClient.ContextApiClient.InsertContext` | dist/api-client.js:11-48 | same body and settlement as the TypeScript client, with the compiled header set |
| `CompiledClient.ContextApiClient.SearchContext` | dist/api-client.js:49-84 | same body and settlement as the TypeScript client, with the compiled header set |
| `Text.Trim` | setup-claude-mcp.js:82 | `trim` cuts only white space, and all of it, from both ends and keeps the slice in between |
| `Text.NatToString` | src/api-client.ts:51 | the status in `HTTP ${response.status}` is rendered as decimal digits that denote it, with no leading zero |
| `Text.SplitAtFirst` | setup-claude-mcp.js:84-86 | in `[key, ...rest] = line.split('=')`, `key` is the text before the first `=`, `rest` is empty exactly when there is no `=`, and `rest.join('=')` is everything after the first `=` |
| `Text.JoinSplit` | setup-claude-mcp.js:84-86 | joining the pieces of a split with the same separator gives the string back |
| `EnvFile.LineEntry` | setup-claude-mcp.js:82-87 | a line defines an entry only when, trimmed, it is non-empty, not a comment and holds an `=`, so blank and `#` lines define nothing |
| `EnvFile.LineAtFirstEquals` | setup-claude-mcp.js:82-87 | a line defines an entry exactly when, trimmed, it is non-empty, not a comment and has a non-empty key before its first `=`; the key and the value are the trimmed text on either side of that `=`, and the key is non-empty |
| `EnvFile.CollectedKeys` | setup-claude-mcp.js:79-89 | a key is in the result exactly when some line defines it and it is not `__proto__`, whose assignment on the plain object `envVars` is ignored |
| `EnvFile.LastDefinitionWins` | setup-claude-mcp.js:86 | the value of a key other than `__proto__` is the one its last defining line gives |
| `EnvFile.CollectedKeysAreClean` | setup-claude-mcp.js:84-86 | every collected key is non-empty, with no white space at either end, and is not `__proto__` |
| `EnvFile.Parse` | setup-claude-mcp.js:78-89 | the variables of a file's content carry only clean keys (non-empty, trimmed, not `__proto__`) |
| `EnvFile.CollectLines` | setup-claude-mcp.js:81-89 | the line loop, updating the variables one line at a time, ends with exactly the `Collect` of the lines' entries |
| `EnvFile.Missing` | setup-claude-mcp.js:93 | the missing list holds exactly the required keys that are absent or empty |
| `EnvFile.ReadEnvFile` | setup-claude-mcp.js:74-107 | an unreadable file fails; otherwise the loop collects exactly `Parse(content)`, and the read succeeds exactly when both endpoint variables are set and non-empty, else it reports every missing one in declaration order (insert, then search) |
| `ClaudeSetup.ClaudeConfigPath` | setup-claude-mcp.js:21-35 | defined exactly for `darwin`, `win32` and `linux`, always ending in `Claude/claude_desktop_config.json`, after `Library/Application Support` under the home directory on `darwin` and `.config` on `linux`; on `win32` the base is `APPDATA` when non-empty, else `home/AppData/Roaming`; any other platform fails with "Unsupported platform: <platform>" |
| `ClaudeSetup.CheckRequiredFiles` | setup-claude-mcp.js:38-71 | true exactly when the server file and `.env` both exist; the missing labels are listed in declaration order |
| `ClaudeSetup.ServerEnv` | setup-claude-mcp.js:150-161 | the server env holds the endpoint keys `.env` has, `API_KEY` and `API_TIMEOUT` only when non-empty, and no other key, each with its `.env` value |
| `ClaudeSetup.BuildServerEnv` | setup-claude-mcp.js:150-161 | the in-place construction of the env block yields `ServerEnv` |
| `ClaudeSetup.ServerEntry` | setup-claude-mcp.js:164-168 | the entry has exactly `command: node`, `args: [serverPath]` and `env`, an object with the server env's keys and string values |
| `ClaudeSetup.ReadClaudeConfig` | setup-claude-mcp.js:123-137 | the parsed file, or a configuration whose only key is an empty `mcpServers` when the file is absent or unparsable |
| `ClaudeSetup.WithContextServer` | setup-claude-mcp.js:144-168 | the merge succeeds exactly on mergeable configurations; all other top-level keys and all other server entries are unchanged, a falsy `mcpServers` is replaced by an object holding only `context-server`, otherwise `context-server` becomes the new entry; an array configuration, or one whose `mcpServers` is an array, is written unchanged |
| `ClaudeSetup.WithContextServerIdempotent` | setup-claude-mcp.js:144-168 | registering the same entry twice gives the same configuration as registering it once |
| `ClaudeSetup.UpdateClaudeConfig` | setup-claude-mcp.js:140-180 | the update throws exactly when the merge does; otherwise the configuration written is the merged one, and it reports success exactly when the write succeeds |

## Findings

| source | as written | input that shows it | evidently intended | confidence | as-written member | corrected member |
|---|---|---|---|---|---|---|
| dist/api-client.js:7 | `Authorization` is set from a template literal even when no API key is configured | a configuration without `apiKey`: every request carries `Authorization: Bearer undefined` | send no `Authorization` header without a key, as `src/api-client.ts:18-21` does | high; not executed | `CompiledClient.Headers` | `SourceClient.ContextApiClient.constructor` |

## Left out

- Search-response normalisation: only a declaration exists (`dist/api-client.d.ts:7`), with no body. Both clients return the parsed JSON unchanged.
- The transport itself: `fetch`, `AbortController`, `setTimeout`, the timeout length and JSON serialisation. A call is modelled by its outcome, and the body is the value before `JSON.stringify`. Key order in objects is not modelled.
- `undefined`-valued keys inside caller metadata or filters cannot arise from a parsed JSON argument, so they are not modelled. `JSON.stringify` would drop them.
- `Types.ValidateInsert`: a rejection lists field paths, not the schema library's messages. A bad element of `tags` is reported at the `tags` path rather than at its index.
- `Types.ValidateSearch`: the schema's error messages and element indexes are coarsened in the same way.
- `Config.LoadConfig`: the URL check and `parseInt` are parameters. `parseInt`'s loss of precision above 2^53 is not modelled. The `Failed to load configuration` branch for non-schema errors is left out, since with an environment map as input nothing else can throw. Loading once at module start is a single call here.
- `dotenv.config()`, which fills the environment from a file before `loadConfig` reads it, is not part of this model.
- The setup script's console output, hints, `buildServer`, `testServer`, `displayCompletionMessage`, `ensureClaudeConfigDir` (directory creation) and `run` are left out. They are process and file-system orchestration. Only their inputs and the outcomes named above are modelled.
- `ClaudeSetup.ClaudeConfigPath`: the result is the list of segments given to `path.join`; separator insertion and normalisation are not modelled.
- `ClaudeSetup.UpdateClaudeConfig`: the configuration path is resolved before the merge and is not repeated here. An unsupported platform fails in `ClaudeConfigPath` before any file is touched.
- `mcp/scripts/setup-global.js`, `dist/index.js`, `client/src/lib/api.ts` and all `client/` components are not part of this model. They are npm orchestration, SDK wiring, thin HTTP wrappers or presentation.
