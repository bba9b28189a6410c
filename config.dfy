/**
 * The MCP server's configuration loader: the environment map becomes either
 * a validated configuration or an exit with status 1 after every validation
 * issue has been reported. The URL check of the schema library and
 * `parseInt` are parameters; `parseInt` answers `None` for `NaN`.
 */
module Config {
  import opened Wrappers

  datatype Config = Config(baseApiUrl: string, token: Option<string>, apiTimeout: int)

  /** One schema issue: the field path and the message. */
  datatype Issue = Issue(path: string, message: string)

  /** A failed load: the process exit status and the lines written to standard error. */
  datatype Exit = Exit(status: int, stderr: seq<string>)

  const DefaultTimeout: int := 30000
  const Header: string := "Configuration validation failed:"
  const RequiredMessage: string := "Required"
  const UrlMessage: string := "BASE_API_URL must be a valid URL"
  const NaNMessage: string := "Expected number, received nan"

  /** The value handed to the schema for `apiTimeout`: `parseInt(API_TIMEOUT)` when set and non-empty, else 30000. */
  function TimeoutInput(env: map<string, string>, parseInt: string -> Option<int>): Option<int>
  {
    if "API_TIMEOUT" in env && env["API_TIMEOUT"] != "" then parseInt(env["API_TIMEOUT"]) else Some(DefaultTimeout)
  }

  /** The issues the schema raises, in field order: `baseApiUrl`, then `apiTimeout`. */
  function Issues(env: map<string, string>, isUrl: string -> bool, parseInt: string -> Option<int>): (issues: seq<Issue>)
    ensures issues == [] <==>
      "BASE_API_URL" in env && isUrl(env["BASE_API_URL"]) && TimeoutInput(env, parseInt).Some?
    ensures |issues| ==
      (if "BASE_API_URL" in env && isUrl(env["BASE_API_URL"]) then 0 else 1)
      + (if TimeoutInput(env, parseInt).Some? then 0 else 1)
    ensures |issues| == 2 ==> issues[0].path == "baseApiUrl" && issues[1].path == "apiTimeout"
    ensures "BASE_API_URL" !in env ==> issues[0] == Issue("baseApiUrl", RequiredMessage)
    ensures "BASE_API_URL" in env && !isUrl(env["BASE_API_URL"]) ==> issues[0] == Issue("baseApiUrl", UrlMessage)
    ensures TimeoutInput(env, parseInt).None? ==> issues[|issues| - 1] == Issue("apiTimeout", NaNMessage)
  {
    (if "BASE_API_URL" !in env then [Issue("baseApiUrl", RequiredMessage)]
     else if !isUrl(env["BASE_API_URL"]) then [Issue("baseApiUrl", UrlMessage)]
     else [])
    + (if TimeoutInput(env, parseInt).None? then [Issue("apiTimeout", NaNMessage)] else [])
  }

  /** The line printed for one issue. */
  function Report(issue: Issue): string
  {
    "- " + issue.path + ": " + issue.message
  }

  function Reports(issues: seq<Issue>): (lines: seq<string>)
    ensures |lines| == |issues|
    ensures forall i :: 0 <= i < |issues| ==> lines[i] == Report(issues[i])
  {
    if issues == [] then [] else [Report(issues[0])] + Reports(issues[1..])
  }

  /** `loadConfig()` */
  function LoadConfig(env: map<string, string>, isUrl: string -> bool, parseInt: string -> Option<int>): (r: Result<Config, Exit>)
    ensures r.Success? <==>
      && "BASE_API_URL" in env && isUrl(env["BASE_API_URL"])
      && TimeoutInput(env, parseInt).Some?
    ensures r.Success? ==>
      && r.value.baseApiUrl == env["BASE_API_URL"]
      && r.value.token == (if "TOKEN" in env then Some(env["TOKEN"]) else None)
      && r.value.apiTimeout == (if "API_TIMEOUT" in env && env["API_TIMEOUT"] != ""
                                then parseInt(env["API_TIMEOUT"]).value else DefaultTimeout)
    ensures r.Failure? ==>
      && r.error.status == 1
      && |r.error.stderr| >= 2
      && r.error.stderr[0] == Header
  {
    var issues := Issues(env, isUrl, parseInt);
    if issues == [] then
      Success(Config(env["BASE_API_URL"],
                     if "TOKEN" in env then Some(env["TOKEN"]) else None,
                     TimeoutInput(env, parseInt).value))
    else
      Failure(Exit(1, [Header] + Reports(issues)))
  }

  /**
   * A failed load reports every failing field, not only the first: a missing
   * or malformed URL and an unparsable timeout each get their own line.
   */
  lemma {:induction false} EveryIssueReported(env: map<string, string>, isUrl: string -> bool, parseInt: string -> Option<int>)
    requires LoadConfig(env, isUrl, parseInt).Failure?
    ensures var lines := LoadConfig(env, isUrl, parseInt).error.stderr;
      && ("BASE_API_URL" !in env ==> Report(Issue("baseApiUrl", RequiredMessage)) in lines)
      && ("BASE_API_URL" in env && !isUrl(env["BASE_API_URL"]) ==> Report(Issue("baseApiUrl", UrlMessage)) in lines)
      && (TimeoutInput(env, parseInt).None? ==> Report(Issue("apiTimeout", NaNMessage)) in lines)
      && |lines| == 1 + |Issues(env, isUrl, parseInt)|
  {
    var issues := Issues(env, isUrl, parseInt);
    var lines := [Header] + Reports(issues);
    assert forall i :: 0 <= i < |issues| ==> lines[i + 1] == Report(issues[i]);
    if TimeoutInput(env, parseInt).None? {
      assert issues[|issues| - 1] == Issue("apiTimeout", NaNMessage);
      assert lines[|issues|] == Report(issues[|issues| - 1]);
    }
  }

  /** Any value `parseInt` yields is accepted as the timeout: zero, negative or huge. */
  lemma TimeoutNotRangeChecked(env: map<string, string>, isUrl: string -> bool, parseInt: string -> Option<int>)
    requires "BASE_API_URL" in env && isUrl(env["BASE_API_URL"])
    requires "API_TIMEOUT" in env && env["API_TIMEOUT"] != ""
    requires parseInt(env["API_TIMEOUT"]).Some?
    ensures LoadConfig(env, isUrl, parseInt) ==
      Success(Config(env["BASE_API_URL"],
                     if "TOKEN" in env then Some(env["TOKEN"]) else None,
                     parseInt(env["API_TIMEOUT"]).value))
  {
  }
}
