/**
 * The Claude Desktop side of the setup script: where the desktop
 * configuration lives on each platform, the check for the two files the
 * setup needs, and the update that registers the context server under
 * `mcpServers` while leaving everything else in the configuration alone.
 * File reads, writes and existence checks are reduced to their results.
 */
module ClaudeSetup {
  import opened Wrappers
  import opened Json
  import opened EnvFile

  const ConfigFileName: string := "claude_desktop_config.json"
  const ServerName: string := "context-server"
  const ApiKeyKey: string := "API_KEY"
  const TimeoutKey: string := "API_TIMEOUT"
  const ServerFileLabel: string := "MCP Server (dist/index.js)"
  const EnvFileLabel: string := "Environment file (.env)"

  /**
   * `getClaudeConfigPath()` as the list of path segments `path.join` receives.
   * On Windows the base is `APPDATA` when set and non-empty, else the
   * roaming folder under the home directory.
   */
  function ClaudeConfigPath(platform: string, home: string, appData: Option<string>): (r: Result<seq<string>, string>)
    ensures r.Success? <==> platform == "darwin" || platform == "win32" || platform == "linux"
    ensures r.Failure? ==> r.error == "Unsupported platform: " + platform
    ensures r.Success? ==> |r.value| >= 3 && r.value[|r.value| - 2..] == ["Claude", ConfigFileName]
    ensures r.Success? && platform != "win32" ==> r.value[0] == home
    ensures r.Success? && platform == "darwin" ==> r.value[1..|r.value| - 2] == ["Library", "Application Support"]
    ensures r.Success? && platform == "linux" ==> r.value[1..|r.value| - 2] == [".config"]
    ensures r.Success? && platform == "win32" ==>
      r.value[..|r.value| - 2] == if appData.Some? && appData.value != "" then [appData.value] else [home, "AppData", "Roaming"]
  {
    if platform == "darwin" then Success([home, "Library", "Application Support", "Claude", ConfigFileName])
    else if platform == "win32" then
      var base := if appData.Some? && appData.value != "" then [appData.value] else [home, "AppData", "Roaming"];
      Success(base + ["Claude", ConfigFileName])
    else if platform == "linux" then Success([home, ".config", "Claude", ConfigFileName])
    else Failure("Unsupported platform: " + platform)
  }

  datatype RequiredFile = RequiredFile(path: string, name: string)

  /** The labels of the files that do not exist, in list order. */
  ghost function MissingFiles(files: seq<RequiredFile>, existing: set<string>): seq<string>
  {
    if files == [] then []
    else MissingFiles(files[..|files| - 1], existing)
         + (if files[|files| - 1].path in existing then [] else [files[|files| - 1].name])
  }

  /**
   * `checkRequiredFiles()`, given the set of paths that exist: succeeds
   * exactly when the server and `.env` both exist, and lists the missing ones
   * in declaration order.
   */
  method CheckRequiredFiles(serverPath: string, envPath: string, existing: set<string>)
    returns (ok: bool, missing: seq<string>)
    ensures ok <==> serverPath in existing && envPath in existing
    ensures ok <==> missing == []
    ensures missing == (if serverPath in existing then [] else [ServerFileLabel])
                       + (if envPath in existing then [] else [EnvFileLabel])
  {
    var files := [RequiredFile(serverPath, ServerFileLabel), RequiredFile(envPath, EnvFileLabel)];
    missing := [];
    for i := 0 to |files|
      invariant missing == MissingFiles(files[..i], existing)
    {
      assert files[..i + 1][..i] == files[..i];
      if files[i].path !in existing {
        missing := missing + [files[i].name];
      }
    }
    assert files[..2] == files;
    ok := |missing| == 0;
  }

  /**
   * The `env` block of the server entry: the two endpoints whenever `.env`
   * has them, `API_KEY` and `API_TIMEOUT` only when non-empty, nothing else.
   */
  function ServerEnv(vars: map<string, string>): (env: map<string, string>)
    ensures forall k :: k in env <==>
      ((k == InsertKey || k == SearchKey) && k in vars) || ((k == ApiKeyKey || k == TimeoutKey) && IsSet(vars, k))
    ensures forall k :: k in env ==> k in vars && env[k] == vars[k]
  {
    map k | k in vars && (k == InsertKey || k == SearchKey || ((k == ApiKeyKey || k == TimeoutKey) && vars[k] != "")) :: vars[k]
  }

  /** The in-place construction of the `env` block. */
  method BuildServerEnv(vars: map<string, string>) returns (mcpEnv: map<string, string>)
    ensures mcpEnv == ServerEnv(vars)
  {
    mcpEnv := map[];
    if InsertKey in vars {
      mcpEnv := mcpEnv[InsertKey := vars[InsertKey]];
    }
    if SearchKey in vars {
      mcpEnv := mcpEnv[SearchKey := vars[SearchKey]];
    }
    if IsSet(vars, ApiKeyKey) {
      mcpEnv := mcpEnv[ApiKeyKey := vars[ApiKeyKey]];
    }
    if IsSet(vars, TimeoutKey) {
      mcpEnv := mcpEnv[TimeoutKey := vars[TimeoutKey]];
    }
    assert mcpEnv.Keys == ServerEnv(vars).Keys;
  }

  /**
   * The `context-server` entry: run `node` on the server path, with the
   * server env as an object of strings.
   */
  function ServerEntry(serverPath: string, env: map<string, string>): (e: Json)
    ensures e.JObj? && e.fields.Keys == {"command", "args", "env"}
    ensures e.fields["command"] == JStr("node") && e.fields["args"] == JArr([JStr(serverPath)])
    ensures var j := e.fields["env"];
      && j.JObj? && j.fields.Keys == env.Keys
      && forall k :: k in env ==> j.fields[k] == JStr(env[k])
  {
    JObj(map["command" := JStr("node"), "args" := JArr([JStr(serverPath)]), "env" := StringMap(env)])
  }

  /** What the existing desktop configuration file holds. */
  datatype ConfigFile = Absent | Unparsable | Parsed(json: Json)

  /** `readClaudeConfig()`: the parsed file, or a fresh configuration with an empty `mcpServers`. */
  function ReadClaudeConfig(file: ConfigFile): (config: Json)
    ensures file.Parsed? ==> config == file.json
    ensures !file.Parsed? ==> config.JObj? && config.fields.Keys == {"mcpServers"} && config.fields["mcpServers"] == JObj(map[])
  {
    if file.Parsed? then file.json else JObj(map["mcpServers" := JObj(map[])])
  }

  predicate HoldsObject(fields: map<string, Json>, key: string)
  {
    key in fields && fields[key].JObj?
  }

  predicate HoldsArray(fields: map<string, Json>, key: string)
  {
    key in fields && fields[key].JArr?
  }

  /**
   * A configuration the merge does not throw on: an array, or an object whose
   * `mcpServers` is falsy, an object or an array.
   */
  predicate Mergeable(config: Json)
  {
    || config.JArr?
    || (&& config.JObj?
        && (|| !Truthy(Get(Some(config.fields), "mcpServers"))
            || HoldsObject(config.fields, "mcpServers")
            || HoldsArray(config.fields, "mcpServers")))
  }

  /**
   * The configuration as it is written after `mcpServers` is created when
   * falsy and its `context-server` entry is set, or `None` when that throws
   * a `TypeError` (a `null` configuration, or a property set on a primitive
   * in strict-mode code). Properties set on an array are not serialised.
   */
  function WithContextServer(config: Json, entry: Json): (r: Option<Json>)
    ensures r.Some? <==> Mergeable(config)
    ensures r.Some? && config.JObj? ==>
      && r.value.JObj?
      && r.value.fields.Keys == config.fields.Keys + {"mcpServers"}
      && (forall k :: k in config.fields && k != "mcpServers" ==> r.value.fields[k] == config.fields[k])
    ensures r.Some? && config.JObj? && !HoldsArray(config.fields, "mcpServers") ==>
      && r.value.fields["mcpServers"].JObj?
      && ServerName in r.value.fields["mcpServers"].fields
      && r.value.fields["mcpServers"].fields[ServerName] == entry
    ensures r.Some? && config.JObj? && HoldsObject(config.fields, "mcpServers") ==>
      var before := config.fields["mcpServers"].fields;
      var after := r.value.fields["mcpServers"].fields;
      && after.Keys == before.Keys + {ServerName}
      && forall n :: n in before && n != ServerName ==> after[n] == before[n]
    ensures r.Some? && config.JObj? && !Truthy(Get(Some(config.fields), "mcpServers")) ==>
      r.value.fields["mcpServers"] == JObj(map[ServerName := entry])
    ensures config.JArr? ==> r == Some(config)
    ensures config.JObj? && HoldsArray(config.fields, "mcpServers") ==> r == Some(config)
  {
    match config
    case JObj(top) =>
      var servers := if Truthy(Get(Some(top), "mcpServers")) then top["mcpServers"] else JObj(map[]);
      (match servers
       case JObj(s) => Some(JObj(top["mcpServers" := JObj(s[ServerName := entry])]))
       case JArr(_) => Some(config)
       case _ => None)
    case JArr(_) => Some(config)
    case _ => None
  }

  /** Registering the same entry a second time changes nothing. */
  lemma {:induction false} WithContextServerIdempotent(config: Json, entry: Json)
    requires WithContextServer(config, entry).Some?
    ensures WithContextServer(WithContextServer(config, entry).value, entry) == WithContextServer(config, entry)
  {
    var once := WithContextServer(config, entry).value;
    if config.JObj? && once.fields["mcpServers"].JObj? {
      var s := once.fields["mcpServers"].fields;
      assert Truthy(Get(Some(once.fields), "mcpServers"));
      assert s[ServerName := entry] == s;
      assert once.fields["mcpServers" := JObj(s)] == once.fields;
    }
  }

  /** How `updateClaudeConfig` ends: written, the write failed, or a `TypeError` escaped. */
  datatype UpdateOutcome = Updated(config: Json) | WriteFailed(config: Json) | Threw

  /**
   * `updateClaudeConfig(envVars)` from the existing configuration file on:
   * the server entry is built from `.env` and merged in place, then the
   * configuration is written (`writeSucceeds` is the write's fate).
   */
  method UpdateClaudeConfig(existing: ConfigFile, vars: map<string, string>, serverPath: string, writeSucceeds: bool)
    returns (r: UpdateOutcome)
    ensures var merged := WithContextServer(ReadClaudeConfig(existing), ServerEntry(serverPath, ServerEnv(vars)));
      && (r.Threw? <==> merged.None?)
      && (r.Updated? <==> merged.Some? && writeSucceeds)
      && (!r.Threw? ==> r.config == merged.value)
  {
    var config := ReadClaudeConfig(existing);
    if !config.JObj? && !config.JArr? {
      return Threw;
    }
    var top := if config.JObj? then config.fields else map[];
    if config.JObj? && !Truthy(Get(Some(top), "mcpServers")) {
      top := top["mcpServers" := JObj(map[])];
    }

    var mcpEnv := BuildServerEnv(vars);
    var entry := ServerEntry(serverPath, mcpEnv);

    var written := config;
    if config.JObj? {
      match top["mcpServers"] {
        case JObj(s) => written := JObj(top["mcpServers" := JObj(s[ServerName := entry])]);
        case JArr(_) =>
        case _ => return Threw;
      }
    }
    if writeSucceeds {
      r := Updated(written);
    } else {
      r := WriteFailed(written);
    }
  }
}
