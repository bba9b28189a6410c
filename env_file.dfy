/**
 * The `.env` reader of the Claude Desktop setup script: a line-based
 * `KEY=VALUE` parser (blank and `#` lines ignored, split at the first `=`,
 * key and value trimmed, a later line overriding an earlier one) followed by
 * the check that both endpoint variables are set. The file read is reduced
 * to its content, or `None` when it cannot be read.
 */
module EnvFile {
  import opened Wrappers
  import opened Text

  datatype Entry = Entry(key: string, value: string)

  /** What `readEnvFile` returns (`null` for the two failures) and what it reported. */
  datatype EnvRead = Loaded(vars: map<string, string>) | MissingKeys(keys: seq<string>) | Unreadable

  const InsertKey: string := "INSERT_CONTEXT_ENDPOINT"
  const SearchKey: string := "SEARCH_CONTEXT_ENDPOINT"
  const Required: seq<string> := [InsertKey, SearchKey]

  /**
   * Assigning this key on a plain object goes through the inherited
   * `__proto__` setter, which ignores a string: no property is created.
   */
  const ProtoKey: string := "__proto__"

  /**
   * The entry one line defines, if any (the body of the line loop): blank
   * and `#` lines define nothing, nor does a line without `=`.
   */
  function LineEntry(raw: string): (e: Option<Entry>)
    ensures e.Some? ==> Trim(raw) != [] && Trim(raw)[0] != '#' && '=' in Trim(raw)
  {
    var line := Trim(raw);
    if line != [] && !StartsWith(line, "#") then
      var parts := Split(line, '=');
      SplitAtFirst(line, '=');
      assert StartsWith(line, "#") <==> line[0] == '#' by {
        assert StartsWith(line, "#") <==> line[..1] == "#";
        assert line[..1] == [line[0]];
      }
      var key := parts[0];
      var valueParts := parts[1..];
      if key != [] && |valueParts| > 0 then Some(Entry(Trim(key), Trim(Join(valueParts, '='))))
      else None
    else None
  }

  /**
   * A line defines an entry exactly when, once trimmed, it is neither empty
   * nor a comment and has a non-empty key before its first `=`; the key is
   * the trimmed text before that `=` and the value the trimmed rest, later
   * `=` signs included.
   */
  lemma LineAtFirstEquals(raw: string)
    ensures var line := Trim(raw);
      LineEntry(raw).Some? <==> line != [] && line[0] != '#' && '=' in line && FirstIndex(line, '=') > 0
    ensures LineEntry(raw).Some? ==>
      var line := Trim(raw);
      var i := FirstIndex(line, '=');
      && LineEntry(raw).value.key == Trim(line[..i])
      && LineEntry(raw).value.value == Trim(line[i + 1..])
      && LineEntry(raw).value.key != []
  {
    var line := Trim(raw);
    assert line != [] ==> (StartsWith(line, "#") <==> line[0] == '#') by {
      if line != [] {
        assert StartsWith(line, "#") <==> line[..1] == "#";
        assert line[..1] == [line[0]];
      }
    }
    if line != [] && !StartsWith(line, "#") {
      var parts := Split(line, '=');
      SplitAtFirst(line, '=');
      assert LineEntry(raw) == if parts[0] != [] && |parts[1..]| > 0
        then Some(Entry(Trim(parts[0]), Trim(Join(parts[1..], '=')))) else None;
      if '=' in line {
        var i := FirstIndex(line, '=');
        if i > 0 {
          TrimKeepsFirst(line[..i]);
        }
      }
    }
  }

  /** The entry of every line, in file order. */
  function Entries(lines: seq<string>): (es: seq<Option<Entry>>)
    ensures |es| == |lines| && forall i :: 0 <= i < |lines| ==> es[i] == LineEntry(lines[i])
  {
    seq(|lines|, i requires 0 <= i < |lines| => LineEntry(lines[i]))
  }

  /** An entry for `key`. */
  predicate Defines(e: Option<Entry>, key: string)
  {
    e.Some? && e.value.key == key
  }

  /** The variables after the line loop has seen these entries, in order. */
  function Collect(es: seq<Option<Entry>>): map<string, string>
  {
    if es == [] then map[]
    else
      var vars := Collect(es[..|es| - 1]);
      match es[|es| - 1]
      case None => vars
      case Some(e) => if e.key == ProtoKey then vars else vars[e.key := e.value]
  }

  /**
   * The variables `readEnvFile` collects from a file's content: every key is
   * non-empty, has no white space at either end and is not `__proto__`.
   */
  function Parse(content: string): (vars: map<string, string>)
    ensures forall key :: key in vars ==>
      key != [] && !IsSpace(key[0]) && !IsSpace(key[|key| - 1]) && key != ProtoKey
  {
    var lines := Split(content, '\n');
    CollectedKeysAreClean(lines);
    Collect(Entries(lines))
  }

  /** A key is collected exactly when some line defines it. */
  lemma {:induction false} CollectedKeys(es: seq<Option<Entry>>, key: string)
    ensures key in Collect(es) <==> key != ProtoKey && exists i :: 0 <= i < |es| && Defines(es[i], key)
  {
    if es != [] {
      var init := es[..|es| - 1];
      CollectedKeys(init, key);
      if exists i :: 0 <= i < |init| && Defines(init[i], key) {
        var i :| 0 <= i < |init| && Defines(init[i], key);
        assert es[i] == init[i];
      }
      if exists i :: 0 <= i < |es| && Defines(es[i], key) {
        var i :| 0 <= i < |es| && Defines(es[i], key);
        if i < |init| {
          assert init[i] == es[i];
        }
      }
    }
  }

  /** The value of a key is the one its last defining line gives: later duplicates overwrite. */
  lemma {:induction false} LastDefinitionWins(es: seq<Option<Entry>>, i: nat, key: string)
    requires i < |es| && Defines(es[i], key) && key != ProtoKey
    requires forall j :: i < j < |es| ==> !Defines(es[j], key)
    ensures key in Collect(es) && Collect(es)[key] == es[i].value.value
  {
    var init := es[..|es| - 1];
    if i < |es| - 1 {
      forall j | i < j < |init| ensures !Defines(init[j], key) {
        assert init[j] == es[j];
      }
      assert init[i] == es[i];
      LastDefinitionWins(init, i, key);
    }
  }

  /** Every key collected from these lines is non-empty and has no white space at either end. */
  lemma CollectedKeysAreClean(lines: seq<string>)
    ensures forall key :: key in Collect(Entries(lines)) ==>
      key != [] && !IsSpace(key[0]) && !IsSpace(key[|key| - 1]) && key != ProtoKey
  {
    forall key | key in Collect(Entries(lines))
      ensures key != [] && !IsSpace(key[0]) && !IsSpace(key[|key| - 1]) && key != ProtoKey
    {
      CollectedKeys(Entries(lines), key);
      var i :| 0 <= i < |lines| && Defines(Entries(lines)[i], key);
      LineAtFirstEquals(lines[i]);
    }
  }

  /** `envVars[key]` is truthy. */
  predicate IsSet(vars: map<string, string>, key: string)
  {
    key in vars && vars[key] != ""
  }

  /** `keys.filter(key => !envVars[key])` */
  function Missing(vars: map<string, string>, keys: seq<string>): (missing: seq<string>)
    ensures forall k :: k in missing <==> k in keys && !IsSet(vars, k)
    ensures |missing| <= |keys|
  {
    if keys == [] then []
    else (if IsSet(vars, keys[0]) then [] else [keys[0]]) + Missing(vars, keys[1..])
  }

  /** The line loop of `readEnvFile`: each defining line sets its key, in file order. */
  method CollectLines(lines: seq<string>) returns (vars: map<string, string>)
    ensures vars == Collect(Entries(lines))
  {
    ghost var es := Entries(lines);
    vars := map[];
    for i := 0 to |lines|
      invariant vars == Collect(es[..i])
    {
      assert es[..i + 1][..i] == es[..i];
      match LineEntry(lines[i]) {
        case Some(e) =>
          if e.key != ProtoKey {
            vars := vars[e.key := e.value];
          }
        case None =>
      }
    }
    assert es[..|lines|] == es;
  }

  /** `readEnvFile()` */
  method ReadEnvFile(file: Option<string>) returns (r: EnvRead)
    ensures file.None? ==> r == Unreadable
    ensures file.Some? ==> !r.Unreadable?
    ensures file.Some? ==>
      (r.Loaded? <==> IsSet(Parse(file.value), InsertKey) && IsSet(Parse(file.value), SearchKey))
    ensures r.Loaded? ==> r.vars == Parse(file.value)
    ensures r.MissingKeys? ==> r.keys == Missing(Parse(file.value), Required) && r.keys != []
    ensures r.MissingKeys? ==>
      r.keys == (if IsSet(Parse(file.value), InsertKey) then [] else [InsertKey])
              + (if IsSet(Parse(file.value), SearchKey) then [] else [SearchKey])
  {
    if file.None? {
      return Unreadable;
    }
    var vars := CollectLines(Split(file.value, '\n'));
    assert vars == Parse(file.value);
    var missing := Missing(vars, Required);
    if |missing| > 0 {
      assert missing[0] in missing;
      return MissingKeys(missing);
    }
    assert InsertKey in Required && SearchKey in Required;
    return Loaded(vars);
  }
}
