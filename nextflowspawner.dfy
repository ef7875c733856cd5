/**
 * The current spawner, src/nextflowspawner/__init__.py: the `nextflow run`
 * command line built by `ignite`, the environment handed to it by `get_env`,
 * the walk of the pipeline's parameter schema, the HTML options form and the
 * resolution of a submitted form into typed pipeline parameters.
 */
module NextflowSpawner {
  import opened Python
  import opened FormData

  // ===========================================================================
  // ignite: the command line of the proxied Nextflow process

  /** The dict `ignite` returns to jupyter-server-proxy. */
  datatype ProxyConfig = ProxyConfig(
    command: seq<string>,
    timeout: nat,
    launcherTitle: string,
    unixSocket: bool,
    rawSocketProxy: bool)

  function BaseCommand(workflow: string): seq<string>
  {
    ["nextflow", "run", workflow, "--SOCKET={unix_socket}", "-resume"]
  }

  /** `[flag, env[name]]` when the variable is set, nothing otherwise. */
  function FlagIfSet(env: map<string, string>, flag: string, name: string): (args: seq<string>)
  {
    if name in env then [flag, env[name]] else []
  }

  /** The command `ignite` hands to the proxy, or the KeyError of the missing workflow variable. */
  function LaunchCommand(env: map<string, string>): (r: Result<seq<string>>)
    ensures "NXF_USER_WORKFLOW" !in env <==> r == Err(KeyError("NXF_USER_WORKFLOW"))
    ensures r.Ok? ==> |r.value| >= 5 && r.value[..5] == BaseCommand(env["NXF_USER_WORKFLOW"])
  {
    if "NXF_USER_WORKFLOW" !in env then Err(KeyError("NXF_USER_WORKFLOW"))
    else Ok(BaseCommand(env["NXF_USER_WORKFLOW"])
            + FlagIfSet(env, "-r", "NXF_USER_REVISION")
            + FlagIfSet(env, "-params-file", "NXF_USER_PARAMS")
            + FlagIfSet(env, "-with-weblog", "NXF_USER_ENDPOINT")
            + FlagIfSet(env, "-profile", "NXF_USER_PROFILE"))
  }

  /** How nextflow reads `-flag value` pairs back: each even position names a flag, the next one is its value. */
  function FlagValues(args: seq<string>): map<string, string>
  {
    if |args| < 2 then map[] else FlagValues(args[2..])[args[0] := args[1]]
  }

  lemma FlagValuesAppend(a: seq<string>, b: seq<string>)
    requires |a| == 0 || |a| == 2
    ensures FlagValues(a + b) == if a == [] then FlagValues(b) else FlagValues(b)[a[0] := a[1]]
  {
    if a != [] {
      assert (a + b)[2..] == b;
    } else {
      assert a + b == b;
    }
  }

  /** Reading the options after `-resume` back recovers exactly the set optional variables, each under its flag. */
  lemma LaunchCommandFlags(env: map<string, string>)
    requires "NXF_USER_WORKFLOW" in env
    ensures
      var opts := FlagValues(LaunchCommand(env).value[5..]);
      && opts.Keys <= {"-r", "-params-file", "-with-weblog", "-profile"}
      && ("-r" in opts <==> "NXF_USER_REVISION" in env)
      && ("-r" in opts ==> opts["-r"] == env["NXF_USER_REVISION"])
      && ("-params-file" in opts <==> "NXF_USER_PARAMS" in env)
      && ("-params-file" in opts ==> opts["-params-file"] == env["NXF_USER_PARAMS"])
      && ("-with-weblog" in opts <==> "NXF_USER_ENDPOINT" in env)
      && ("-with-weblog" in opts ==> opts["-with-weblog"] == env["NXF_USER_ENDPOINT"])
      && ("-profile" in opts <==> "NXF_USER_PROFILE" in env)
      && ("-profile" in opts ==> opts["-profile"] == env["NXF_USER_PROFILE"])
  {
    var r := FlagIfSet(env, "-r", "NXF_USER_REVISION");
    var p := FlagIfSet(env, "-params-file", "NXF_USER_PARAMS");
    var w := FlagIfSet(env, "-with-weblog", "NXF_USER_ENDPOINT");
    var f := FlagIfSet(env, "-profile", "NXF_USER_PROFILE");
    var cmd := LaunchCommand(env).value;
    assert cmd[5..] == r + (p + (w + f));
    FlagValuesAppend(r, p + (w + f));
    FlagValuesAppend(p, w + f);
    FlagValuesAppend(w, f);
    FlagValuesAppend(f, []);
    assert f + [] == f;
  }

  /** ignite: extend the base command with each optional flag whose variable is set (lines 14-36). */
  method Ignite(env: map<string, string>) returns (r: Result<ProxyConfig>)
    ensures "NXF_USER_WORKFLOW" !in env ==> r == Err(KeyError("NXF_USER_WORKFLOW"))
    ensures "NXF_USER_WORKFLOW" in env ==>
      r == Ok(ProxyConfig(LaunchCommand(env).value, 120, "Nextflow", true, true))
  {
    if "NXF_USER_WORKFLOW" !in env {
      return Err(KeyError("NXF_USER_WORKFLOW"));
    }
    var cmd := ["nextflow", "run", env["NXF_USER_WORKFLOW"], "--SOCKET={unix_socket}", "-resume"];
    if "NXF_USER_REVISION" in env {
      cmd := cmd + ["-r", env["NXF_USER_REVISION"]];
    }
    if "NXF_USER_PARAMS" in env {
      cmd := cmd + ["-params-file", env["NXF_USER_PARAMS"]];
    }
    if "NXF_USER_ENDPOINT" in env {
      cmd := cmd + ["-with-weblog", env["NXF_USER_ENDPOINT"]];
    }
    if "NXF_USER_PROFILE" in env {
      cmd := cmd + ["-profile", env["NXF_USER_PROFILE"]];
    }
    assert cmd == BaseCommand(env["NXF_USER_WORKFLOW"])
            + FlagIfSet(env, "-r", "NXF_USER_REVISION")
            + FlagIfSet(env, "-params-file", "NXF_USER_PARAMS")
            + FlagIfSet(env, "-with-weblog", "NXF_USER_ENDPOINT")
            + FlagIfSet(env, "-profile", "NXF_USER_PROFILE");
    return Ok(ProxyConfig(cmd, 120, "Nextflow", true, true));
  }

  // ===========================================================================
  // get_env: the variables that ignite reads

  /** A traitlets Unicode that allows None is set when it holds a non-empty string. */
  predicate Configured(setting: Option<string>)
  {
    setting.Some? && setting.value != ""
  }

  /** The environment of get_env; paramsFile is the path _write_params_file returned for the user options. */
  function SpawnerEnv(
    base: map<string, string>, homeDir: string, nxfHome: string, workflowUrl: string,
    workflowRevision: string, paramsFile: string, logEndpoint: Option<string>, nxfProfile: Option<string>
  ): (env: map<string, string>)
    ensures env.Keys == base.Keys + SetByGetEnv(logEndpoint, nxfProfile)
    ensures env["HOME"] == homeDir && env["NXF_HOME"] == nxfHome
    ensures env["NXF_USER_WORKFLOW"] == workflowUrl && env["NXF_USER_REVISION"] == workflowRevision
    ensures env["NXF_USER_PARAMS"] == paramsFile
    ensures Configured(logEndpoint) ==> env["NXF_USER_ENDPOINT"] == logEndpoint.value
    ensures Configured(nxfProfile) ==> env["NXF_USER_PROFILE"] == nxfProfile.value
    ensures forall k :: k in base && k !in SetByGetEnv(logEndpoint, nxfProfile) ==> env[k] == base[k]
  {
    var env := base["HOME" := homeDir]["NXF_HOME" := nxfHome]["NXF_USER_WORKFLOW" := workflowUrl]
                   ["NXF_USER_REVISION" := workflowRevision]["NXF_USER_PARAMS" := paramsFile];
    var env := if Configured(logEndpoint) then env["NXF_USER_ENDPOINT" := logEndpoint.value] else env;
    if Configured(nxfProfile) then env["NXF_USER_PROFILE" := nxfProfile.value] else env
  }

  /** The variables get_env sets: the five it always sets, and the endpoint and profile when configured. */
  function SetByGetEnv(logEndpoint: Option<string>, nxfProfile: Option<string>): set<string>
  {
    {"HOME", "NXF_HOME", "NXF_USER_WORKFLOW", "NXF_USER_REVISION", "NXF_USER_PARAMS"}
    + (if Configured(logEndpoint) then {"NXF_USER_ENDPOINT"} else {})
    + (if Configured(nxfProfile) then {"NXF_USER_PROFILE"} else {})
  }

  /** get_env: set the launch variables on top of the base environment (lines 225-236). */
  method GetEnv(
    base: map<string, string>, homeDir: string, nxfHome: string, workflowUrl: string,
    workflowRevision: string, paramsFile: string, logEndpoint: Option<string>, nxfProfile: Option<string>
  ) returns (env: map<string, string>)
    ensures env == SpawnerEnv(base, homeDir, nxfHome, workflowUrl, workflowRevision, paramsFile, logEndpoint, nxfProfile)
  {
    env := base;
    env := env["HOME" := homeDir];
    env := env["NXF_HOME" := nxfHome];
    env := env["NXF_USER_WORKFLOW" := workflowUrl];
    env := env["NXF_USER_REVISION" := workflowRevision];
    env := env["NXF_USER_PARAMS" := paramsFile];
    if Configured(logEndpoint) {
      env := env["NXF_USER_ENDPOINT" := logEndpoint.value];
    }
    if Configured(nxfProfile) {
      env := env["NXF_USER_PROFILE" := nxfProfile.value];
    }
  }

  /** What the spawned process runs: the revision and the params file always follow `-resume`;
      the weblog and the profile follow exactly when configured or already in the base environment. */
  lemma LaunchCommandOfSpawnerEnv(
    base: map<string, string>, homeDir: string, nxfHome: string, workflowUrl: string,
    workflowRevision: string, paramsFile: string, logEndpoint: Option<string>, nxfProfile: Option<string>)
    ensures
      var env := SpawnerEnv(base, homeDir, nxfHome, workflowUrl, workflowRevision, paramsFile, logEndpoint, nxfProfile);
      LaunchCommand(env) == Ok(
        ["nextflow", "run", workflowUrl, "--SOCKET={unix_socket}", "-resume",
         "-r", workflowRevision, "-params-file", paramsFile]
        + (if Configured(logEndpoint) then ["-with-weblog", logEndpoint.value]
           else if "NXF_USER_ENDPOINT" in base then ["-with-weblog", base["NXF_USER_ENDPOINT"]] else [])
        + (if Configured(nxfProfile) then ["-profile", nxfProfile.value]
           else if "NXF_USER_PROFILE" in base then ["-profile", base["NXF_USER_PROFILE"]] else []))
  {
    var env := SpawnerEnv(base, homeDir, nxfHome, workflowUrl, workflowRevision, paramsFile, logEndpoint, nxfProfile);
    assert FlagIfSet(env, "-r", "NXF_USER_REVISION") == ["-r", workflowRevision];
    assert FlagIfSet(env, "-params-file", "NXF_USER_PARAMS") == ["-params-file", paramsFile];
    assert BaseCommand(workflowUrl) + ["-r", workflowRevision] + ["-params-file", paramsFile] ==
      ["nextflow", "run", workflowUrl, "--SOCKET={unix_socket}", "-resume", "-r", workflowRevision, "-params-file", paramsFile];
  }

  // ===========================================================================
  // _get_params_from_schema: group -> parameter -> descriptor (or one of its fields)

  /** `schema['$defs'] if '$defs' in schema else schema['defs']` */
  function DefinitionGroups(schema: Fields): (r: Result<Json>)
    ensures "$defs" in Keys(schema) ==> r == Ok(Lookup(schema, "$defs").value)
    ensures "$defs" !in Keys(schema) && "defs" in Keys(schema) ==> r == Ok(Lookup(schema, "defs").value)
    ensures "$defs" !in Keys(schema) && "defs" !in Keys(schema) <==> r == Err(KeyError("defs"))
    ensures r.Ok? ==> Size(r.value) < SizeFields(schema)
  {
    if "$defs" in Keys(schema) then
      LookupSmaller(schema, "$defs");
      Ok(Lookup(schema, "$defs").value)
    else if "defs" in Keys(schema) then
      LookupSmaller(schema, "defs");
      Ok(Lookup(schema, "defs").value)
    else Err(KeyError("defs"))
  }

  /** What the walk stores for a non-object property: the descriptor, or `descriptor.get(key)`. */
  function Project(descriptor: Fields, key: Option<string>): (v: Json)
    ensures key.None? ==> v == Obj(descriptor)
    ensures key.Some? && key.value in Keys(descriptor) ==> Lookup(descriptor, key.value) == Some(v)
    ensures key.Some? && key.value !in Keys(descriptor) ==> v == Null
  {
    if key.None? then Obj(descriptor) else GetOrNull(descriptor, key.value)
  }

  /** A property the walk descends into: its descriptor's `type` is the string "object". */
  predicate IsObjectProperty(descriptor: Fields)
  {
    GetOrNull(descriptor, "type") == Str("object")
  }

  /** The schema the walk builds to recurse into an object property: `{'$defs': {param: {**descriptor}}}`. */
  function NestedSchema(param: string, descriptor: Fields): (schema: Fields)
    ensures SizeFields(schema) == 4 + SizeFields(descriptor)
  {
    var schema := [("$defs", Obj([(param, Obj(descriptor))]))];
    SizeFieldsHead([(param, Obj(descriptor))]);
    SizeFieldsHead(schema);
    schema
  }

  /** `_get_params_from_schema(schema, key)` */
  function SchemaParams(schema: Fields, key: Option<string>): (r: Result<Fields>)
    decreases SizeFields(schema), 0
  {
    var groups :- DefinitionGroups(schema);
    if !groups.Obj? then Err(AttributeError("items"))
    else GroupParams(groups.fields, key, [])
  }

  /** The outer loop, from the current group on, with the groups done so far in acc. */
  function GroupParams(gs: Fields, key: Option<string>, acc: Fields): (r: Result<Fields>)
    decreases SizeFields(gs) + 1, 0
  {
    if gs == [] then Ok(acc)
    else
      SizeFieldsHead(gs);
      var defs := gs[0].1;
      if !defs.Obj? then Err(AttributeError("get"))
      else
        var props := GetOrNull(defs.fields, "properties");
        if !props.Obj? then Err(AttributeError("items"))
        else
          LookupSmaller(defs.fields, "properties");
          var inner :- PropertyParams(props.fields, key, []);
          GroupParams(gs[1..], key, Put(acc, gs[0].0, Obj(inner)))
  }

  /** The inner loop over one group's properties, with the entries done so far in acc. */
  function PropertyParams(ps: Fields, key: Option<string>, acc: Fields): (r: Result<Fields>)
    decreases SizeFields(ps) + 4, 0
  {
    if ps == [] then Ok(acc)
    else
      SizeFieldsHead(ps);
      var descriptor := ps[0].1;
      if !descriptor.Obj? then Err(AttributeError("get"))
      else if !IsObjectProperty(descriptor.fields) then
        PropertyParams(ps[1..], key, Put(acc, ps[0].0, Project(descriptor.fields, key)))
      else
        var sub :- SchemaParams(NestedSchema(ps[0].0, descriptor.fields), key);
        PropertyParams(ps[1..], key, Merge(acc, sub))
  }

  /** `_get_params_from_schema`: the nested loops fill params_dict[group] in place and recurse into object properties. */
  method GetParamsFromSchema(schema: Fields, key: Option<string>) returns (r: Result<Fields>)
    ensures r == SchemaParams(schema, key)
    decreases SizeFields(schema)
  {
    var found := DefinitionGroups(schema);
    if found.Err? {
      return Err(found.error);
    }
    var groups := found.value;
    if !groups.Obj? {
      return Err(AttributeError("items"));
    }
    var gs := groups.fields;
    var paramsDict: Fields := [];
    var i := 0;
    while i < |gs|
      invariant 0 <= i <= |gs|
      invariant GroupParams(gs[i..], key, paramsDict) == SchemaParams(schema, key)
    {
      var defs := gs[i].1;
      SizeFieldsHead(gs[i..]);
      if !defs.Obj? {
        return Err(AttributeError("get"));
      }
      var props := GetOrNull(defs.fields, "properties");
      if !props.Obj? {
        return Err(AttributeError("items"));
      }
      MemberSmaller(gs, i);
      LookupSmaller(defs.fields, "properties");
      var ps := props.fields;
      var current: Fields := [];
      var j := 0;
      while j < |ps|
        invariant 0 <= j <= |ps|
        invariant PropertyParams(ps[j..], key, current) == PropertyParams(ps, key, [])
      {
        var descriptor := ps[j].1;
        SizeFieldsHead(ps[j..]);
        if !descriptor.Obj? {
          return Err(AttributeError("get"));
        }
        if !IsObjectProperty(descriptor.fields) {
          current := Put(current, ps[j].0, Project(descriptor.fields, key));
        } else {
          MemberSmaller(ps, j);
          var sub := GetParamsFromSchema(NestedSchema(ps[j].0, descriptor.fields), key);
          if sub.Err? {
            return Err(sub.error);
          }
          current := Merge(current, sub.value);
        }
        assert ps[j..][1..] == ps[j + 1..];
        j := j + 1;
      }
      assert gs[i..][1..] == gs[i + 1..];
      paramsDict := Put(paramsDict, gs[i].0, Obj(current));
      i := i + 1;
    }
    return Ok(paramsDict);
  }

  /** The value the walk stores for one property: the projection of a non-object descriptor,
      or the walk of an object property's own `properties`. */
  function PropertyEntry(descriptor: Fields, key: Option<string>): Result<Json>
  {
    if !IsObjectProperty(descriptor) then Ok(Project(descriptor, key))
    else
      var props := GetOrNull(descriptor, "properties");
      if !props.Obj? then Err(AttributeError("items"))
      else
        var inner :- PropertyParams(props.fields, key, []);
        Ok(Obj(inner))
  }

  /** Recursing through `{'$defs': {param: descriptor}}` yields the single entry `{param: ...}`. */
  lemma NestedSchemaParams(param: string, descriptor: Fields, key: Option<string>)
    requires IsObjectProperty(descriptor)
    ensures SchemaParams(NestedSchema(param, descriptor), key) ==
      var e := PropertyEntry(descriptor, key);
      if e.Ok? then Ok([(param, e.value)]) else Err(e.error)
  {
    var schema := NestedSchema(param, descriptor);
    var gs := [(param, Obj(descriptor))];
    assert Lookup(schema, "$defs") == Some(Obj(gs));
    assert DefinitionGroups(schema) == Ok(Obj(gs));
    assert gs[1..] == [];
    GroupParamsStep(gs, key, []);
    assert GroupEntry(Obj(descriptor), key) == PropertyEntry(descriptor, key);
    var e := PropertyEntry(descriptor, key);
    if e.Ok? {
      assert Put([], param, e.value) == [(param, e.value)];
    }
  }

  /** One step of the inner loop, object or not: the entry is put under the property's name. */
  lemma PropertyParamsStep(ps: Fields, key: Option<string>, acc: Fields)
    requires ps != [] && ps[0].1.Obj?
    ensures PropertyParams(ps, key, acc) ==
      var e := PropertyEntry(ps[0].1.fields, key);
      if e.Ok? then PropertyParams(ps[1..], key, Put(acc, ps[0].0, e.value)) else Err(e.error)
  {
    if IsObjectProperty(ps[0].1.fields) {
      NestedSchemaParams(ps[0].0, ps[0].1.fields, key);
      var e := PropertyEntry(ps[0].1.fields, key);
      if e.Ok? {
        MergeSingleton(acc, ps[0].0, e.value);
      }
    }
  }

  /** Every property of the group gets its own entry, in declaration order, after those already present. */
  lemma {:induction false} PropertyParamsKeys(ps: Fields, key: Option<string>, acc: Fields)
    requires DistinctKeys(ps)
    requires forall k :: k in Keys(ps) ==> k !in Keys(acc)
    requires PropertyParams(ps, key, acc).Ok?
    ensures Keys(PropertyParams(ps, key, acc).value) == Keys(acc) + Keys(ps)
  {
    if ps == [] {
      assert Keys(acc) + [] == Keys(acc);
    } else {
      PropertyParamsStep(ps, key, acc);
      var v := PropertyEntry(ps[0].1.fields, key).value;
      var acc' := Put(acc, ps[0].0, v);
      assert Keys(ps) == [ps[0].0] + Keys(ps[1..]);
      KeysFresh(ps, acc, v);
      PropertyParamsKeys(ps[1..], key, acc');
      ConcatAssoc(Keys(acc), [ps[0].0], Keys(ps[1..]));
    }
  }

  /** The entry under a property is what PropertyEntry gives for its descriptor; other keys keep acc's value. */
  lemma {:induction false} PropertyParamsLookup(ps: Fields, key: Option<string>, acc: Fields, k: string)
    requires DistinctKeys(ps)
    requires PropertyParams(ps, key, acc).Ok?
    ensures k in Keys(ps) ==>
      && Lookup(ps, k).value.Obj?
      && PropertyEntry(Lookup(ps, k).value.fields, key).Ok?
      && Lookup(PropertyParams(ps, key, acc).value, k) == Some(PropertyEntry(Lookup(ps, k).value.fields, key).value)
    ensures k !in Keys(ps) ==> Lookup(PropertyParams(ps, key, acc).value, k) == Lookup(acc, k)
  {
    if ps != [] {
      PropertyParamsStep(ps, key, acc);
      var v := PropertyEntry(ps[0].1.fields, key).value;
      var acc' := Put(acc, ps[0].0, v);
      DistinctKeysTail(ps);
      PropertyParamsLookup(ps[1..], key, acc', k);
      LookupPut(acc, ps[0].0, v, k);
      assert Keys(ps) == [ps[0].0] + Keys(ps[1..]);
    }
  }

  /** The value of a group: the walk of its `properties`. */
  function GroupEntry(defs: Json, key: Option<string>): Result<Json>
  {
    if !defs.Obj? then Err(AttributeError("get"))
    else
      var props := GetOrNull(defs.fields, "properties");
      if !props.Obj? then Err(AttributeError("items"))
      else
        var inner :- PropertyParams(props.fields, key, []);
        Ok(Obj(inner))
  }

  lemma GroupParamsStep(gs: Fields, key: Option<string>, acc: Fields)
    requires gs != []
    ensures GroupParams(gs, key, acc) ==
      var e := GroupEntry(gs[0].1, key);
      if e.Ok? then GroupParams(gs[1..], key, Put(acc, gs[0].0, e.value)) else Err(e.error)
  {
  }

  /** One entry per definition group, keyed by the group's name, in the groups' order. */
  lemma {:induction false} GroupParamsKeys(gs: Fields, key: Option<string>, acc: Fields)
    requires DistinctKeys(gs)
    requires forall k :: k in Keys(gs) ==> k !in Keys(acc)
    requires GroupParams(gs, key, acc).Ok?
    ensures Keys(GroupParams(gs, key, acc).value) == Keys(acc) + Keys(gs)
  {
    if gs == [] {
      assert Keys(acc) + [] == Keys(acc);
    } else {
      GroupParamsStep(gs, key, acc);
      var v := GroupEntry(gs[0].1, key).value;
      var acc' := Put(acc, gs[0].0, v);
      assert Keys(gs) == [gs[0].0] + Keys(gs[1..]);
      KeysFresh(gs, acc, v);
      GroupParamsKeys(gs[1..], key, acc');
      ConcatAssoc(Keys(acc), [gs[0].0], Keys(gs[1..]));
    }
  }

  lemma {:induction false} GroupParamsLookup(gs: Fields, key: Option<string>, acc: Fields, k: string)
    requires DistinctKeys(gs)
    requires GroupParams(gs, key, acc).Ok?
    ensures k in Keys(gs) ==>
      && GroupEntry(Lookup(gs, k).value, key).Ok?
      && Lookup(GroupParams(gs, key, acc).value, k) == Some(GroupEntry(Lookup(gs, k).value, key).value)
    ensures k !in Keys(gs) ==> Lookup(GroupParams(gs, key, acc).value, k) == Lookup(acc, k)
  {
    if gs != [] {
      GroupParamsStep(gs, key, acc);
      var v := GroupEntry(gs[0].1, key).value;
      var acc' := Put(acc, gs[0].0, v);
      DistinctKeysTail(gs);
      GroupParamsLookup(gs[1..], key, acc', k);
      LookupPut(acc, gs[0].0, v, k);
      assert Keys(gs) == [gs[0].0] + Keys(gs[1..]);
    }
  }

  /** The walk's result has exactly one entry per definition group, in order, read from `$defs` when
      present and from `defs` otherwise. */
  lemma SchemaParamsGroups(schema: Fields, key: Option<string>)
    requires SchemaParams(schema, key).Ok?
    requires DefinitionGroups(schema).Ok? && DefinitionGroups(schema).value.Obj?
    requires DistinctKeys(DefinitionGroups(schema).value.fields)
    ensures Keys(SchemaParams(schema, key).value) == Keys(DefinitionGroups(schema).value.fields)
  {
    var gs := DefinitionGroups(schema).value.fields;
    GroupParamsKeys(gs, key, []);
    assert [] + Keys(gs) == Keys(gs);
  }

  /** A schema with neither `$defs` nor `defs` is a KeyError, and a non-mapping group table an AttributeError. */
  lemma SchemaParamsMissingDefs(schema: Fields, key: Option<string>)
    ensures "$defs" !in Keys(schema) && "defs" !in Keys(schema) ==> SchemaParams(schema, key) == Err(KeyError("defs"))
    ensures DefinitionGroups(schema).Ok? && !DefinitionGroups(schema).value.Obj? ==>
      SchemaParams(schema, key) == Err(AttributeError("items"))
  {
  }

  /** result[group][param]: the projected descriptor of a non-object property, and the walk of
      an object property's own `properties`. */
  lemma SchemaParamsEntry(schema: Fields, key: Option<string>, group: string, param: string)
    requires SchemaParams(schema, key).Ok?
    requires DefinitionGroups(schema).Ok? && DefinitionGroups(schema).value.Obj?
    requires DistinctKeys(DefinitionGroups(schema).value.fields)
    requires group in Keys(DefinitionGroups(schema).value.fields)
    requires Lookup(DefinitionGroups(schema).value.fields, group).value.Obj?
    requires GetOrNull(Lookup(DefinitionGroups(schema).value.fields, group).value.fields, "properties").Obj?
    requires
      var ps := GetOrNull(Lookup(DefinitionGroups(schema).value.fields, group).value.fields, "properties").fields;
      DistinctKeys(ps) && param in Keys(ps)
    ensures
      var ps := GetOrNull(Lookup(DefinitionGroups(schema).value.fields, group).value.fields, "properties").fields;
      var d := Lookup(ps, param).value;
      && group in Keys(SchemaParams(schema, key).value)
      && var entries := Lookup(SchemaParams(schema, key).value, group).value;
      && d.Obj? && entries.Obj?
      && (!IsObjectProperty(d.fields) ==> Lookup(entries.fields, param) == Some(Project(d.fields, key)))
      && (IsObjectProperty(d.fields) ==>
            && GetOrNull(d.fields, "properties").Obj?
            && PropertyParams(GetOrNull(d.fields, "properties").fields, key, []).Ok?
            && Lookup(entries.fields, param) == Some(Obj(PropertyParams(GetOrNull(d.fields, "properties").fields, key, []).value)))
  {
    var gs := DefinitionGroups(schema).value.fields;
    GroupParamsLookup(gs, key, [], group);
    var ps := GetOrNull(Lookup(gs, group).value.fields, "properties").fields;
    PropertyParamsLookup(ps, key, [], param);
  }

  /** Projecting a field never fails where the unprojected walk succeeds, and conversely. */
  lemma {:induction false} SchemaParamsAnyKey(schema: Fields, k1: Option<string>, k2: Option<string>)
    ensures SchemaParams(schema, k1).Ok? <==> SchemaParams(schema, k2).Ok?
    decreases SizeFields(schema), 0
  {
    var groups := DefinitionGroups(schema);
    if groups.Ok? && groups.value.Obj? {
      GroupParamsAnyKey(groups.value.fields, k1, k2, [], []);
    }
  }

  lemma {:induction false} GroupParamsAnyKey(gs: Fields, k1: Option<string>, k2: Option<string>, a1: Fields, a2: Fields)
    ensures GroupParams(gs, k1, a1).Ok? <==> GroupParams(gs, k2, a2).Ok?
    decreases SizeFields(gs) + 1, 0
  {
    if gs != [] {
      SizeFieldsHead(gs);
      var defs := gs[0].1;
      if defs.Obj? {
        var props := GetOrNull(defs.fields, "properties");
        if props.Obj? {
          LookupSmaller(defs.fields, "properties");
          PropertyParamsAnyKey(props.fields, k1, k2, [], []);
          var i1 := PropertyParams(props.fields, k1, []);
          var i2 := PropertyParams(props.fields, k2, []);
          if i1.Ok? {
            GroupParamsAnyKey(gs[1..], k1, k2, Put(a1, gs[0].0, Obj(i1.value)), Put(a2, gs[0].0, Obj(i2.value)));
          }
        }
      }
    }
  }

  lemma {:induction false} PropertyParamsAnyKey(ps: Fields, k1: Option<string>, k2: Option<string>, a1: Fields, a2: Fields)
    ensures PropertyParams(ps, k1, a1).Ok? <==> PropertyParams(ps, k2, a2).Ok?
    decreases SizeFields(ps) + 4, 0
  {
    if ps != [] {
      SizeFieldsHead(ps);
      var d := ps[0].1;
      if d.Obj? {
        if !IsObjectProperty(d.fields) {
          PropertyParamsAnyKey(ps[1..], k1, k2, Put(a1, ps[0].0, Project(d.fields, k1)), Put(a2, ps[0].0, Project(d.fields, k2)));
        } else {
          var nested := NestedSchema(ps[0].0, d.fields);
          SchemaParamsAnyKey(nested, k1, k2);
          var s1 := SchemaParams(nested, k1);
          var s2 := SchemaParams(nested, k2);
          if s1.Ok? {
            PropertyParamsAnyKey(ps[1..], k1, k2, Merge(a1, s1.value), Merge(a2, s2.value));
          }
        }
      }
    }
  }

  // ===========================================================================
  // _construct_form_field and _options_form_default: descriptors to HTML

  /** A descriptor rendered as a leaf: it has `type`, `description` and `default`. */
  predicate IsLeaf(fs: Fields)
  {
    "type" in Keys(fs) && "description" in Keys(fs) && "default" in Keys(fs)
  }

  function Label(name: string, description: Json): string
  {
    "<label for='" + name + "'>" + PyStr(description) + "</label>"
  }

  function OptionTag(opt: Json): string
  {
    "<option value='" + PyStr(opt) + "'>" + PyStr(opt) + "</option>"
  }

  /** One option per choice, appended in iteration order. */
  function OptionTags(opts: seq<Json>): string
  {
    if opts == [] then "" else OptionTags(opts[..|opts| - 1]) + OptionTag(opts[|opts| - 1])
  }

  function SelectList(name: string, opts: seq<Json>): string
  {
    "<select name='" + name + "' class='form-control'>" + OptionTags(opts) + "</select>"
  }

  /** The input type a leaf's JSON type selects; None for a type that renders no input. */
  function InputKind(ptype: Json): Option<string>
  {
    if ptype == Str("integer") || ptype == Str("number") then Some("number")
    else if ptype == Str("string") then Some("text")
    else if ptype == Str("boolean") then Some("checkbox")
    else None
  }

  function InputTag(name: string, default: Json, kind: string): string
  {
    "<input name='" + name + "' class='form-control' value='" + PyStr(default) + "' type='" + kind + "'></input>"
  }

  /** The help line: present exactly when `help_text` is truthy. */
  function HelpText(fs: Fields): (html: string)
    ensures html != "" <==> Truthy(GetOrNull(fs, "help_text"))
  {
    HelpLine(GetOrNull(fs, "help_text"))
  }

  function HelpLine(help: Json): string
  {
    if Truthy(help) then "<small class='form-text text-muted'>" + PyStr(help) + "</small>" else ""
  }

  /** The `case {'type': ptype, 'description': description, 'default': default}` arm. */
  function LeafField(name: string, fs: Fields): Result<string>
    requires IsLeaf(fs)
  {
    var caption := Label(name, Lookup(fs, "description").value);
    var choices := GetOrNull(fs, "enum");
    if Truthy(choices) then
      var opts :- Iterate(choices);
      Ok(caption + SelectList(name, opts) + HelpText(fs))
    else
      var kind := InputKind(Lookup(fs, "type").value);
      var input := if kind.Some? then InputTag(name, Lookup(fs, "default").value, kind.value) else "";
      Ok(caption + input + HelpText(fs))
  }

  /** `_construct_form_field(name, param)`, joined into one string. */
  function FormField(name: string, param: Json): Result<string>
    decreases Size(param), 1
  {
    if !param.Obj? then Err(AttributeError("items"))
    else if "hidden" in Keys(param.fields) then Ok("")
    else if IsLeaf(param.fields) then LeafField(name, param.fields)
    else NestedFields(param.fields, "")
  }

  /** The `case _` arm: the renderings of the members, in order, appended to acc. */
  function NestedFields(fs: Fields, acc: string): Result<string>
    decreases SizeFields(fs), 0
  {
    if fs == [] then Ok(acc)
    else
      SizeFieldsHead(fs);
      var html :- FormField(fs[0].0, fs[0].1);
      NestedFields(fs[1..], acc + html)
  }

  /** A group's card; a group without visible parameters gets none. */
  function Card(group: string, category: string): (html: string)
    ensures html == "" <==> category == ""
  {
    if category == "" then ""
    else "<div class='card'>" + "<div class='card-header'>" + group + " options</div>"
         + "<div class='card-body'>" + category + "</div></div>"
  }

  /** The loop of `_options_form_default` over the walked groups, with the form so far in acc. */
  function FormCards(groups: Fields, acc: string): Result<string>
  {
    if groups == [] then Ok(acc)
    else
      var category :- FormField(groups[0].0, groups[0].1);
      FormCards(groups[1..], acc + Card(groups[0].0, category))
  }

  /** `_options_form_default` */
  function OptionsForm(schema: Fields): Result<string>
  {
    var groups :- SchemaParams(schema, None);
    FormCards(groups, "")
  }

  lemma AppendSelectList(html: string, name: string, options: string, opts: seq<Json>)
    requires options == OptionTags(opts)
    ensures html + "<select name='" + name + "' class='form-control'>" + options + "</select>" == html + SelectList(name, opts)
  {
  }

  lemma AppendCard(form: string, group: string, category: string)
    requires category != ""
    ensures form + "<div class='card'>" + "<div class='card-header'>" + group + " options</div>"
            + "<div class='card-body'>" + category + "</div></div>" == form + Card(group, category)
  {
  }

  lemma AppendHelp(html: string, help: Json)
    ensures Truthy(help) ==>
      html + "<small class='form-text text-muted'>" + PyStr(help) + "</small>" == html + HelpLine(help)
    ensures !Truthy(help) ==> html == html + HelpLine(help)
  {
  }

  lemma AppendOption(start: string, opts: seq<Json>, k: nat)
    requires k < |opts|
    ensures start + OptionTags(opts[..k]) + OptionTag(opts[k]) == start + OptionTags(opts[..k + 1])
  {
    assert opts[..k + 1][..k] == opts[..k];
  }

  /** `_construct_form_field`: the html list grows piece by piece; nested members are rendered recursively. */
  method ConstructFormField(name: string, param: Json) returns (r: Result<string>)
    ensures r == FormField(name, param)
    decreases Size(param), 1
  {
    if !param.Obj? {
      return Err(AttributeError("items"));
    }
    var fs := param.fields;
    var html := "";
    if "hidden" in Keys(fs) {
      return Ok(html);
    } else if IsLeaf(fs) {
      r := ConstructLeafField(name, fs);
    } else {
      var nested := ConstructNestedFields(fs);
      if nested.Err? {
        return nested;
      }
      if nested.value != "" {
        html := html + nested.value;
      }
      assert html == nested.value;
      return Ok(html);
    }
  }

  /** The leaf arm of `_construct_form_field`: label, then a select list or an input, then the help line. */
  method ConstructLeafField(name: string, fs: Fields) returns (r: Result<string>)
    requires IsLeaf(fs)
    ensures r == LeafField(name, fs)
  {
    var html := Label(name, Lookup(fs, "description").value);
    var choices := GetOrNull(fs, "enum");
    if Truthy(choices) {
      var found := Iterate(choices);
      if found.Err? {
        return Err(found.error);
      }
      var opts := found.value;
      html := html + "<select name='" + name + "' class='form-control'>";
      ghost var start := html;
      var k := 0;
      while k < |opts|
        invariant 0 <= k <= |opts|
        invariant html == start + OptionTags(opts[..k])
      {
        AppendOption(start, opts, k);
        html := html + OptionTag(opts[k]);
        k := k + 1;
      }
      assert opts[..|opts|] == opts;
      html := html + "</select>";
      AppendSelectList(Label(name, Lookup(fs, "description").value), name, OptionTags(opts), opts);
    } else {
      var kind := InputKind(Lookup(fs, "type").value);
      if kind.Some? {
        html := html + InputTag(name, Lookup(fs, "default").value, kind.value);
      } else {
        assert html == html + "";
      }
    }
    ghost var body := html;
    var help := GetOrNull(fs, "help_text");
    AppendHelp(html, help);
    if Truthy(help) {
      html := html + "<small class='form-text text-muted'>" + PyStr(help) + "</small>";
    }
    assert html == body + HelpText(fs);
    return Ok(html);
  }

  /** The `case _` arm of `_construct_form_field`: render every member and collect the pieces. */
  method ConstructNestedFields(fs: Fields) returns (r: Result<string>)
    ensures r == NestedFields(fs, "")
    decreases SizeFields(fs), 0
  {
    var nested := "";
    var i := 0;
    while i < |fs|
      invariant 0 <= i <= |fs|
      invariant NestedFields(fs[i..], nested) == NestedFields(fs, "")
    {
      SizeFieldsHead(fs[i..]);
      MemberSmaller(fs, i);
      var sub := ConstructFormField(fs[i].0, fs[i].1);
      if sub.Err? {
        return Err(sub.error);
      }
      assert fs[i..][1..] == fs[i + 1..];
      nested := nested + sub.value;
      i := i + 1;
    }
    return Ok(nested);
  }

  /** `_options_form_default`: one card per group whose rendering is not empty, joined. */
  method OptionsFormDefault(schema: Fields) returns (r: Result<string>)
    ensures r == OptionsForm(schema)
  {
    var walked := GetParamsFromSchema(schema, None);
    if walked.Err? {
      return Err(walked.error);
    }
    var groups := walked.value;
    var form := "";
    var i := 0;
    while i < |groups|
      invariant 0 <= i <= |groups|
      invariant FormCards(groups[i..], form) == OptionsForm(schema)
    {
      var category := ConstructFormField(groups[i].0, groups[i].1);
      if category.Err? {
        return Err(category.error);
      }
      assert groups[i..][1..] == groups[i + 1..];
      ghost var before := form;
      if category.value != "" {
        form := form + "<div class='card'>";
        form := form + "<div class='card-header'>" + groups[i].0 + " options</div>";
        form := form + "<div class='card-body'>";
        form := form + category.value;
        form := form + "</div></div>";
      }
      if category.value != "" {
        AppendCard(before, groups[i].0, category.value);
      }
      assert form == before + Card(groups[i].0, category.value);
      i := i + 1;
    }
    return Ok(form);
  }

  /** Options keep the declared order of the choices: the tags of a concatenation are the concatenated tags. */
  lemma {:induction false} OptionTagsConcat(xs: seq<Json>, ys: seq<Json>)
    ensures OptionTags(xs + ys) == OptionTags(xs) + OptionTags(ys)
    decreases |ys|
  {
    if ys == [] {
      assert xs + ys == xs;
    } else {
      var init := ys[..|ys| - 1];
      assert (xs + ys)[..|xs + ys| - 1] == xs + init;
      OptionTagsConcat(xs, init);
      ConcatAssoc(OptionTags(xs), OptionTags(init), OptionTag(ys[|ys| - 1]));
    }
  }

  /** The k-th option of the select list is the tag of the k-th declared choice. */
  lemma OptionTagsAt(opts: seq<Json>, k: nat)
    requires k < |opts|
    ensures OptionTags(opts) == OptionTags(opts[..k]) + OptionTag(opts[k]) + OptionTags(opts[k + 1..])
  {
    var init := opts[..k + 1];
    assert init + opts[k + 1..] == opts;
    OptionTagsConcat(init, opts[k + 1..]);
    assert init[..|init| - 1] == opts[..k];
  }

  /** A descriptor holding `hidden` renders nothing, whatever else it holds. */
  lemma HiddenRendersNothing(name: string, fs: Fields)
    requires "hidden" in Keys(fs)
    ensures FormField(name, Obj(fs)) == Ok("")
  {
  }

  /** A hidden member contributes nothing to its parent's rendering: dropping it changes nothing. */
  lemma {:induction false} NestedFieldsSkipHidden(fs: Fields, i: nat, acc: string)
    requires i < |fs| && fs[i].1.Obj? && "hidden" in Keys(fs[i].1.fields)
    ensures NestedFields(fs, acc) == NestedFields(fs[..i] + fs[i + 1..], acc)
  {
    if i == 0 {
      assert fs[..0] + fs[1..] == fs[1..];
      assert acc + "" == acc;
    } else {
      var rest := fs[..i] + fs[i + 1..];
      assert rest[0] == fs[0];
      assert rest[1..] == fs[1..][..i - 1] + fs[1..][i..];
      var h := FormField(fs[0].0, fs[0].1);
      if h.Ok? {
        NestedFieldsSkipHidden(fs[1..], i - 1, acc + h.value);
      }
    }
  }

  /** A leaf renders its label, then a select list over the enum's entries when it has truthy choices,
      or else the input its type selects (number, text or checkbox, with the default as value, or none
      at all for other types), then the help line. */
  lemma LeafRendering(name: string, fs: Fields)
    requires "hidden" !in Keys(fs) && IsLeaf(fs)
    ensures
      var caption := Label(name, Lookup(fs, "description").value);
      var ptype := Lookup(fs, "type").value;
      var default := Lookup(fs, "default").value;
      var choices := GetOrNull(fs, "enum");
      var r := FormField(name, Obj(fs));
      && (Truthy(choices) && choices.Arr? ==> r == Ok(caption + SelectList(name, choices.items) + HelpText(fs)))
      && (!Truthy(choices) && (ptype == Str("integer") || ptype == Str("number")) ==>
            r == Ok(caption + InputTag(name, default, "number") + HelpText(fs)))
      && (!Truthy(choices) && ptype == Str("string") ==> r == Ok(caption + InputTag(name, default, "text") + HelpText(fs)))
      && (!Truthy(choices) && ptype == Str("boolean") ==> r == Ok(caption + InputTag(name, default, "checkbox") + HelpText(fs)))
      && (!Truthy(choices) && ptype !in [Str("integer"), Str("number"), Str("string"), Str("boolean")] ==>
            r == Ok(caption + HelpText(fs)))
  {
    var caption := Label(name, Lookup(fs, "description").value);
    assert caption + "" == caption;
  }

  /** A descriptor missing one of `type`, `description`, `default` is walked as a nested mapping, so its
      first plain value (the type string, say) is an AttributeError. */
  lemma IncompleteLeafFails(name: string, fs: Fields)
    requires "hidden" !in Keys(fs) && !IsLeaf(fs)
    requires fs != [] && !fs[0].1.Obj?
    ensures FormField(name, Obj(fs)) == Err(AttributeError("items"))
  {
    assert FormField(fs[0].0, fs[0].1) == Err(AttributeError("items"));
  }

  /** A group contributes a card exactly when it renders something. */
  lemma FormCardsStep(groups: Fields, acc: string)
    requires groups != [] && FormField(groups[0].0, groups[0].1).Ok?
    ensures
      var category := FormField(groups[0].0, groups[0].1).value;
      && (category == "" ==> FormCards(groups, acc) == FormCards(groups[1..], acc))
      && (category != "" ==> FormCards(groups, acc) == FormCards(groups[1..], acc + Card(groups[0].0, category)))
  {
    assert acc + "" == acc;
  }

  /** A form whose groups all render nothing is the empty string. */
  lemma {:induction false} FormCardsAllHidden(groups: Fields, acc: string)
    requires forall i :: 0 <= i < |groups| ==> FormField(groups[i].0, groups[i].1) == Ok("")
    ensures FormCards(groups, acc) == Ok(acc)
  {
    if groups != [] {
      FormCardsStep(groups, acc);
      FormCardsAllHidden(groups[1..], acc);
    }
  }

  // ===========================================================================
  // options_from_form: submitted form lists to typed pipeline parameters

  /** `_cast_schema_type(ptype, param)`: only the integer and number casts can fail. */
  function CastSchemaType(ptype: Json, param: Json): (r: Result<Json>)
    ensures r.Err? ==> ptype == Str("integer") || ptype == Str("number")
    ensures r.Ok? && ptype == Str("integer") ==> r.value.Int?
  {
    if ptype == Str("boolean") then Ok(Bool(Truthy(param)))
    else if ptype == Str("integer") then IntCast(param)
    else if ptype == Str("number") then FloatCast(param)
    else Ok(Str(PyStr(param)))
  }

  /** A submitted string is cast by truthiness for a boolean: any non-empty text, "false" included, is True. */
  lemma CastBooleanText(s: string)
    ensures CastSchemaType(Str("boolean"), Str(s)) == Ok(Bool(s != ""))
    ensures CastSchemaType(Str("boolean"), Str("false")) == Ok(Bool(true))
  {
  }

  /** The integer cast reads back what an integer renders as, and keeps integer defaults. */
  lemma CastIntegerRoundTrip(n: int)
    ensures CastSchemaType(Str("integer"), Str(IntToString(n))) == Ok(Int(n))
    ensures CastSchemaType(Str("integer"), Int(n)) == Ok(Int(n))
  {
    ParseIntOfIntToString(n);
  }

  /** Text that int() cannot read is a ValueError carrying the text. */
  lemma CastIntegerRejects(s: string)
    requires ParseInt(s).None?
    ensures CastSchemaType(Str("integer"), Str(s)) == Err(ValueError(s))
  {
  }

  /** Any other type, a missing one included, keeps a submitted string as it is. */
  lemma CastOtherKeepsText(ptype: Json, s: string)
    requires ptype != Str("boolean") && ptype != Str("integer") && ptype != Str("number")
    ensures CastSchemaType(ptype, Str(s)) == Ok(Str(s))
  {
  }

  /** `'type' in properties`: a key of a dict, a substring of a string, an item of a list. */
  function Contains(container: Json, item: string): (r: Result<bool>)
    ensures container.Obj? ==> r == Ok(item in Keys(container.fields))
    ensures container.Null? || container.Bool? || container.Int? || container.Num? ==> r.Err?
  {
    match container
    case Obj(fields) => Ok(item in Keys(fields))
    case Str(s) => Ok(IsSubstring(item, s))
    case Arr(items) => Ok(Str(item) in items)
    case Null => Err(TypeError("argument of type 'NoneType' is not iterable"))
    case Bool(_) => Err(TypeError("argument of type 'bool' is not iterable"))
    case Int(_) => Err(TypeError("argument of type 'int' is not iterable"))
    case Num(_) => Err(TypeError("argument of type 'float' is not iterable"))
  }

  /** The file check of a parameter marked `exists`, as written: something must match the glob and
      `os.access` must grant reading the path's directory, which for a path without a `/` is the empty
      path. The permission message is an unformatted string, so it carries the placeholder `{value}`
      instead of the path. */
  function CheckExistsAsWritten(value: Json, fsys: FileSystem): (r: Result<Json>)
    ensures r.Ok? <==> value.Str? && fsys.glob(value.s) != [] && Access(fsys, Dirname(value.s))
    ensures r.Ok? ==> r.value == value
    ensures value.Str? && fsys.glob(value.s) == [] ==> r == Err(FileNotFoundError(value.s + " does not exist."))
    ensures value.Str? && fsys.glob(value.s) != [] && !Access(fsys, Dirname(value.s)) ==>
      r == Err(PermissionError("{value} is not readable."))
  {
    if !value.Str? then Err(TypeError("expected str, bytes or os.PathLike object"))
    else if fsys.glob(value.s) == [] then Err(FileNotFoundError(value.s + " does not exist."))
    else if !Access(fsys, Dirname(value.s)) then Err(PermissionError("{value} is not readable."))
    else Ok(value)
  }

  /** A path whose directory cannot be read is reported under the placeholder, not under its own name. */
  lemma UnreadableMessageIsPlaceholder()
    ensures
      var fsys := FileSystem(p => [p], p => false);
      && CheckExistsAsWritten(Str("/data/reads.fq"), fsys) == Err(PermissionError("{value} is not readable."))
      && CheckExistsAsWritten(Str("/data/reads.fq"), fsys) != Err(PermissionError("/data/reads.fq is not readable."))
  {
    var fsys := FileSystem(p => [p], p => false);
    assert fsys.glob("/data/reads.fq") != [];
    assert "{value} is not readable."[0] != "/data/reads.fq is not readable."[0];
  }

  /** A bare file name has the empty path as its directory, so it is refused even when it exists and
      every file is readable. */
  lemma {:induction false} BareNameRejected(name: string, fsys: FileSystem)
    requires forall i :: 0 <= i < |name| ==> name[i] != '/'
    requires fsys.glob(name) != []
    ensures CheckExistsAsWritten(Str(name), fsys) == Err(PermissionError("{value} is not readable."))
  {
    assert Dirname(name) == "";
  }

  /** For instance `reads.fq`, present and readable, is refused. */
  lemma BareNameRejectedExample()
    ensures CheckExistsAsWritten(Str("reads.fq"), FileSystem(p => [p], p => true)).Err?
  {
    var fsys := FileSystem(p => [p], p => true);
    assert fsys.glob("reads.fq") != [];
    BareNameRejected("reads.fq", fsys);
  }

  /** The directory whose readability the check means: a bare file name lives in the working directory. */
  function CheckedDir(path: string): (d: string)
    ensures d != ""
    ensures Dirname(path) != "" ==> d == Dirname(path)
  {
    var d := Dirname(path);
    if d == "" then "." else d
  }

  /** The file check of a parameter marked `exists`, as intended: something matches the glob and the
      directory holding the path is readable; each failure names the path, as the sibling "does not
      exist." message does. */
  function CheckExists(value: Json, fsys: FileSystem): (r: Result<Json>)
    ensures r.Ok? <==> value.Str? && fsys.glob(value.s) != [] && fsys.readable(CheckedDir(value.s))
    ensures r.Ok? ==> r.value == value
    ensures value.Str? && fsys.glob(value.s) == [] ==> r == Err(FileNotFoundError(value.s + " does not exist."))
    ensures value.Str? && fsys.glob(value.s) != [] && !fsys.readable(CheckedDir(value.s)) ==>
      r == Err(PermissionError(value.s + " is not readable."))
    ensures value.Str? && Dirname(value.s) != "" ==> (r.Ok? <==> CheckExistsAsWritten(value, fsys).Ok?)
  {
    if !value.Str? then Err(TypeError("expected str, bytes or os.PathLike object"))
    else if fsys.glob(value.s) == [] then Err(FileNotFoundError(value.s + " does not exist."))
    else if !fsys.readable(CheckedDir(value.s)) then Err(PermissionError(value.s + " is not readable."))
    else Ok(value)
  }

  /** As intended, a bare file name in a readable working directory passes the check. */
  lemma {:induction false} BareNameAccepted(name: string, fsys: FileSystem)
    requires forall i :: 0 <= i < |name| ==> name[i] != '/'
    requires fsys.glob(name) != [] && fsys.readable(".")
    ensures CheckExists(Str(name), fsys) == Ok(Str(name))
  {
    assert Dirname(name) == "";
  }

  /** `_apply_form_params(params, formdata)` */
  function ApplyParams(params: Json, form: Lists, fsys: FileSystem): Applied
    decreases Size(params), 1
  {
    if !params.Obj? then Applied(Err(AttributeError("items")), form)
    else ApplyMembers(params.fields, [], form, fsys)
  }

  /** The loop of `_apply_form_params` from the current member on, with params_dict so far in acc. */
  function ApplyMembers(ms: Fields, acc: Fields, form: Lists, fsys: FileSystem): Applied
    decreases SizeFields(ms), 0
  {
    if ms == [] then Applied(Ok(acc), form)
    else
      SizeFieldsHead(ms);
      var param := ms[0].0;
      var properties := ms[0].1;
      var hasType := Contains(properties, "type");
      if hasType.Err? then Applied(Err(hasType.error), form)
      else if !hasType.value then
        var nested := ApplyParams(properties, form, fsys);
        Applied(if nested.result.Ok? then Ok([(param, Obj(nested.result.value))]) else nested.result, nested.form)
      else if !properties.Obj? then Applied(Err(AttributeError("get")), form)
      else
        var popped := TakeFirst(form, param, GetOrNull(properties.fields, "default"));
        if popped.value.Err? then Applied(Err(popped.value.error), popped.lists)
        else
          var value := CastSchemaType(GetOrNull(properties.fields, "type"), popped.value.value);
          if value.Err? then Applied(Err(value.error), popped.lists)
          else
            var checked := if "exists" in Keys(properties.fields) then CheckExistsAsWritten(value.value, fsys) else value;
            if checked.Err? then Applied(Err(checked.error), popped.lists)
            else ApplyMembers(ms[1..], Put(acc, param, value.value), popped.lists, fsys)
  }

  /** The loop over the walked groups, merging each group's parameters into the options (`options |= ...`). */
  function ResolveGroups(groups: Fields, acc: Fields, form: Lists, fsys: FileSystem): Applied
  {
    if groups == [] then Applied(Ok(acc), form)
    else
      var applied := ApplyParams(groups[0].1, form, fsys);
      if applied.result.Err? then applied
      else ResolveGroups(groups[1..], Merge(acc, applied.result.value), applied.form, fsys)
  }

  /** `options_from_form`: the resolved options, then `EMAIL` from the spawner environment, then validation. */
  function FormOptions(
    schema: Fields, form: Lists, environment: map<string, string>, fsys: FileSystem, validate: (Json, Json) -> bool
  ): Applied
  {
    var walked := SchemaParams(schema, None);
    if walked.Err? then Applied(Err(walked.error), form)
    else
      var resolved := ResolveGroups(walked.value, [], form, fsys);
      if resolved.result.Err? then resolved
      else
        var options := WithEmail(resolved.result.value, environment);
        if !validate(Obj(options), Obj(schema)) then Applied(Err(ValidationError), resolved.form)
        else Applied(Ok(options), resolved.form)
  }

  /** `options['EMAIL'] = environment['NXF_USER_EMAIL']` when the variable is configured. */
  function WithEmail(options: Fields, environment: map<string, string>): (r: Fields)
    ensures "NXF_USER_EMAIL" in environment ==> Lookup(r, "EMAIL") == Some(Str(environment["NXF_USER_EMAIL"]))
    ensures "NXF_USER_EMAIL" !in environment ==> r == options
    ensures forall k :: k != "EMAIL" ==> Lookup(r, k) == Lookup(options, k)
  {
    if "NXF_USER_EMAIL" in environment then
      var r := Put(options, "EMAIL", Str(environment["NXF_USER_EMAIL"]));
      LookupPut(options, "EMAIL", Str(environment["NXF_USER_EMAIL"]), "EMAIL");
      assert forall k :: k != "EMAIL" ==> Lookup(r, k) == Lookup(options, k) by {
        forall k | k != "EMAIL" ensures Lookup(r, k) == Lookup(options, k) {
          LookupPut(options, "EMAIL", Str(environment["NXF_USER_EMAIL"]), k);
        }
      }
      r
    else options
  }

  /** `_apply_form_params`: pops each value off the form, casts and checks it, and recurses into the
      first member without a `type`, returning at once. */
  method ApplyFormParams(params: Json, form: Form, fsys: FileSystem) returns (r: Result<Fields>)
    modifies form
    ensures r == ApplyParams(params, old(form.lists), fsys).result
    ensures form.lists == ApplyParams(params, old(form.lists), fsys).form
    decreases Size(params), 1
  {
    if !params.Obj? {
      return Err(AttributeError("items"));
    }
    var ms := params.fields;
    var paramsDict: Fields := [];
    var i := 0;
    while i < |ms|
      invariant 0 <= i <= |ms|
      invariant ApplyMembers(ms[i..], paramsDict, form.lists, fsys) == ApplyParams(params, old(form.lists), fsys)
    {
      SizeFieldsHead(ms[i..]);
      MemberSmaller(ms, i);
      var param := ms[i].0;
      var properties := ms[i].1;
      var hasType := Contains(properties, "type");
      if hasType.Err? {
        return Err(hasType.error);
      }
      if !hasType.value {
        var nested := ApplyFormParams(properties, form, fsys);
        if nested.Err? {
          return nested;
        }
        return Ok([(param, Obj(nested.value))]);
      }
      if !properties.Obj? {
        return Err(AttributeError("get"));
      }
      var popped := form.PopFirstOr(param, GetOrNull(properties.fields, "default"));
      if popped.Err? {
        return Err(popped.error);
      }
      var value := CastSchemaType(GetOrNull(properties.fields, "type"), popped.value);
      if value.Err? {
        return Err(value.error);
      }
      if "exists" in Keys(properties.fields) {
        var checked := CheckExistsAsWritten(value.value, fsys);
        if checked.Err? {
          return Err(checked.error);
        }
      }
      assert ms[i..][1..] == ms[i + 1..];
      paramsDict := Put(paramsDict, param, value.value);
      i := i + 1;
    }
    return Ok(paramsDict);
  }

  /** `options_from_form(formdata)` on the form object whose lists it consumes. */
  method OptionsFromForm(
    schema: Fields, form: Form, environment: map<string, string>, fsys: FileSystem, validate: (Json, Json) -> bool
  ) returns (r: Result<Fields>)
    modifies form
    ensures r == FormOptions(schema, old(form.lists), environment, fsys, validate).result
    ensures form.lists == FormOptions(schema, old(form.lists), environment, fsys, validate).form
  {
    var walked := GetParamsFromSchema(schema, None);
    if walked.Err? {
      return Err(walked.error);
    }
    var groups := walked.value;
    var options: Fields := [];
    var i := 0;
    while i < |groups|
      invariant 0 <= i <= |groups|
      invariant ResolveGroups(groups[i..], options, form.lists, fsys) == ResolveGroups(groups, [], old(form.lists), fsys)
    {
      var applied := ApplyFormParams(groups[i].1, form, fsys);
      if applied.Err? {
        return applied;
      }
      assert groups[i..][1..] == groups[i + 1..];
      options := Merge(options, applied.value);
      i := i + 1;
    }
    if "NXF_USER_EMAIL" in environment {
      options := Put(options, "EMAIL", Str(environment["NXF_USER_EMAIL"]));
    }
    if !validate(Obj(options), Obj(schema)) {
      return Err(ValidationError);
    }
    return Ok(options);
  }

  /** A descriptor that `_apply_form_params` treats as a parameter: a mapping with a `type`. */
  predicate IsTyped(properties: Json)
  {
    properties.Obj? && "type" in Keys(properties.fields)
  }

  /** Every member of ms is a typed parameter, so the loop never takes its early return. */
  predicate AllTyped(ms: Fields)
  {
    forall i :: 0 <= i < |ms| ==> IsTyped(ms[i].1)
  }

  /** The cast of what a typed parameter consumes: its first submitted value, or else its default. */
  function ResolvedValue(form: Lists, name: string, properties: Fields): Result<Json>
  {
    var first := TakeFirst(form, name, GetOrNull(properties, "default")).value;
    if first.Err? then first else CastSchemaType(GetOrNull(properties, "type"), first.value)
  }

  /** Each typed parameter takes the cast of its own first submitted value, or of its default when
      nothing was submitted; other keys keep what acc held. */
  lemma {:induction false} ApplyTypedLookup(ms: Fields, acc: Fields, form: Lists, fsys: FileSystem, k: string)
    requires AllTyped(ms) && DistinctKeys(ms)
    requires ApplyMembers(ms, acc, form, fsys).result.Ok?
    ensures k in Keys(ms) ==>
      var properties := Lookup(ms, k).value.fields;
      && ResolvedValue(form, k, properties).Ok?
      && Lookup(ApplyMembers(ms, acc, form, fsys).result.value, k) == Some(ResolvedValue(form, k, properties).value)
    ensures k in Keys(ms) && ListOf(form, k).None? ==>
      var properties := Lookup(ms, k).value.fields;
      CastSchemaType(GetOrNull(properties, "type"), GetOrNull(properties, "default")).Ok? &&
      Lookup(ApplyMembers(ms, acc, form, fsys).result.value, k) ==
        Some(CastSchemaType(GetOrNull(properties, "type"), GetOrNull(properties, "default")).value)
    ensures k !in Keys(ms) ==> Lookup(ApplyMembers(ms, acc, form, fsys).result.value, k) == Lookup(acc, k)
  {
    if ms != [] {
      assert IsTyped(ms[0].1);
      var param := ms[0].0;
      var properties := ms[0].1.fields;
      var popped := TakeFirst(form, param, GetOrNull(properties, "default"));
      var value := ResolvedValue(form, param, properties).value;
      var acc' := Put(acc, param, value);
      assert ApplyMembers(ms, acc, form, fsys) == ApplyMembers(ms[1..], acc', popped.lists, fsys);
      DistinctKeysTail(ms);
      assert AllTyped(ms[1..]) by {
        forall i | 0 <= i < |ms[1..]| ensures IsTyped(ms[1..][i].1) {
          assert ms[1..][i] == ms[i + 1];
        }
      }
      ApplyTypedLookup(ms[1..], acc', popped.lists, fsys, k);
      LookupPut(acc, param, value, k);
      assert Keys(ms) == [param] + Keys(ms[1..]);
      if k in Keys(ms[1..]) {
        assert k != param;
        assert TakeFirst(popped.lists, k, GetOrNull(Lookup(ms, k).value.fields, "default")).value
            == TakeFirst(form, k, GetOrNull(Lookup(ms, k).value.fields, "default")).value;
      }
    }
  }

  /** An integer parameter with neither a default nor a submission reaches `int(None)`, which raises
      TypeError and ends the whole resolution. */
  lemma IntegerWithoutDefaultFails(
    param: string, properties: Fields, rest: Fields, acc: Fields, form: Lists, fsys: FileSystem)
    requires Lookup(properties, "type") == Some(Str("integer")) && "default" !in Keys(properties)
    requires ListOf(form, param).None?
    ensures ApplyMembers([(param, Obj(properties))] + rest, acc, form, fsys).result.Err?
    ensures ApplyMembers([(param, Obj(properties))] + rest, acc, form, fsys).result.error.TypeError?
  {
    assert GetOrNull(properties, "type") == Str("integer");
  }

  /** The first member without a `type` ends the loop: the result is that one member alone, whatever
      came before it or after it, holding the nested resolution of its properties on the form the
      typed members before it left. */
  lemma {:induction false} ApplyEarlyReturn(ms: Fields, acc: Fields, form: Lists, fsys: FileSystem, j: nat)
    requires j < |ms| && AllTyped(ms[..j])
    requires ms[j].1.Obj? && "type" !in Keys(ms[j].1.fields)
    requires ApplyMembers(ms, acc, form, fsys).result.Ok?
    ensures Keys(ApplyMembers(ms, acc, form, fsys).result.value) == [ms[j].0]
    ensures
      var nested := ApplyParams(ms[j].1, ApplyMembers(ms[..j], acc, form, fsys).form, fsys);
      && nested.result.Ok?
      && ApplyMembers(ms, acc, form, fsys).result.value == [(ms[j].0, Obj(nested.result.value))]
      && ApplyMembers(ms, acc, form, fsys).form == nested.form
  {
    if j == 0 {
      assert ms[..0] == [];
    } else {
      assert IsTyped(ms[..j][0].1);
      var param := ms[0].0;
      var properties := ms[0].1.fields;
      var popped := TakeFirst(form, param, GetOrNull(properties, "default"));
      var value := ResolvedValue(form, param, properties).value;
      ApplyTypedHead(ms, acc, form, fsys);
      var t := ms[1..][..j - 1];
      assert AllTyped(t) by {
        forall i | 0 <= i < |t| ensures IsTyped(t[i].1) {
          assert t[i] == ms[..j][i + 1];
        }
      }
      assert ms[..j][0] == ms[0] && ms[..j][1..] == t;
      ApplyTypedHead(ms[..j], acc, form, fsys);
      ApplyEarlyReturn(ms[1..], Put(acc, param, value), popped.lists, fsys, j - 1);
    }
  }

  /** A typed first member passes when its resolved value casts and, if marked `exists`, passes the check. */
  predicate HeadPasses(m: (string, Json), form: Lists, fsys: FileSystem)
    requires IsTyped(m.1)
  {
    var value := ResolvedValue(form, m.0, m.1.fields);
    value.Ok? && ("exists" in Keys(m.1.fields) ==> CheckExistsAsWritten(value.value, fsys).Ok?)
  }

  /** One turn of the loop on a typed member: a successful loop has passed it, and once it passes the loop
      goes on with the parameter put and its value popped off the form. */
  lemma ApplyTypedHead(ms: Fields, acc: Fields, form: Lists, fsys: FileSystem)
    requires ms != [] && IsTyped(ms[0].1)
    ensures ApplyMembers(ms, acc, form, fsys).result.Ok? ==> HeadPasses(ms[0], form, fsys)
    ensures HeadPasses(ms[0], form, fsys) ==>
      ApplyMembers(ms, acc, form, fsys) ==
        ApplyMembers(ms[1..], Put(acc, ms[0].0, ResolvedValue(form, ms[0].0, ms[0].1.fields).value),
                     TakeFirst(form, ms[0].0, GetOrNull(ms[0].1.fields, "default")).lists, fsys)
  {
  }

  /** What `_apply_form_params` returns is a dict: no key twice. */
  lemma {:induction false} ApplyMembersDistinct(ms: Fields, acc: Fields, form: Lists, fsys: FileSystem)
    requires DistinctKeys(acc)
    requires ApplyMembers(ms, acc, form, fsys).result.Ok?
    ensures DistinctKeys(ApplyMembers(ms, acc, form, fsys).result.value)
  {
    if ms != [] {
      var properties := ms[0].1;
      var hasType := Contains(properties, "type");
      if hasType.value {
        var popped := TakeFirst(form, ms[0].0, GetOrNull(properties.fields, "default"));
        var value := CastSchemaType(GetOrNull(properties.fields, "type"), popped.value.value).value;
        PutDistinct(acc, ms[0].0, value);
        ApplyMembersDistinct(ms[1..], Put(acc, ms[0].0, value), popped.lists, fsys);
      }
    }
  }

  lemma ApplyParamsDistinct(params: Json, form: Lists, fsys: FileSystem)
    requires ApplyParams(params, form, fsys).result.Ok?
    ensures DistinctKeys(ApplyParams(params, form, fsys).result.value)
  {
    ApplyMembersDistinct(params.fields, [], form, fsys);
  }

  /** Resolving one more group merges its parameters over those of the groups before it. */
  lemma {:induction false} ResolveGroupsSnoc(groups: Fields, g: (string, Json), acc: Fields, form: Lists, fsys: FileSystem)
    requires ResolveGroups(groups, acc, form, fsys).result.Ok?
    ensures
      var before := ResolveGroups(groups, acc, form, fsys);
      var last := ApplyParams(g.1, before.form, fsys);
      ResolveGroups(groups + [g], acc, form, fsys) ==
        if last.result.Err? then last else Applied(Ok(Merge(before.result.value, last.result.value)), last.form)
  {
    if groups == [] {
      assert [] + [g] == [g];
      assert [g][1..] == [];
    } else {
      assert (groups + [g])[1..] == groups[1..] + [g];
      var applied := ApplyParams(groups[0].1, form, fsys);
      ResolveGroupsSnoc(groups[1..], g, Merge(acc, applied.result.value), applied.form, fsys);
    }
  }

  /** A later group overrides the earlier ones: a key it sets takes its value, any other key keeps the
      value the earlier groups gave it. */
  lemma LaterGroupOverrides(groups: Fields, g: (string, Json), acc: Fields, form: Lists, fsys: FileSystem, k: string)
    requires ResolveGroups(groups + [g], acc, form, fsys).result.Ok?
    ensures ResolveGroups(groups, acc, form, fsys).result.Ok?
    ensures
      var before := ResolveGroups(groups, acc, form, fsys);
      var last := ApplyParams(g.1, before.form, fsys);
      && last.result.Ok?
      && Lookup(ResolveGroups(groups + [g], acc, form, fsys).result.value, k) ==
           if k in Keys(last.result.value) then Lookup(last.result.value, k) else Lookup(before.result.value, k)
  {
    ResolveGroupsPrefixOk(groups, [g], acc, form, fsys);
    ResolveGroupsSnoc(groups, g, acc, form, fsys);
    var before := ResolveGroups(groups, acc, form, fsys);
    var last := ApplyParams(g.1, before.form, fsys);
    ApplyParamsDistinct(g.1, before.form, fsys);
    LookupMerge(before.result.value, last.result.value, k);
  }

  /** A failure in an earlier group is the failure of the whole loop. */
  lemma {:induction false} ResolveGroupsPrefixOk(groups: Fields, more: Fields, acc: Fields, form: Lists, fsys: FileSystem)
    requires ResolveGroups(groups + more, acc, form, fsys).result.Ok?
    ensures ResolveGroups(groups, acc, form, fsys).result.Ok?
  {
    if groups != [] {
      assert (groups + more)[1..] == groups[1..] + more;
      assert (groups + more)[0] == groups[0];
      var applied := ApplyParams(groups[0].1, form, fsys);
      ResolveGroupsPrefixOk(groups[1..], more, Merge(acc, applied.result.value), applied.form, fsys);
    }
  }

  /** The options that come back passed validation against the schema, carry `EMAIL` from the environment
      when it is configured, and are otherwise the merged group parameters. */
  lemma FormOptionsResult(
    schema: Fields, form: Lists, environment: map<string, string>, fsys: FileSystem, validate: (Json, Json) -> bool, k: string)
    requires FormOptions(schema, form, environment, fsys, validate).result.Ok?
    ensures
      var r := FormOptions(schema, form, environment, fsys, validate).result.value;
      var resolved := ResolveGroups(SchemaParams(schema, None).value, [], form, fsys).result.value;
      && validate(Obj(r), Obj(schema))
      && ("NXF_USER_EMAIL" in environment ==> Lookup(r, "EMAIL") == Some(Str(environment["NXF_USER_EMAIL"])))
      && ("NXF_USER_EMAIL" !in environment ==> r == resolved)
      && (k != "EMAIL" ==> Lookup(r, k) == Lookup(resolved, k))
  {
  }

  /** A rejected validation is a ValidationError, whatever was submitted. */
  lemma FormOptionsRejected(
    schema: Fields, form: Lists, environment: map<string, string>, fsys: FileSystem, validate: (Json, Json) -> bool)
    requires SchemaParams(schema, None).Ok?
    requires ResolveGroups(SchemaParams(schema, None).value, [], form, fsys).result.Ok?
    requires !validate(Obj(WithEmail(ResolveGroups(SchemaParams(schema, None).value, [], form, fsys).result.value, environment)), Obj(schema))
    ensures FormOptions(schema, form, environment, fsys, validate).result == Err(ValidationError)
  {
  }
}
